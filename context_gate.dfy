/**
 * `isRightContext` of the Android overflow fix: the body carries the
 * classes `mobile`, `platform-android` and `q-body--dialog`, and the dialog
 * options say `position === 'bottom'` and `maximized === true`, read with
 * optional chaining so that missing options simply fail the test.
 */
module ContextGate {
  import opened JsValues

  const MobileClass: string := "mobile"
  const AndroidClass: string := "platform-android"
  const DialogOpenClass: string := "q-body--dialog"

  function IsRightContext(bodyClasses: set<string>, dialogOptions: Value): (r: bool)
    ensures r <==>
              && {"mobile", "platform-android", "q-body--dialog"} <= bodyClasses
              && dialogOptions.Obj?
              && "position" in dialogOptions.fields
              && dialogOptions.fields["position"] == Str("bottom")
              && "maximized" in dialogOptions.fields
              && dialogOptions.fields["maximized"] == Bool(true)
  {
    && MobileClass in bodyClasses
    && AndroidClass in bodyClasses
    && DialogOpenClass in bodyClasses
    && OptionalGet(dialogOptions, "position") == Str("bottom")
    && OptionalGet(dialogOptions, "maximized") == Bool(true)
  }

  /** Any other platform, iOS included, never passes the gate. */
  lemma NotAndroidNeverPasses(bodyClasses: set<string>, dialogOptions: Value)
    requires AndroidClass !in bodyClasses
    ensures !IsRightContext(bodyClasses, dialogOptions)
  {
  }

  /** `maximized` must be the boolean `true`: a truthy stand-in such as `1`
      or `'true'` fails the strict comparison. */
  lemma MaximizedIsStrict(bodyClasses: set<string>, fields: map<string, Value>, v: Value)
    requires v != Bool(true)
    ensures !IsRightContext(bodyClasses, Obj(fields["maximized" := v]))
  {
  }
}
