/**
 * `fix_Android_Mobile_Browser_Maximized_Bottom_Navbar_Overflow(loadId,
 * dialogOptions)`: decides whether to install the two resize sensors of the
 * boundary reconciler on a dialog, and the dispatch of a resize
 * notification to the callback of the sensor that fired.
 */
module NavbarFix {
  import opened JsValues
  import opened BoundaryReconciler
  import opened NavbarProbe
  import opened ContextGate

  /** Which element a sensor watches: the dialog plugin element itself or
      its `.q-dialog` ancestor. */
  datatype Watched = InnerBox | OuterBox

  /** An installed `ResizeSensor`, with the element whose max-height its
      callback maintains. */
  datatype Sensor = Sensor(watched: Watched, plugin: DialogPlugin)

  /** How a call ends: the content was missing (a warning is logged), the
      context gate failed, the probe measured no navbar, or the sensors were
      installed. */
  datatype Arming = ContentMissing | WrongContext | NoNavbar | Armed

  /** The resize sensors alive in the page. */
  class SensorRegistry {
    var installed: seq<Sensor>

    constructor ()
      ensures installed == []
    {
      installed := [];
    }
  }

  /** The decision the function takes, as a value. */
  function ArmingFor(contentFound: bool, bodyClasses: set<string>, dialogOptions: Value,
                     navbarHeight: int): (a: Arming)
    ensures a == Armed <==>
              contentFound && IsRightContext(bodyClasses, dialogOptions) && navbarHeight > 0
    ensures a == ContentMissing <==> !contentFound
    ensures a == WrongContext <==> contentFound && !IsRightContext(bodyClasses, dialogOptions)
    ensures a == NoNavbar <==>
              contentFound && IsRightContext(bodyClasses, dialogOptions) && navbarHeight <= 0
  {
    if !contentFound then ContentMissing
    else if !IsRightContext(bodyClasses, dialogOptions) then WrongContext
    else if navbarHeight <= 0 then NoNavbar
    else Armed
  }

  /** Sensors are installed only on the platform the fix targets, and there
      only when some navbar was measured. */
  lemma ArmedOnlyInContext(contentFound: bool, bodyClasses: set<string>, dialogOptions: Value,
                           navbarHeight: int)
    requires ArmingFor(contentFound, bodyClasses, dialogOptions, navbarHeight) == Armed
    ensures {"mobile", "platform-android", "q-body--dialog"} <= bodyClasses
    ensures OptionalGet(dialogOptions, "position") == Str("bottom")
    ensures OptionalGet(dialogOptions, "maximized") == Bool(true)
    ensures navbarHeight >= 1
  {
  }

  /** `plugin` is the `.q-dialog-plugin` ancestor of the element with id
      `loadId`, or null when no such element is in the document. The probe
      is handed `probeName` as its id. `controlHeight` and
      `windowInnerHeight` are what the probe would measure. */
  method FixNavbarOverflow(doc: Document, sensors: SensorRegistry, plugin: DialogPlugin?,
                           dialogOptions: Value, probeName: string,
                           controlHeight: nat, windowInnerHeight: nat)
    returns (outcome: Arming)
    modifies doc`body, sensors
    ensures outcome == ArmingFor(plugin != null, doc.bodyClasses, dialogOptions,
                                 NavbarHeight(controlHeight, windowInnerHeight))
    ensures outcome == Armed ==>
              sensors.installed == old(sensors.installed)
                                   + [Sensor(InnerBox, plugin), Sensor(OuterBox, plugin)]
    ensures outcome != Armed ==> sensors.installed == old(sensors.installed)
    ensures doc.body == old(doc.body)
  {
    if plugin != null {
      if IsRightContext(doc.bodyClasses, dialogOptions) {
        var navbarHeight := GetAndroidNavbarHeight(doc, probeName, controlHeight,
                                                   windowInnerHeight);
        if navbarHeight > 0 {
          sensors.installed := sensors.installed + [Sensor(InnerBox, plugin)];
          sensors.installed := sensors.installed + [Sensor(OuterBox, plugin)];
          outcome := Armed;
        } else {
          outcome := NoNavbar;
        }
      } else {
        outcome := WrongContext;
      }
    } else {
      outcome := ContentMissing;
    }
  }

  /** A sensor fires: its callback runs against the current measurements. */
  method Notify(sensor: Sensor, h: Layout)
    modifies sensor.plugin`maxHeight
    ensures sensor.plugin.maxHeight ==
              Step(old(sensor.plugin.maxHeight),
                   if sensor.watched == InnerBox then InnerResized else OuterResized, h)
  {
    if sensor.watched == InnerBox {
      sensor.plugin.OnInnerResize(h);
    } else {
      sensor.plugin.OnOuterResize(h);
    }
  }
}
