/**
 * `setButtonDefaults(defaults, options, btnDefaults)` of XDialogHelpers.js.
 *
 * For every key `btn` of `btnDefaults` it (1) replaces `defaults[btn]` by
 * `btnDefaults[btn]` when `defaults` has a truthy (or object) entry for it,
 * (2) puts `btnDefaults[btn]` into the result when `options[btn] === true`,
 * and (3) puts the merge `extend({}, btnDefaults[btn], options[btn])` into
 * the result when `options[btn]` is an object, forcing the merged `name`
 * back to `btnDefaults[btn].name` whenever the options supplied one.
 *
 * `extend` is taken to be a shallow merge in which later sources win and a
 * source that is not an object contributes no properties.
 */
module ButtonDefaults {
  import opened JsValues

  /** A JavaScript object the helper writes into. */
  class JsObject {
    var props: map<string, Value>

    constructor (props: map<string, Value>)
      ensures this.props == props
    {
      this.props := props;
    }
  }

  /** The `TypeError` raised by reading `.name` of a nullish button default. */
  datatype ButtonError = NameOfNullishDefault

  /** `btnEnabledByDefault` of one iteration. Its `isObject` disjunct adds
      nothing: an object is truthy already. */
  predicate EnabledByDefault(defaults: map<string, Value>, btn: string)
    ensures EnabledByDefault(defaults, btn) <==> btn in defaults && Truthy(defaults[btn])
  {
    btn in defaults && (Truthy(defaults[btn]) || IsObject(defaults[btn]))
  }

  /** `defaults` after the iterations for the keys in `done`. */
  function PartlyUpdated(defaults: map<string, Value>, btnDefaults: map<string, Value>,
                         done: set<string>): (d: map<string, Value>)
    ensures d.Keys == defaults.Keys
  {
    map btn | btn in defaults ::
      if btn in done && btn in btnDefaults && EnabledByDefault(defaults, btn)
      then btnDefaults[btn] else defaults[btn]
  }

  /** `defaults` after the whole loop: an entry is replaced only when the
      key is in both maps and the entry was truthy, and then by the button
      default; no key is added or removed. */
  function UpdatedDefaults(defaults: map<string, Value>, btnDefaults: map<string, Value>)
    : (d: map<string, Value>)
    ensures d.Keys == defaults.Keys
    ensures forall btn :: btn in d && d[btn] != defaults[btn] ==>
              btn in btnDefaults && Truthy(defaults[btn]) && d[btn] == btnDefaults[btn]
    ensures forall btn :: btn in btnDefaults && btn in defaults && Truthy(defaults[btn]) ==>
              d[btn] == btnDefaults[btn]
  {
    PartlyUpdated(defaults, btnDefaults, btnDefaults.Keys)
  }

  /** What the iteration for one button contributes to `btnOptions`. */
  datatype Contribution = Nothing | Entry(value: Value) | Throws

  /** The contribution of a button whose default is `dflt` and whose option,
      if `options` has the key, is `opt`. */
  function ButtonContribution(dflt: Value, opt: Option<Value>): (c: Contribution)
    // `true` selects the default button object as it is
    ensures opt == Some(Bool(true)) ==> c == Entry(dflt)
    // only `true` and objects contribute
    ensures c.Nothing? <==> opt.None? || (opt.value != Bool(true) && !opt.value.Obj?)
    // reading the default's name fails exactly for a nullish default
    ensures c.Throws? <==>
              opt.Some? && opt.value.Obj? && "name" in opt.value.fields
              && (dflt.Undefined? || dflt.Null?)
    // an object option is merged over the default, the option winning ...
    ensures c.Entry? && opt.Some? && opt.value.Obj? ==>
              && c.value.Obj?
              && c.value.fields.Keys == OwnFields(dflt).Keys + opt.value.fields.Keys
              && (forall k :: k in opt.value.fields && k != "name" ==>
                    c.value.fields[k] == opt.value.fields[k])
              && (forall k :: k in OwnFields(dflt) && k !in opt.value.fields ==>
                    c.value.fields[k] == OwnFields(dflt)[k])
    // ... except that the name is always the default's
    ensures c.Entry? && opt.Some? && opt.value.Obj? && "name" in opt.value.fields ==>
              c.value.fields["name"] == OptionalGet(dflt, "name")
  {
    match opt
    case None => Nothing
    case Some(o) =>
      if o == Bool(true) then Entry(dflt)
      else if IsObject(o) then
        var merged := OwnFields(dflt) + o.fields;
        if "name" in o.fields then
          match Get(dflt, "name")
          case None => Throws
          case Some(name) => Entry(Obj(merged["name" := name]))
        else Entry(Obj(merged))
      else Nothing
  }

  function ContributionOf(options: map<string, Value>, btnDefaults: map<string, Value>,
                          btn: string): Contribution
    requires btn in btnDefaults
  {
    ButtonContribution(btnDefaults[btn], Lookup(options, btn))
  }

  /** The buttons of `done` that contribute an entry, with their entries. */
  function EntriesFor(options: map<string, Value>, btnDefaults: map<string, Value>,
                      done: set<string>): map<string, Value>
    requires done <= btnDefaults.Keys
  {
    map btn | btn in done && ContributionOf(options, btnDefaults, btn).Entry? ::
      ContributionOf(options, btnDefaults, btn).value
  }

  /** The value returned by `setButtonDefaults`, or the error it throws,
      given the options as the loop reads them. */
  function ButtonOptions(options: map<string, Value>, btnDefaults: map<string, Value>)
    : (r: Result<map<string, Value>, ButtonError>)
    ensures r.Failure? <==>
              exists btn :: btn in btnDefaults && btn in options && options[btn].Obj?
                && "name" in options[btn].fields
                && (btnDefaults[btn].Undefined? || btnDefaults[btn].Null?)
    ensures r.Success? ==> r.value.Keys <= btnDefaults.Keys * options.Keys
    ensures r.Success? ==>
              forall btn :: btn in btnDefaults && btn in options && options[btn] == Bool(true) ==>
                btn in r.value && r.value[btn] == btnDefaults[btn]
    ensures r.Success? ==>
              forall btn :: btn in btnDefaults && btn in options && options[btn].Obj? ==>
                btn in r.value && r.value[btn].Obj?
    ensures r.Success? ==>
              forall btn :: btn in r.value ==> options[btn] == Bool(true) || options[btn].Obj?
    // every entry is the contribution of its button: the default for `true`,
    // the merge for an object ...
    ensures r.Success? ==>
              forall btn :: btn in r.value ==>
                btn in btnDefaults && ContributionOf(options, btnDefaults, btn) == Entry(r.value[btn])
    // ... whose name is the default's whenever the option supplied one
    ensures r.Success? ==>
              forall btn :: btn in r.value && options[btn].Obj? && "name" in options[btn].fields ==>
                r.value[btn].Obj? && "name" in r.value[btn].fields
                && r.value[btn].fields["name"] == OptionalGet(btnDefaults[btn], "name")
  {
    if exists btn :: btn in btnDefaults && ContributionOf(options, btnDefaults, btn).Throws?
    then Failure(NameOfNullishDefault)
    else Success(EntriesFor(options, btnDefaults, btnDefaults.Keys))
  }

  lemma UpdateStep(defaults: map<string, Value>, btnDefaults: map<string, Value>,
                   done: set<string>, btn: string)
    requires done <= btnDefaults.Keys && btn in btnDefaults && btn !in done
    ensures EnabledByDefault(PartlyUpdated(defaults, btnDefaults, done), btn)
              == EnabledByDefault(defaults, btn)
    ensures PartlyUpdated(defaults, btnDefaults, done + {btn}) ==
              if EnabledByDefault(defaults, btn)
              then PartlyUpdated(defaults, btnDefaults, done)[btn := btnDefaults[btn]]
              else PartlyUpdated(defaults, btnDefaults, done)
  {
  }

  /** Once the iteration for `btn` has done step (1), the entry for `btn`
      is the one it has after the whole loop. */
  lemma SeenAt(defaults: map<string, Value>, btnDefaults: map<string, Value>,
               done: set<string>, btn: string)
    requires done <= btnDefaults.Keys && btn in btnDefaults && btn !in done
    ensures Lookup(PartlyUpdated(defaults, btnDefaults, done + {btn}), btn)
              == Lookup(UpdatedDefaults(defaults, btnDefaults), btn)
  {
  }

  lemma EntriesStep(options: map<string, Value>, btnDefaults: map<string, Value>,
                    done: set<string>, btn: string)
    requires done <= btnDefaults.Keys && btn in btnDefaults && btn !in done
    ensures EntriesFor(options, btnDefaults, done + {btn}) ==
              match ContributionOf(options, btnDefaults, btn)
              case Entry(v) => EntriesFor(options, btnDefaults, done)[btn := v]
              case _ => EntriesFor(options, btnDefaults, done)
  {
  }

  lemma ThrowsAt(options: map<string, Value>, btnDefaults: map<string, Value>, btn: string)
    requires btn in btnDefaults && ContributionOf(options, btnDefaults, btn).Throws?
    ensures ButtonOptions(options, btnDefaults) == Failure(NameOfNullishDefault)
  {
  }

  lemma NoneThrows(options: map<string, Value>, btnDefaults: map<string, Value>)
    requires forall btn :: btn in btnDefaults ==> !ContributionOf(options, btnDefaults, btn).Throws?
    ensures ButtonOptions(options, btnDefaults) == Success(EntriesFor(options, btnDefaults, btnDefaults.Keys))
  {
  }

  /** The options as the loop reads them: when `options` and `defaults` are
      the same object, each button's option is read after step (1) has
      rewritten it. */
  function OptionsSeen(aliased: bool, defaults: map<string, Value>, options: map<string, Value>,
                       btnDefaults: map<string, Value>): (seen: map<string, Value>)
    ensures !aliased ==> seen == options
    ensures aliased ==> seen.Keys == defaults.Keys
    ensures aliased ==>
              forall btn :: btn in seen ==>
                seen[btn] == (if btn in btnDefaults && Truthy(defaults[btn])
                              then btnDefaults[btn] else defaults[btn])
  {
    if aliased then UpdatedDefaults(defaults, btnDefaults) else options
  }

  /** The loop over the keys of `btnDefaults`, in whatever order the engine
      enumerates them. */
  method SetButtonDefaults(defaults: JsObject, options: JsObject, btnDefaults: map<string, Value>)
    returns (r: Result<map<string, Value>, ButtonError>)
    modifies defaults
    ensures r == ButtonOptions(OptionsSeen(options == defaults, old(defaults.props),
                                           old(options.props), btnDefaults), btnDefaults)
    ensures r.Success? ==> defaults.props == UpdatedDefaults(old(defaults.props), btnDefaults)
    ensures r.Failure? ==>
              && defaults.props.Keys == old(defaults.props).Keys
              && forall btn :: btn in defaults.props ==>
                   defaults.props[btn] in {old(defaults.props)[btn],
                                           UpdatedDefaults(old(defaults.props), btnDefaults)[btn]}
    ensures options != defaults ==> options.props == old(options.props)
  {
    ghost var d0 := defaults.props;
    ghost var seen := OptionsSeen(options == defaults, d0, options.props, btnDefaults);
    var btnOptions: map<string, Value> := map[];
    var todo := btnDefaults.Keys;
    while todo != {}
      invariant todo <= btnDefaults.Keys
      invariant defaults.props == PartlyUpdated(d0, btnDefaults, btnDefaults.Keys - todo)
      invariant options != defaults ==> options.props == old(options.props)
      invariant forall btn :: btn in btnDefaults.Keys - todo ==>
                  !ContributionOf(seen, btnDefaults, btn).Throws?
      invariant btnOptions == EntriesFor(seen, btnDefaults, btnDefaults.Keys - todo)
      decreases todo
    {
      var btn :| btn in todo;
      ghost var done := btnDefaults.Keys - todo;
      UpdateStep(d0, btnDefaults, done, btn);
      if btn in defaults.props && (Truthy(defaults.props[btn]) || IsObject(defaults.props[btn])) {
        defaults.props := defaults.props[btn := btnDefaults[btn]];
      }
      todo := todo - {btn};
      assert btnDefaults.Keys - todo == done + {btn};
      SeenAt(d0, btnDefaults, done, btn);
      assert Lookup(options.props, btn) == Lookup(seen, btn);
      EntriesStep(seen, btnDefaults, done, btn);
      if btn in options.props && options.props[btn] == Bool(true) {
        btnOptions := btnOptions[btn := btnDefaults[btn]];
      }
      if btn in options.props && IsObject(options.props[btn]) {
        var merged := OwnFields(btnDefaults[btn]) + options.props[btn].fields;
        if "name" in options.props[btn].fields {
          var name := Get(btnDefaults[btn], "name");
          if name.None? {
            ThrowsAt(seen, btnDefaults, btn);
            return Failure(NameOfNullishDefault);
          }
          merged := merged["name" := name.value];
        }
        btnOptions := btnOptions[btn := Obj(merged)];
      }
    }
    assert btnDefaults.Keys - todo == btnDefaults.Keys;
    NoneThrows(seen, btnDefaults);
    return Success(btnOptions);
  }
}
