/**
 * The behaviour the project's tests assert, replayed on the pure model with
 * the development checks on and no options (`uncontrollableInput()`).
 */
module Scenarios {
  import opened Wrappers
  import opened JsValues
  import opened EventValue
  import opened ControlModel

  const NoOptions := Static(OptionsOther(Undefined))

  /** Controlled mode passes the owner's props through untouched. */
  lemma ControlledPassThrough()
    ensures var r := Construct(map["value" := Str("foo")], NoOptions, true);
      r.Success? && r.value.controlled && RenderedProps(r.value) == map["value" := Str("foo")]
      && EffectiveValue(r.value) == Str("foo")
  {
  }

  /** An explicit `value: undefined` still selects controlled mode. */
  lemma UndefinedValueIsControlled()
    ensures var r := Construct(map["value" := Undefined], NoOptions, true);
      r.Success? && r.value.controlled && RenderedProps(r.value)["value"] == Undefined
  {
  }

  /** Uncontrolled mode shows the default, then the value a change handler call carries. */
  lemma UncontrolledChange()
    ensures var r := Construct(map["defaultValue" := Str("foo")], NoOptions, true);
      && r.Success? && !r.value.controlled
      && RenderedProps(r.value)["value"] == Str("foo")
      && EffectiveValue(r.value) == Str("foo")
      && var c := HandleChange(r.value, Str("bar"), false);
         c.Success? && RenderedProps(c.value)["value"] == Str("bar")
  {
  }

  /** A checkbox event, whatever the case of its node name and type, sets the value to `checked`. */
  lemma CheckboxChange()
    ensures var r := Construct(map["defaultValue" := Str("foo")], NoOptions, true);
      && r.Success?
      && var box := Event(Some(Target("INPUT", "CheckBox", Bool(true), Str("on"))), false);
         var c := HandleChange(r.value, box, false);
         c.Success? && EffectiveValue(c.value) == Bool(true)
  {
    assert Lower("INPUT") == "input" && Lower("CheckBox") == "checkbox";
  }

  /** A falsy own default is kept. */
  lemma FalsyDefaultKept()
    ensures var r := Construct(map["defaultValue" := Str("")], NoOptions, true);
      r.Success? && RenderedProps(r.value)["value"] == Str("")
  {
  }

  /** A controlled instance given a default is refused at construction. */
  lemma ControlledWithDefaultRefused()
    ensures Construct(map["defaultValue" := Str("foo"), "value" := Str("bar")], NoOptions, true)
            == Failure(ControlledWithDefault)
  {
  }

  /** New props that bring `value` to an uncontrolled instance are refused. */
  lemma BecomingControlledRefused()
    ensures var r := Construct(map["defaultValue" := Str("foo")], NoOptions, true);
      r.Success? &&
      UpdateProps(r.value, map["defaultValue" := Str("foo"), "value" := Str("foo")]) == Failure(BecameControlled)
  {
  }

  /** A changed default is refused. */
  lemma DefaultChangeRefused()
    ensures var r := Construct(map["defaultValue" := Str("foo")], NoOptions, true);
      r.Success? && UpdateProps(r.value, map["defaultValue" := Str("bar")]) == Failure(DefaultChanged)
  {
  }

  /** The setter updates an uncontrolled value and is refused on a controlled one. */
  lemma Setter()
    ensures var u := Construct(map["defaultValue" := Str("foo")], NoOptions, true);
      u.Success? && Assign(u.value, Str("bar")).Success?
      && EffectiveValue(Assign(u.value, Str("bar")).value) == Str("bar")
      && RenderedProps(Assign(u.value, Str("bar")).value)["value"] == Str("bar")
    ensures var c := Construct(map["value" := Str("foo")], NoOptions, true);
      c.Success? && Assign(c.value, Str("bar")) == Failure(SetOnControlled)
  {
  }

  /**
   * Even with the checks on, a controlled instance can be handed a
   * `defaultValue: undefined` property, which it passes to the wrapped input.
   */
  lemma ControlledForwardsUndefinedDefault()
    ensures var r := Construct(map["value" := Str("foo")], NoOptions, true);
      && r.Success?
      && var u := UpdateProps(r.value, map["value" := Str("foo"), "defaultValue" := Undefined]);
         u.Success? && "defaultValue" in RenderedProps(u.value)
  {
  }
}
