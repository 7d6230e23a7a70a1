/**
 * The adapter as a deterministic state machine over a snapshot of one
 * instance: its mode, fixed at construction, the owner's current property bag,
 * the internal state value, and whether the development checks are on.
 * Every operation of the component is a function from a snapshot to the next
 * snapshot or to the error the component throws.
 */
module ControlModel {
  import opened Wrappers
  import opened JsValues
  import opened EventValue

  /** The errors the component throws, one tag per kind of misuse. */
  datatype AdapterError =
    | ControlledWithDefault  // a controlled instance was created with a default
    | SetOnControlled        // the value of a controlled instance was written
    | BecameControlled       // new props gave an uncontrolled instance a value
    | BecameUncontrolled     // new props took the value away from a controlled instance
    | DefaultChanged         // new props carry a different default
    | OnChangeNotCallable    // the owner's `onChange` is truthy but is not a function

  /** What `options`, or `options(props)`, evaluates to. */
  datatype OptionsValue =
      // a plain object; its `defaultValue` property is the fallback default
    | OptionsObject(fields: Props)
      // any value without a `defaultValue` property of its own (`undefined` when no options are given)
    | OptionsOther(v: Value)

  /** An options value that is not a function; a function `options` is always a `Factory`. */
  type StaticOptions = o: OptionsValue | !(o.OptionsOther? && IsCallable(o.v)) witness OptionsOther(Undefined)

  /** The decorator's argument: a static options value or a function of the initial props. */
  datatype Options =
    | Static(opts: StaticOptions)
    | Factory(make: Props -> OptionsValue)

  /** The options in force: a function of the props is applied to them, anything else is used as it is. */
  function ResolveOptions(options: Options, props: Props): (r: OptionsValue)
    ensures options.Static? ==> r == options.opts
    ensures options.Factory? ==> r == options.make(props)
  {
    match options
    case Static(o) => o
    case Factory(make) => make(props)
  }

  /**
   * The default the options supply: an object's `defaultValue` property; a
   * falsy options value is itself the result, any other value has no such property.
   */
  function FallbackDefault(opts: OptionsValue): (r: Value)
    ensures opts.OptionsObject? ==> r == Get(opts.fields, "defaultValue")
    ensures opts.OptionsOther? && !IsFalsy(opts.v) ==> r == Undefined
    ensures opts.OptionsOther? && IsFalsy(opts.v) ==> r == opts.v
  {
    match opts
    case OptionsObject(fields) => Get(fields, "defaultValue")
    case OptionsOther(v) => if IsFalsy(v) then v else Undefined
  }

  /** The seed of an uncontrolled instance: its own default, with the options' one used only for `undefined`. */
  function InitialValue(props: Props, opts: OptionsValue): (r: Value)
    ensures "defaultValue" in props && !props["defaultValue"].Undefined? ==> r == props["defaultValue"]
    ensures "defaultValue" !in props || props["defaultValue"].Undefined? ==> r == FallbackDefault(opts)
  {
    var own := Get(props, "defaultValue");
    if own.Undefined? then FallbackDefault(opts) else own
  }

  /** One instance: `controlled` and `dev` never change; `stateValue` is `this.state.value`. */
  datatype Instance = Instance(controlled: bool, props: Props, stateValue: Value, dev: bool)

  /** The fields the constructor sets, before its development check. */
  function Initial(props: Props, options: Options, dev: bool): (r: Instance)
    ensures r.controlled == ("value" in props) && r.props == props && r.dev == dev
    ensures EffectiveValue(r) ==
      if "value" in props then props["value"] else InitialValue(props, ResolveOptions(options, props))
  {
    var opts := ResolveOptions(options, props);
    var controlled := "value" in props;
    Instance(controlled, props, if controlled then Undefined else InitialValue(props, opts), dev)
  }

  /** The constructor: mode selection, seeding, and the controlled-with-default check. */
  function Construct(props: Props, options: Options, dev: bool): (r: Result<Instance, AdapterError>)
    ensures r.Failure? <==> dev && "value" in props && "defaultValue" in props
    ensures r.Failure? ==> r.error == ControlledWithDefault
    ensures r.Success? ==> r.value.controlled == ("value" in props)
    ensures r.Success? ==> r.value.props == props && r.value.dev == dev
  {
    var inst := Initial(props, options, dev);
    if inst.controlled && dev && "defaultValue" in props then Failure(ControlledWithDefault)
    else Success(inst)
  }

  /** `get value`. */
  function EffectiveValue(inst: Instance): (r: Value)
    ensures inst.controlled && "value" in inst.props ==> r == inst.props["value"]
    ensures inst.controlled && "value" !in inst.props ==> r == Undefined
    ensures !inst.controlled ==> r == inst.stateValue
  {
    if inst.controlled then Get(inst.props, "value") else inst.stateValue
  }

  /** `set value (value)`. */
  function Assign(inst: Instance, value: Value): (r: Result<Instance, AdapterError>)
    ensures r.Failure? <==> inst.controlled && inst.dev
    ensures r.Failure? ==> r.error == SetOnControlled
    ensures r.Success? ==> r.value.controlled == inst.controlled && r.value.dev == inst.dev
    ensures r.Success? ==> r.value.props == inst.props
    ensures r.Success? ==> EffectiveValue(r.value) == if inst.controlled then EffectiveValue(inst) else value
  {
    if inst.dev && inst.controlled then Failure(SetOnControlled)
    else Success(inst.(stateValue := value))
  }

  /** After the owner's handler ran, the event is an event object marked as default-prevented. */
  predicate PreventedAfter(event: Value, callsPreventDefault: bool) {
    !IsFalsy(event) && event.Event? && (event.defaultPrevented || callsPreventDefault)
  }

  /** The owner's handler is present and is called. */
  predicate OwnerCalled(props: Props) {
    !IsFalsy(Get(props, "onChange")) && IsCallable(Get(props, "onChange"))
  }

  /**
   * `_onChange(event)`, which exists only in uncontrolled mode.
   * `callsPreventDefault` says whether the owner's handler, when it is called,
   * calls `event.preventDefault()`.
   */
  function HandleChange(inst: Instance, event: Value, callsPreventDefault: bool): (r: Result<Instance, AdapterError>)
    requires !inst.controlled
    ensures r.Failure? <==> !IsFalsy(Get(inst.props, "onChange")) && !IsCallable(Get(inst.props, "onChange"))
    ensures r.Failure? ==> r.error == OnChangeNotCallable
    ensures r.Success? ==> r.value.controlled == inst.controlled && r.value.dev == inst.dev
    ensures r.Success? ==> r.value.props == inst.props
    ensures r.Success? ==>
      var suppressed := OwnerCalled(inst.props) && PreventedAfter(event, callsPreventDefault);
      r.value.stateValue == if suppressed then inst.stateValue else GetEventValue(event)
  {
    var onChange := Get(inst.props, "onChange");
    if IsFalsy(onChange) then Success(inst.(stateValue := GetEventValue(event)))
    else if !IsCallable(onChange) then Failure(OnChangeNotCallable)
    else if PreventedAfter(event, callsPreventDefault) then Success(inst)
    else Success(inst.(stateValue := GetEventValue(event)))
  }

  /** `render()`: the property bag handed to the wrapped input. */
  function RenderedProps(inst: Instance): (out: Props)
    ensures inst.controlled ==> out == inst.props
    ensures !inst.controlled ==> out.Keys == inst.props.Keys - {"defaultValue"} + {"value", "onChange"}
    ensures !inst.controlled ==> out["value"] == inst.stateValue && out["onChange"] == ChangeHandler
    ensures !inst.controlled ==>
      forall k :: k in out && k != "value" && k != "onChange" ==> out[k] == inst.props[k]
  {
    if inst.controlled then inst.props
    else inst.props["onChange" := ChangeHandler]["value" := inst.stateValue] - {"defaultValue"}
  }

  /** The development checks of `componentWillReceiveProps`, in their order. */
  function PropsCheck(controlled: bool, oldProps: Props, newProps: Props): (r: Outcome<AdapterError>)
    ensures r == Fail(BecameControlled) <==> !controlled && "value" in newProps
    ensures r == Fail(BecameUncontrolled) <==> controlled && "value" !in newProps
    ensures r == Fail(DefaultChanged) <==>
      ("value" in newProps <==> controlled) && Get(newProps, "defaultValue") != Get(oldProps, "defaultValue")
    ensures r == Pass <==>
      ("value" in newProps <==> controlled) && Get(newProps, "defaultValue") == Get(oldProps, "defaultValue")
  {
    var newControlled := "value" in newProps;
    if !controlled && newControlled then Fail(BecameControlled)
    else if controlled && !newControlled then Fail(BecameUncontrolled)
    else if Get(newProps, "defaultValue") != Get(oldProps, "defaultValue") then Fail(DefaultChanged)
    else Pass
  }

  /** The owner supplies a new property bag: checked in development, then adopted. */
  function UpdateProps(inst: Instance, newProps: Props): (r: Result<Instance, AdapterError>)
    ensures !inst.dev ==> r == Success(inst.(props := newProps))
    ensures r.Failure? ==> PropsCheck(inst.controlled, inst.props, newProps) == Fail(r.error)
    ensures r.Success? ==> r.value == inst.(props := newProps)
    ensures inst.dev ==> (r.Success? <==> PropsCheck(inst.controlled, inst.props, newProps) == Pass)
  {
    if inst.dev then
      match PropsCheck(inst.controlled, inst.props, newProps)
      case Fail(e) => Failure(e)
      case Pass => Success(inst.(props := newProps))
    else Success(inst.(props := newProps))
  }

  /**
   * The wrapped input calls the `onChange` it was rendered with. In controlled
   * mode that is the owner's own handler and the adapter takes no part.
   */
  function Dispatch(inst: Instance, event: Value, callsPreventDefault: bool): (r: Result<Instance, AdapterError>)
    ensures inst.controlled ==> r == Success(inst)
    ensures r.Success? ==> r.value.props == inst.props && r.value.controlled == inst.controlled
    ensures !inst.controlled ==> r == HandleChange(inst, event, callsPreventDefault)
  {
    if inst.controlled then Success(inst) else HandleChange(inst, event, callsPreventDefault)
  }

  /** One interaction with a mounted instance. */
  datatype Op =
    | SetValueOp(value: Value)
    | ChangeOp(event: Value, callsPreventDefault: bool)
    | PropsOp(newProps: Props)

  function Step(inst: Instance, op: Op): (r: Result<Instance, AdapterError>) {
    match op
    case SetValueOp(v) => Assign(inst, v)
    case ChangeOp(e, p) => Dispatch(inst, e, p)
    case PropsOp(p) => UpdateProps(inst, p)
  }

  /** A sequence of interactions; the first error stops the run. */
  function Run(inst: Instance, ops: seq<Op>): (r: Result<Instance, AdapterError>)
    ensures r.Success? ==> r.value.controlled == inst.controlled && r.value.dev == inst.dev
    decreases |ops|
  {
    if ops == [] then Success(inst)
    else
      match Step(inst, ops[0])
      case Failure(e) => Failure(e)
      case Success(next) => Run(next, ops[1..])
  }

  // ---------------------------------------------------------------------------
  // Properties

  /** The mode is the presence of the `value` key, whatever its value, even `undefined`. */
  lemma ModeIsKeyPresence(props: Props, options: Options, dev: bool)
    requires Construct(props, options, dev).Success?
    ensures Construct(props, options, dev).value.controlled <==> "value" in props
    ensures "value" in props ==> EffectiveValue(Construct(props, options, dev).value) == props["value"]
  {
  }

  /** The uncontrolled seed: the own `defaultValue` unless `undefined`, then the options' one. */
  lemma InitialValuePrecedence(props: Props, options: Options, dev: bool)
    requires "value" !in props
    ensures Construct(props, options, dev).Success?
    ensures var v := EffectiveValue(Construct(props, options, dev).value);
      && (!Get(props, "defaultValue").Undefined? ==> v == props["defaultValue"])
      && (Get(props, "defaultValue").Undefined? && options.Static? ==> v == FallbackDefault(options.opts))
      && (Get(props, "defaultValue").Undefined? && options.Factory? ==> v == FallbackDefault(options.make(props)))
      && (Get(props, "defaultValue").Undefined? && options.Static? && options.opts == OptionsOther(Undefined) ==>
            v == Undefined)
  {
  }

  /** Writing then reading in uncontrolled mode gives back the written value. */
  lemma SetThenGet(inst: Instance, value: Value)
    requires !inst.controlled
    ensures Assign(inst, value).Success?
    ensures EffectiveValue(Assign(inst, value).value) == value
    ensures RenderedProps(Assign(inst, value).value)["value"] == value
  {
  }

  /** With no owner handler, a change with value `v` is what the next read and render show. */
  lemma ChangeRoundTrip(inst: Instance, v: Value, callsPreventDefault: bool)
    requires !inst.controlled && IsFalsy(Get(inst.props, "onChange"))
    requires !HasTarget(v)
    ensures HandleChange(inst, v, callsPreventDefault).Success?
    ensures var next := HandleChange(inst, v, callsPreventDefault).value;
      EffectiveValue(next) == v && RenderedProps(next)["value"] == v
  {
  }

  /** An owner handler that leaves the event default-prevented suppresses the update. */
  lemma ChangeSuppressed(inst: Instance, event: Value, callsPreventDefault: bool)
    requires !inst.controlled && OwnerCalled(inst.props)
    requires PreventedAfter(event, callsPreventDefault)
    ensures HandleChange(inst, event, callsPreventDefault) == Success(inst)
    ensures EffectiveValue(HandleChange(inst, event, callsPreventDefault).value) == EffectiveValue(inst)
  {
  }

  /** Without an owner handler nothing can prevent the update, not even an already-prevented event. */
  lemma ChangeWithoutOwnerAlwaysUpdates(inst: Instance, event: Value, callsPreventDefault: bool)
    requires !inst.controlled && IsFalsy(Get(inst.props, "onChange"))
    ensures HandleChange(inst, event, callsPreventDefault) == Success(inst.(stateValue := GetEventValue(event)))
  {
  }

  /** Whenever the rendered props carry `value`, it is the accessor's value. */
  lemma RenderShowsEffectiveValue(inst: Instance)
    ensures !inst.controlled ==> "value" in RenderedProps(inst) && "defaultValue" !in RenderedProps(inst)
    ensures "value" in RenderedProps(inst) ==> RenderedProps(inst)["value"] == EffectiveValue(inst)
  {
  }

  /** A controlled instance's written state is never observed: the accessor and the render ignore it. */
  lemma ControlledStateUnobservable(inst: Instance, value: Value)
    requires inst.controlled && !inst.dev
    ensures Assign(inst, value).Success?
    ensures EffectiveValue(Assign(inst, value).value) == EffectiveValue(inst)
    ensures RenderedProps(Assign(inst, value).value) == RenderedProps(inst)
  {
  }

  /**
   * What the development checks keep true of an instance: the `value` key is
   * present exactly in controlled mode, and `defaultValue` reads as it did at
   * construction.
   */
  ghost predicate DevInvariant(inst: Instance, initialDefault: Value) {
    inst.dev && ("value" in inst.props <==> inst.controlled)
    && Get(inst.props, "defaultValue") == initialDefault
  }

  lemma StepKeepsDevInvariant(inst: Instance, d: Value, op: Op)
    requires DevInvariant(inst, d)
    requires Step(inst, op).Success?
    ensures DevInvariant(Step(inst, op).value, d)
  {
  }

  lemma {:induction false} RunKeepsDevInvariant(inst: Instance, d: Value, ops: seq<Op>)
    requires DevInvariant(inst, d)
    requires Run(inst, ops).Success?
    ensures DevInvariant(Run(inst, ops).value, d)
    decreases |ops|
  {
    if ops != [] {
      StepKeepsDevInvariant(inst, d, ops[0]);
      RunKeepsDevInvariant(Step(inst, ops[0]).value, d, ops[1..]);
    }
  }

  /**
   * Over any sequence of interactions accepted with the checks on, the mode
   * agrees with the `value` key, `defaultValue` stays the one given at
   * construction (the check compares with the previous props only), a
   * controlled instance never sees a defined `defaultValue`, and every render
   * shows the accessor's value.
   */
  lemma DevLifetime(props: Props, options: Options, ops: seq<Op>)
    requires Construct(props, options, true).Success?
    requires Run(Construct(props, options, true).value, ops).Success?
    ensures var last := Run(Construct(props, options, true).value, ops).value;
      && last.controlled == ("value" in props)
      && ("value" in last.props <==> last.controlled)
      && Get(last.props, "defaultValue") == Get(props, "defaultValue")
      && (last.controlled ==> Get(last.props, "defaultValue") == Undefined)
      && "value" in RenderedProps(last)
      && RenderedProps(last)["value"] == EffectiveValue(last)
  {
    var first := Construct(props, options, true).value;
    RunKeepsDevInvariant(first, Get(props, "defaultValue"), ops);
  }
}
