/**
 * The `UncontrollableInput` component as an object: the mode is fixed when it
 * is created, the owner's props and the internal state value are fields that
 * its methods replace step by step. Each method is specified by the
 * corresponding function of `ControlModel` on the object's snapshot.
 */
module Component {
  import opened Wrappers
  import opened JsValues
  import opened EventValue
  import opened ControlModel

  class UncontrollableInput {
    const controlled: bool   // `this._controlled`
    const dev: bool          // whether the development checks are compiled in
    var props: Props         // `this.props`
    var stateValue: Value    // `this.state.value`

    /** The object's fields as a value of the pure model. */
    function Snapshot(): Instance
      reads this
    {
      Instance(controlled, props, stateValue, dev)
    }

    /**
     * The constructor's assignments: the mode, and the seed in uncontrolled mode.
     * It runs only past the development check, which `Create` performs.
     */
    constructor (initialProps: Props, options: Options, isDev: bool)
      requires !(isDev && "value" in initialProps && "defaultValue" in initialProps)
      ensures Snapshot() == Initial(initialProps, options, isDev)
    {
      var opts := ResolveOptions(options, initialProps);
      var isControlled := "value" in initialProps;
      controlled := isControlled;
      dev := isDev;
      props := initialProps;
      if !isControlled {
        var defaultValue := Get(initialProps, "defaultValue");
        if defaultValue.Undefined? {
          defaultValue := FallbackDefault(opts);
        }
        stateValue := defaultValue;
      } else {
        stateValue := Undefined;
      }
    }

    /** `new UncontrollableInput(props)`, which throws for a controlled instance given a default. */
    static method Create(initialProps: Props, options: Options, isDev: bool)
      returns (r: Result<UncontrollableInput, AdapterError>)
      ensures r.Failure? ==> Construct(initialProps, options, isDev) == Failure(r.error)
      ensures r.Success? ==> fresh(r.value) && Construct(initialProps, options, isDev) == Success(r.value.Snapshot())
    {
      if isDev && "value" in initialProps && "defaultValue" in initialProps {
        return Failure(ControlledWithDefault);
      }
      var input := new UncontrollableInput(initialProps, options, isDev);
      return Success(input);
    }

    /** `get value`: reads only, so repeated reads agree. */
    method GetValue() returns (v: Value)
      ensures v == EffectiveValue(Snapshot())
      ensures controlled ==> v == Get(props, "value")
      ensures !controlled ==> v == stateValue
    {
      if controlled {
        v := Get(props, "value");
      } else {
        v := stateValue;
      }
    }

    /** `set value (value)`. */
    method SetValue(value: Value) returns (r: Outcome<AdapterError>)
      modifies this
      ensures match Assign(old(Snapshot()), value)
              case Failure(e) => r == Fail(e) && Snapshot() == old(Snapshot())
              case Success(next) => r == Pass && Snapshot() == next
    {
      if dev && controlled {
        return Fail(SetOnControlled);
      }
      stateValue := value;
      r := Pass;
    }

    /**
     * `_onChange(event)`. `owner` stands for the owner's `onChange` and says
     * whether it calls `event.preventDefault()`; `calls` lists the events it
     * was called with.
     */
    method OnChange(event: Value, owner: Value -> bool) returns (r: Outcome<AdapterError>, calls: seq<Value>)
      requires !controlled
      modifies this
      ensures calls == if OwnerCalled(old(props)) then [event] else []
      ensures match HandleChange(old(Snapshot()), event, owner(event))
              case Failure(e) => r == Fail(e) && Snapshot() == old(Snapshot())
              case Success(next) => r == Pass && Snapshot() == next
    {
      var defaultPrevented := false;
      calls := [];
      var onChange := Get(props, "onChange");
      if !IsFalsy(onChange) {
        if !IsCallable(onChange) {
          return Fail(OnChangeNotCallable), calls;
        }
        var callsPreventDefault := owner(event);
        calls := calls + [event];
        defaultPrevented := PreventedAfter(event, callsPreventDefault);
      }
      if !defaultPrevented {
        stateValue := GetEventValue(event);
      }
      r := Pass;
    }

    /** `render()`: copies the props, overrides `onChange` and `value`, deletes `defaultValue`. */
    method Render() returns (out: Props)
      ensures out == RenderedProps(Snapshot())
    {
      out := props;
      if !controlled {
        out := out["onChange" := ChangeHandler]["value" := stateValue];
        out := out - {"defaultValue"};
      }
    }

    /** `componentWillReceiveProps(newProps)`, then React's adoption of the new props. */
    method ReceiveProps(newProps: Props) returns (r: Outcome<AdapterError>)
      modifies this
      ensures match UpdateProps(old(Snapshot()), newProps)
              case Failure(e) => r == Fail(e) && Snapshot() == old(Snapshot())
              case Success(next) => r == Pass && Snapshot() == next
    {
      if dev {
        var newControlled := "value" in newProps;
        if !controlled {
          if newControlled {
            return Fail(BecameControlled);
          }
        } else if !newControlled {
          return Fail(BecameUncontrolled);
        }
        if Get(newProps, "defaultValue") != Get(props, "defaultValue") {
          return Fail(DefaultChanged);
        }
      }
      props := newProps;
      r := Pass;
    }
  }


  /** A client of the class: mounting an uncontrolled input seeds it from its default. */
  method MountClient() returns (v: Value, out: Props)
    ensures v == Str("foo")
    ensures out == map["value" := Str("foo"), "onChange" := ChangeHandler]
  {
    var created := UncontrollableInput.Create(map["defaultValue" := Str("foo")], Static(OptionsOther(Undefined)), true);
    assert created.Success?;
    var input := created.value;
    v := input.GetValue();
    out := input.Render();
  }

  /** A client of the class: a raw change value reaches the getter, and the owner is not called. */
  method ChangeClient(input: UncontrollableInput) returns (v: Value, calls: seq<Value>)
    requires !input.controlled && input.props == map["defaultValue" := Str("foo")]
    modifies input
    ensures v == Str("bar") && calls == []
  {
    var r;
    r, calls := input.OnChange(Str("bar"), _ => true);
    assert r == Pass;
    v := input.GetValue();
  }

  /** A client of the class: the setter's value is read back and rendered, without the default. */
  method SetterClient(input: UncontrollableInput) returns (v: Value, out: Props)
    requires !input.controlled && input.props == map["defaultValue" := Str("foo")]
    modifies input
    ensures v == Str("bar")
    ensures out == map["value" := Str("bar"), "onChange" := ChangeHandler]
  {
    var r := input.SetValue(Str("bar"));
    assert r == Pass;
    v := input.GetValue();
    out := input.Render();
  }

  /** A client of the class: with the checks on, a drifting default is refused and nothing changes. */
  method DriftClient(input: UncontrollableInput) returns (r: Outcome<AdapterError>)
    requires !input.controlled && input.dev && input.props == map["defaultValue" := Str("foo")]
    modifies input
    ensures r == Fail(DefaultChanged)
    ensures input.props == map["defaultValue" := Str("foo")]
  {
    r := input.ReceiveProps(map["defaultValue" := Str("bar")]);
  }
}
