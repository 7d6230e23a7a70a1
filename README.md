# react-auto-controlled-input, modelled in Dafny

`react-auto-controlled-input` is a decorator. It wraps a controlled input component so that the input
also works in uncontrolled mode. An instance picks its mode once, at construction:

- **Controlled** if its initial props have a `value` key, even `value: undefined`.
  The owner's props are then passed through untouched.
- **Uncontrolled** otherwise. The instance keeps its own value, seeded from `defaultValue`
  or from the decorator's options.
  It renders the wrapped input with that value and with its own change handler.
  An internal change handler updates the value, first giving the owner's `onChange` a chance
  to prevent the update.

In development builds, the component throws on misuse:
- a controlled instance with a default;
- a write to a controlled value;
- a mode flip;
- a changed default.

This model removes React. What remains is a state machine over a property bag:

- `js_values.dfy` (module `JsValues`): the JavaScript values that can appear in props or be passed to
  a change handler, their falsiness, a missing key reading as `undefined`, and ASCII `toLowerCase`.
- `event_value.dfy` (module `EventValue`): `getEventValue`.
- `control_model.dfy` (module `ControlModel`): the instance as a value `Instance(controlled, props,
  stateValue, dev)`, each operation as a function to the next instance or to an error tag, a run of
  operations, and the lemmas.
- `component.dfy` (module `Component`): the class `UncontrollableInput`. Its fields are `controlled`,
  `dev`, `props` and `stateValue`. Its methods update these fields one step at a time, as the source
  does, and each method's `ensures` ties the new fields to the matching `ControlModel` function.
  The file also holds small client methods.
- `scenarios.dfy` (module `Scenarios`): the project's tests, replayed on the model.
- `wrappers.dfy` (module `Wrappers`): `Option`, `Result`, `Outcome`.

The build-time `__DEV__` constant is a `dev` parameter. The thrown errors are tags of `AdapterError`.
The owner's `onChange` is a parameter `owner: Value -> bool`, which says whether the handler calls
`event.preventDefault()`. A handler that is present but not a function makes the call throw a
`TypeError`; the model returns `OnChangeNotCallable` for it.

Behaviour of src/index.js worth noting:
- **Controlled pass-through.** In controlled mode the props reach the wrapped input untouched. That
  includes any `defaultValue` key, and the wrapped input gets `onChange` only if the owner supplied one.
  Even with the checks on, a later `defaultValue: undefined` reaches the wrapped input
  (`Scenarios.ControlledForwardsUndefinedDefault`).
- **Default fallback.** The options' default is used whenever the own `defaultValue` is `undefined`,
  whether the key is missing or holds `undefined`.
- **Default drift.** The development check compares the new `defaultValue` with the previous props'
  one. On every run the checks accept, that is also the value given at construction
  (`ControlModel.DevLifetime`).
- **Controlled writes.** With the checks off, writing a controlled value updates the internal state.
  The getter and the render never show that state (`ControlModel.ControlledStateUnobservable`).
- **Normalisation order.** The event is normalised after the owner's handler has run.
- **Function options.** An `options` that is a function is always called with the props (`Factory`);
  a static options value is never a function.

## Model

| member | source | states |
|---|---|---|
| `JsValues.LowerEqualsWord` | src/index.js:12-13 | comparing `s.toLowerCase()` with a lower-case word holds exactly when `s` spells the word with each letter in either case |
| `EventValue.GetEventValue` | src/index.js:5-17 | an event without a truthy target is returned unchanged; otherwise the result is the target's `checked` or its `value`, and always its `value` when the node name is not "input", whatever its `type` |
| `EventValue.GetEventValueCases` | src/index.js:5-17 | a falsy event, or one without a target, is returned unchanged; otherwise the result is `target.checked` when the node name matches "input" and the type matches "checkbox", ignoring case, and `target.value` in every other case |
| `ControlModel.ResolveOptions` | src/index.js:26 | static options are used as they are; an options function is applied to the initial props |
| `ControlModel.FallbackDefault` | src/index.js:29 | an options object gives its `defaultValue` (or `undefined`); a falsy options value gives itself; a truthy options value that is not an object gives `undefined` |
| `ControlModel.InitialValue` | src/index.js:29 | the own `defaultValue` when it is present and not `undefined`, falsy values included; otherwise the options' fallback |
| `ControlModel.Initial` | src/index.js:26-30 | the constructor's fields: the mode is the presence of `value`, the props and dev flag are kept, and the getter reads `props.value` when controlled and the seeded default otherwise |
| `ControlModel.EffectiveValue` | src/index.js:50-54 | a controlled instance reads `props.value`, `undefined` when the key is missing; an uncontrolled one reads its state value |
| `ControlModel.Construct` | src/index.js:26-47 | fails with `ControlledWithDefault` exactly when the checks are on and both `value` and `defaultValue` keys are present; on success the mode is the presence of the `value` key, and the props and dev flag are kept |
| `ControlModel.ModeIsKeyPresence` | src/index.js:27 | controlled iff the `value` key is present, whatever its value; a controlled instance reads that value |
| `ControlModel.InitialValuePrecedence` | src/index.js:26-30 | an uncontrolled instance is never refused. It starts with the own `defaultValue` unless that is `undefined`, falsy values included. Otherwise it starts with the `defaultValue` of the static options or of the options function applied to the props. With no options it starts `undefined` |
| `ControlModel.Assign` | src/index.js:56-62 | fails with `SetOnControlled` exactly when controlled with the checks on; on success the props and mode are kept and the getter returns the written value if uncontrolled, its old value if controlled |
| `ControlModel.SetThenGet` | src/index.js:50-62 | in uncontrolled mode, a write followed by a read or a render yields the written value |
| `ControlModel.ControlledStateUnobservable` | src/index.js:50-62 | with the checks off, a controlled write succeeds and changes neither the getter's value nor the rendered props |
| `ControlModel.HandleChange` | src/index.js:32-44 | fails with `OnChangeNotCallable` exactly when the owner's `onChange` is truthy but not callable; otherwise props and mode are kept, and the state stays the same when the owner was called and left the event default-prevented, and becomes the normalised event value in every other case |
| `ControlModel.ChangeRoundTrip` | src/index.js:32-43 | with no owner handler, a change with a raw value V makes both the getter and the rendered `value` equal V |
| `ControlModel.ChangeSuppressed` | src/index.js:35-42 | when the owner's handler ran and the event is default-prevented afterwards, the instance and its value are unchanged |
| `ControlModel.ChangeWithoutOwnerAlwaysUpdates` | src/index.js:33-42 | without an owner handler the update always happens, even for an event that was already default-prevented |
| `ControlModel.RenderedProps` | src/index.js:64-78 | controlled: the props unchanged; uncontrolled: the keys are the props' keys minus `defaultValue` plus `value` and `onChange`, `value` is the state value, `onChange` is the internal handler, and every other key keeps its value |
| `ControlModel.RenderShowsEffectiveValue` | src/index.js:50-78 | an uncontrolled render never carries `defaultValue`. Whenever a render carries `value`, it is what the getter returns |
| `ControlModel.Dispatch` | src/index.js:64-77 | a change raised by the wrapped input leaves a controlled instance untouched, since its `onChange` is the owner's own; in uncontrolled mode the wrapped input's `onChange` is the internal handler, so the result is exactly `HandleChange`'s |
| `ControlModel.PropsCheck` | src/index.js:84-97 | the four outcomes in order. `BecameControlled` iff an uncontrolled instance gets `value`. `BecameUncontrolled` iff a controlled one loses it. `DefaultChanged` iff the mode agrees and the new `defaultValue` differs from the previous props' one. Passes iff the mode agrees and the default is the same |
| `ControlModel.UpdateProps` | src/index.js:81-98 | with the checks off the new props are always adopted; with them on, they are adopted exactly when the checks pass, and otherwise the check's error is raised and nothing changes |
| `ControlModel.Run` | src/index.js:22-99 | any run of writes, changes and prop updates keeps the mode and the dev flag |
| `ControlModel.StepKeepsDevInvariant` | src/index.js:81-98 | with the checks on, each accepted operation keeps two facts: the `value` key is present exactly in controlled mode, and `defaultValue` reads as before |
| `ControlModel.RunKeepsDevInvariant` | src/index.js:81-98 | the same invariant holds over any run the checks accept |
| `ControlModel.DevLifetime` | src/index.js:26-98 | after construction and any run the checks accept, five facts hold. The mode agrees with the `value` key. `defaultValue` reads as it did at construction. A controlled instance reads `defaultValue` as `undefined`. Every render carries `value`. That `value` is the getter's value |
| `Component.UncontrollableInput.constructor` | src/index.js:23-48 | past the development check (a controlled instance with a default and the checks on never gets here), sets the mode from the `value` key and seeds the state from the own default or the options' default |
| `Component.UncontrollableInput.Create` | src/index.js:23-48 | returns the error of, or a fresh object whose fields equal, the constructed instance |
| `Component.UncontrollableInput.GetValue` | src/index.js:50-54 | returns `props.value` when controlled and the state value otherwise; it changes nothing, so repeated reads agree |
| `Component.UncontrollableInput.SetValue` | src/index.js:56-62 | refuses with `SetOnControlled` and changes nothing, or writes the state value, as `Assign` says |
| `Component.UncontrollableInput.OnChange` | src/index.js:32-44 | calls the owner exactly once with the raw event when its handler is present and callable, and not at all otherwise; the new fields are those `HandleChange` gives |
| `Component.UncontrollableInput.Render` | src/index.js:64-78 | the copy-override-delete steps produce exactly `RenderedProps` of the current fields |
| `Component.UncontrollableInput.ReceiveProps` | src/index.js:81-98 | runs the checks in order against the current props and adopts the new props only when they pass, as `UpdateProps` says |
| `Component.MountClient` | src/index.spec.js:32-36 | mounting with `defaultValue: 'foo'` reads 'foo' and renders exactly `{ value: 'foo', onChange: handler }` |
| `Component.ChangeClient` | src/index.spec.js:37-38 | a raw change with 'bar' is read back as 'bar', and no owner handler is called |
| `Component.SetterClient` | src/index.spec.js:96-104 | after the setter writes 'bar', the getter reads 'bar' and the render carries it without `defaultValue` |
| `Component.DriftClient` | src/index.spec.js:74-82 | with the checks on, a changed `defaultValue` is refused and the props stay as they were |
| `Scenarios.ControlledPassThrough` | src/index.spec.js:18-23 | `value: 'foo'` is controlled and renders exactly `{ value: 'foo' }` |
| `Scenarios.UndefinedValueIsControlled` | src/index.spec.js:25-30 | `value: undefined` is controlled and renders `value` as `undefined` |
| `Scenarios.UncontrolledChange` | src/index.spec.js:32-39 | `defaultValue: 'foo'` renders 'foo', and after a change with 'bar' renders 'bar' |
| `Scenarios.CheckboxChange` | src/index.js:11-16 | a change with an event from an `INPUT` of type `CheckBox` sets the value to the box's `checked` flag |
| `Scenarios.FalsyDefaultKept` | src/index.spec.js:41-45 | `defaultValue: ''` renders '' |
| `Scenarios.ControlledWithDefaultRefused` | src/index.spec.js:47-51 | `defaultValue` with `value` is refused at construction |
| `Scenarios.BecomingControlledRefused` | src/index.spec.js:53-61 | adding `value` to an uncontrolled instance is refused |
| `Scenarios.DefaultChangeRefused` | src/index.spec.js:74-82 | changing `defaultValue` is refused |
| `Scenarios.Setter` | src/index.spec.js:84-112 | in uncontrolled mode the setter's value is read back and rendered; in controlled mode the setter is refused |
| `Scenarios.ControlledForwardsUndefinedDefault` | src/index.js:64-67 | with the checks on, a controlled instance accepts `defaultValue: undefined` in new props and passes the key to the wrapped input |

## Left out

- The React machinery is not modelled: `createElement`, `PureComponent` re-rendering and the lifecycle.
  `render` is a function from the instance to the property bag it would hand over.
- `setState` is an immediate assignment, without asynchrony or batching.
- Adopting new props is part of `ReceiveProps`. React does this after `componentWillReceiveProps`
  returns.
- The wrapped input's own use of `onChange` is simplified. In controlled mode it calls the owner's handler
  directly; `Dispatch` models that as leaving the adapter unchanged.
- The owner's handler is reduced to whether it calls `preventDefault()`. Its other effects are not
  modelled, such as mutating the event's target before normalisation or updating the props during the call.
- Values are limited to `undefined`, `null`, booleans, integers, strings, functions known by an identity,
  the adapter's own handler, and event-like objects. Event objects compare structurally, whereas
  JavaScript's `!==` compares object identity. Numbers are integers, so `NaN`, `-0` and fractions are not
  modelled.
- JsValues.Lower: folds only ASCII A-Z. JavaScript's `toLowerCase` also folds non-ASCII characters;
  for example the Kelvin sign lower-cases to `k`, so full Unicode folding would also match "checkbox"
  spelled with it.
- A target that is truthy but not an element, a target whose `nodeName` is not a string, or an `input`
  target whose `type` is not a string is not modelled (JavaScript throws a `TypeError`). The `type` is
  read only for an `input` node, so any other node may lack it.
- Error message texts and `this.constructor.name` are left out; each error is a tag.
- The test at src/index.spec.js:64-72 is skipped in the source and is not used: its expected message is
  not the one the code path raises.
