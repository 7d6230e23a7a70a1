/**
 * Normalisation of change notifications: a change handler may be called with a
 * raw value or with an event whose target carries the value.
 */
module EventValue {
  import opened Wrappers
  import opened JsValues

  /** The event carries a truthy `target` to read the value from. */
  predicate HasTarget(event: Value) {
    !IsFalsy(event) && event.Event? && event.target.Some?
  }

  /** The target is an `<input type="checkbox">`, compared through `toLowerCase()`. */
  predicate IsCheckbox(t: Target) {
    Lower(t.nodeName) == "input" && Lower(t.kind) == "checkbox"
  }

  /**
   * `getEventValue`: an event without a usable target is returned as it is;
   * otherwise the target's `checked` flag for a checkbox and its `value` for
   * anything else.
   */
  function GetEventValue(event: Value): (r: Value)
    ensures !HasTarget(event) ==> r == event
    ensures HasTarget(event) ==> r == event.target.value.checked || r == event.target.value.value
    ensures HasTarget(event) && Lower(event.target.value.nodeName) != "input" ==> r == event.target.value.value
  {
    if !HasTarget(event) then event
    else
      var t := event.target.value;
      if IsCheckbox(t) then t.checked else t.value
  }

  /** What `getEventValue` returns, with the checkbox test read as a case-insensitive match. */
  lemma GetEventValueCases(event: Value)
    ensures IsFalsy(event) ==> GetEventValue(event) == event
    ensures !event.Event? || event.target.None? ==> GetEventValue(event) == event
    ensures event.Event? && event.target.Some? ==>
      var t := event.target.value;
      GetEventValue(event) ==
        if EqualsIgnoringCase(t.nodeName, "input") && EqualsIgnoringCase(t.kind, "checkbox")
        then t.checked else t.value
  {
    if event.Event? && event.target.Some? {
      var t := event.target.value;
      LowerEqualsWord(t.nodeName, "input");
      LowerEqualsWord(t.kind, "checkbox");
    }
  }
}
