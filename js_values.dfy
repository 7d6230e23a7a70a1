/**
 * The slice of JavaScript's value domain that the adapter touches: the values
 * that can sit in a property bag or be handed to a change handler, their
 * truthiness, and `String.prototype.toLowerCase` on ASCII letters.
 */
module JsValues {
  import opened Wrappers

  /** A JavaScript value as it can appear in a property bag or be passed to `onChange`. */
  datatype Value =
    | Undefined
    | Null
    | Bool(b: bool)
    | Num(n: int)
    | Str(s: string)
      // a function supplied by the owner, known by its identity
    | Fn(id: nat)
      // the adapter's own change handler (its `_onChange`)
    | ChangeHandler
      // an event-like object; `target` is None when the property is missing or falsy
    | Event(target: Option<Target>, defaultPrevented: bool)

  /** The `target` of an event, the element that changed; `kind` is its `type` property. */
  datatype Target = Target(nodeName: string, kind: string, checked: Value, value: Value)

  /** JavaScript falsiness: `undefined`, `null`, `false`, `0` and `''`. Objects and functions are truthy. */
  predicate IsFalsy(v: Value) {
    match v
    case Undefined => true
    case Null => true
    case Bool(b) => !b
    case Num(n) => n == 0
    case Str(s) => s == ""
    case _ => false
  }

  /** The values that can be called. */
  predicate IsCallable(v: Value) {
    v.Fn? || v.ChangeHandler?
  }

  /** A property bag: property names to values. */
  type Props = map<string, Value>

  /** `props[key]` in JavaScript: a missing key reads as `undefined`. */
  function Get(props: Props, key: string): Value {
    if key in props then props[key] else Undefined
  }

  function LowerChar(c: char): char {
    if 'A' <= c <= 'Z' then (c as int + 32) as char else c
  }

  function UpperChar(c: char): char {
    if 'a' <= c <= 'z' then (c as int - 32) as char else c
  }

  /** `s.toLowerCase()`, folding the ASCII letters A-Z. */
  function Lower(s: string): string {
    seq(|s|, i requires 0 <= i < |s| => LowerChar(s[i]))
  }

  /** A word of lower-case ASCII letters, such as "input" or "checkbox". */
  predicate IsLowerWord(w: string) {
    forall i :: 0 <= i < |w| ==> 'a' <= w[i] <= 'z'
  }

  /** `s` spells the word `w` with each letter in either case. */
  ghost predicate EqualsIgnoringCase(s: string, w: string) {
    |s| == |w| && forall i :: 0 <= i < |s| ==> s[i] == w[i] || s[i] == UpperChar(w[i])
  }

  /** Comparing `s.toLowerCase()` with a lower-case word is a case-insensitive comparison. */
  lemma LowerEqualsWord(s: string, w: string)
    requires IsLowerWord(w)
    ensures Lower(s) == w <==> EqualsIgnoringCase(s, w)
  {
    if Lower(s) == w {
      forall i | 0 <= i < |s| ensures s[i] == w[i] || s[i] == UpperChar(w[i]) {
        assert LowerChar(s[i]) == w[i];
      }
    }
    if EqualsIgnoringCase(s, w) {
      forall i | 0 <= i < |s| ensures Lower(s)[i] == w[i] {
        assert 'a' <= w[i] <= 'z';
      }
    }
  }
}
