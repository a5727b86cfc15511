/**
  Small pieces of JavaScript value semantics shared by the modules of this
  model: optional values, the truthiness of an optional string, and the
  substring test performed by `String.prototype.includes`.
 */
module JsValues {

  /** A value that may be `undefined`. */
  datatype Option<+T> = None | Some(value: T)

  /** `!!s` for a value of type `string | undefined`: only a present, non-empty string is truthy. */
  predicate Truthy(s: Option<string>)
  {
    s.Some? && s.value != ""
  }

  /** `needle` occurs in `haystack` starting at offset `i`. */
  predicate OccursAt(haystack: string, needle: string, i: nat)
  {
    i + |needle| <= |haystack| && haystack[i..i + |needle|] == needle
  }

  /** `haystack.includes(needle)`: `needle` occurs at some offset of `haystack`. */
  predicate Includes(haystack: string, needle: string)
  {
    exists i: nat | i <= |haystack| :: OccursAt(haystack, needle, i)
  }

  /** A string includes itself. */
  lemma IncludesSelf(s: string)
    ensures Includes(s, s)
  {
    assert OccursAt(s, s, 0);
  }

  /** Between strings of equal length, `includes` is equality. */
  lemma IncludesSameLength(haystack: string, needle: string)
    requires |haystack| == |needle|
    ensures Includes(haystack, needle) <==> haystack == needle
  {
    if haystack == needle {
      IncludesSelf(haystack);
    }
    if Includes(haystack, needle) {
      var i: nat :| i <= |haystack| && OccursAt(haystack, needle, i);
      assert i == 0;
      assert haystack[0..|haystack|] == haystack;
    }
  }
}
