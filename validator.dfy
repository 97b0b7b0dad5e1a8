/** The alphabet checks used by configuration validation. */
module Validator {
  import opened Text

  /** Whether some element is longer than one byte; the scan stops at the
      first such element. */
  function HasElementWithLengthGreaterThanOne(s: seq<string>): (b: bool)
    ensures b <==> exists i :: 0 <= i < |s| && ByteLen(s[i]) > 1
  {
    if s == [] then false
    else if ByteLen(s[0]) > 1 then true
    else
      var b := HasElementWithLengthGreaterThanOne(s[1..]);
      assert forall i :: 1 <= i < |s| ==> s[i] == s[1..][i - 1];
      b
  }

  /** An alphabet made only of empty strings and single ASCII characters
      passes the check, and any other single character fails it. */
  lemma {:induction false} ShortElementsPass(s: seq<string>)
    ensures !HasElementWithLengthGreaterThanOne(s)
            <==> forall i :: 0 <= i < |s| ==> s[i] == [] || (|s[i]| == 1 && (s[i][0] as int) < 0x80)
  {
    forall i | 0 <= i < |s| {
      ByteLenAtMostOne(s[i]);
    }
  }

  /** Whether `e` occurs in `s`; the scan stops at the first match. */
  function IsElementInSlice<T(==)>(s: seq<T>, e: T): (b: bool)
    ensures b <==> exists i :: 0 <= i < |s| && s[i] == e
  {
    if s == [] then false
    else if s[0] == e then true
    else
      var b := IsElementInSlice(s[1..], e);
      assert forall i :: 1 <= i < |s| ==> s[i] == s[1..][i - 1];
      b
  }
}
