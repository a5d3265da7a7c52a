/** Values shared by the whole model: optional values and the two kinds of
    second-step token (the one stored on a user record and the one held in a
    session). */
module Tokens {

  /** `nil` or a value, as Ruby attributes and session entries are. */
  datatype Option<T> = None | Some(value: T)

  /** A character matched by the POSIX class `[[:space:]]` on a Unicode
      string: the characters with the Unicode White_Space property. */
  predicate IsSpace(c: char)
  {
    ('\t' <= c <= '\r') || c == ' ' || c == '\U{0085}' || c == '\U{00A0}'
    || c == '\U{1680}' || ('\U{2000}' <= c <= '\U{200A}') || c == '\U{2028}'
    || c == '\U{2029}' || c == '\U{202F}' || c == '\U{205F}' || c == '\U{3000}'
  }

  /** Ruby's `String#blank?`: empty or made only of white space. */
  predicate Blank(s: string)
  {
    s == [] || (IsSpace(s[0]) && Blank(s[1..]))
  }

  /** The attribute query `second_step_token?` of a string column: false for
      `nil` and for a blank string, true otherwise. */
  predicate Present(t: Option<string>)
    // nil is not present, and neither is the empty string
    ensures t.None? ==> !Present(t)
    ensures Present(t) ==> t.Some? && |t.value| > 0
  {
    t.Some? && !Blank(t.value)
  }

  /** `Blank` is the `[[:space:]]*` reading of `String#blank?`: every
      character is white space. */
  lemma {:induction false} BlankIffAllSpace(s: string)
    ensures Blank(s) <==> forall i :: 0 <= i < |s| ==> IsSpace(s[i])
  {
    if s != [] {
      BlankIffAllSpace(s[1..]);
      assert forall i :: 1 <= i < |s| ==> s[i] == s[1..][i - 1];
    }
  }

  /** A token is present exactly when it is not `nil` and holds at least
      one character that is not white space. */
  lemma PresentIffSomeNonSpace(t: Option<string>)
    ensures Present(t) <==> t.Some? && exists i :: 0 <= i < |t.value| && !IsSpace(t.value[i])
  {
    if t.Some? {
      BlankIffAllSpace(t.value);
    }
  }

  /** What `SecureRandom.uuid` hands back, as far as this model needs it:
      some string that is not blank. Its format and uniqueness are not
      modelled. */
  type Uuid = s: string | !Blank(s) witness "0"
}
