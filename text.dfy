/** The few `java.lang.String` operations the pipeline relies on. */
module Text {
  import opened Common

  /** `pat` occurs in `s` starting at index `i`. */
  predicate OccursAt(s: string, pat: string, i: nat) {
    i + |pat| <= |s| && s[i..i + |pat|] == pat
  }

  /** `String.indexOf(pat, from)`: the first index at or after `from` where `pat` occurs, or -1. */
  function IndexFrom(s: string, pat: string, from: nat): (r: int)
    requires from <= |s|
    ensures r == -1 || (from <= r <= |s| && OccursAt(s, pat, r))
    ensures forall i :: from <= i <= |s| && (r == -1 || i < r) ==> !OccursAt(s, pat, i)
    decreases |s| - from
  {
    if OccursAt(s, pat, from) then from
    else if from == |s| then -1
    else IndexFrom(s, pat, from + 1)
  }

  /** `String.indexOf(pat)`: the first index where `pat` occurs, or -1 when it does not occur. */
  function IndexOf(s: string, pat: string): (r: int)
    ensures r == -1 || (0 <= r <= |s| && OccursAt(s, pat, r))
    ensures forall i :: 0 <= i <= |s| && (r == -1 || i < r) ==> !OccursAt(s, pat, i)
  {
    IndexFrom(s, pat, 0)
  }

  /** `String.contains(pat)`, which Java defines as `indexOf(pat) >= 0`. */
  predicate Contains(s: string, pat: string) {
    IndexOf(s, pat) >= 0
  }

  /** `String.trim()` removes every character at or below U+0020 from both ends. */
  predicate IsTrimmed(c: char) {
    c <= ' '
  }

  /** Number of leading characters `trim` removes. */
  function LeadingTrimmed(s: string): (n: nat)
    ensures n <= |s|
    ensures forall k :: 0 <= k < n ==> IsTrimmed(s[k])
    ensures n < |s| ==> !IsTrimmed(s[n])
  {
    if s == [] || !IsTrimmed(s[0]) then 0 else 1 + LeadingTrimmed(s[1..])
  }

  /** Length of `s` once `trim` has removed the trailing characters. */
  function TrailingEnd(s: string): (n: nat)
    ensures n <= |s|
    ensures forall k :: n <= k < |s| ==> IsTrimmed(s[k])
    ensures n > 0 ==> !IsTrimmed(s[n - 1])
  {
    if s == [] || !IsTrimmed(s[|s| - 1]) then |s| else TrailingEnd(s[..|s| - 1])
  }

  /**
    * `r` is `s` from index `st` on, with only characters that `trim` removes
    * before and after it.
    */
  predicate TrimsTo(s: string, st: nat, r: string) {
    && st + |r| <= |s| && r == s[st..st + |r|]
    && (forall k :: 0 <= k < st ==> IsTrimmed(s[k]))
    && (forall k :: st + |r| <= k < |s| ==> IsTrimmed(s[k]))
  }

  /** `String.trim()`. */
  function Trim(s: string): (r: string)
    ensures r != [] ==> !IsTrimmed(r[0]) && !IsTrimmed(r[|r| - 1])
  {
    var st := LeadingTrimmed(s);
    var end := TrailingEnd(s);
    if st < end then s[st..end] else ""
  }

  /**
    * `trim` returns the infix of `s` left once the runs of characters at or
    * below U+0020 are removed from both ends, all of them, since neither end
    * of the result is such a character.
    */
  lemma TrimIsInfix(s: string)
    ensures exists st :: TrimsTo(s, st, Trim(s))
  {
    var st := LeadingTrimmed(s);
    var end := TrailingEnd(s);
    if st < end {
      assert Trim(s) == s[st..end] && TrimsTo(s, st, s[st..end]);
    } else {
      // s[st] would survive the trailing scan, so nothing is left past st
      assert st == |s|;
      assert Trim(s) == "" && TrimsTo(s, |s|, "");
    }
  }

  /**
    * `text == null || text.trim().isEmpty()`: the guard that makes `translate`
    * answer "" without a network call.
    */
  predicate IsBlank(text: Option<string>) {
    text.None? || Trim(text.value) == ""
  }

  /** Blank means: absent, or made only of characters that `trim` removes. */
  lemma {:induction false} BlankIffAllTrimmed(text: Option<string>)
    ensures IsBlank(text) <==> (text.None? || forall k :: 0 <= k < |text.value| ==> IsTrimmed(text.value[k]))
  {
    if text.Some? {
      var s := text.value;
      var st, end := LeadingTrimmed(s), TrailingEnd(s);
      if st < |s| {
        // s[st] survives the leading scan, so the trailing scan stops after it
        assert !IsTrimmed(s[st]);
        assert st < end;
      }
    }
  }
}
