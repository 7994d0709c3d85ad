/** Small string facts the handlers rely on: `startsWith` and the position
    of the first occurrence of a character. */
module Strings {
  import opened Wrappers

  /** `s.startsWith(prefix)`. */
  predicate StartsWith(s: string, prefix: string) {
    |prefix| <= |s| && s[..|prefix|] == prefix
  }

  /** The index of the first `c` in `s`, if any (`s.indexOf(c)`). */
  function FirstIndex(s: string, c: char): (r: Option<nat>)
    ensures r.Some? ==> r.value < |s| && s[r.value] == c && c !in s[..r.value]
    ensures r.None? ==> c !in s
  {
    if s == [] then None
    else if s[0] == c then Some(0)
    else match FirstIndex(s[1..], c)
      case None => None
      case Some(i) =>
        assert s[..i + 1] == [s[0]] + s[1..][..i];
        Some(i + 1)
  }

  lemma {:induction false} FirstIndexAfter(head: string, c: char, tail: string)
    requires c !in head
    ensures FirstIndex(head + [c] + tail, c) == Some(|head|)
  {
    if head != [] {
      assert (head + [c] + tail)[1..] == head[1..] + [c] + tail;
      FirstIndexAfter(head[1..], c, tail);
    }
  }
}
