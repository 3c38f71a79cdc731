/** Rust's `str::contains` with a string pattern: substring search. */
module Text {

  /** `sub` occurs in `s` starting at index `i`. */
  predicate OccursAt(s: string, sub: string, i: nat) {
    i + |sub| <= |s| && s[i..i + |sub|] == sub
  }

  /** Reference definition: some index where `sub` starts. */
  ghost predicate HasOccurrence(s: string, sub: string) {
    exists i: nat :: OccursAt(s, sub, i)
  }

  /** `s.contains(sub)`, scanning from the left; it agrees with the reference definition. */
  function Contains(s: string, sub: string): (r: bool)
    ensures r <==> HasOccurrence(s, sub)
    decreases |s|
  {
    if |sub| <= |s| && s[..|sub|] == sub then
      assert OccursAt(s, sub, 0);
      true
    else if |s| <= |sub| then
      NoRoomNoOccurrence(s, sub);
      false
    else
      OccurrenceInTail(s, sub);
      Contains(s[1..], sub)
  }

  /** A string no longer than the pattern, and not starting with it, does not contain it. */
  lemma NoRoomNoOccurrence(s: string, sub: string)
    requires |s| <= |sub| && !(|sub| <= |s| && s[..|sub|] == sub)
    ensures !HasOccurrence(s, sub)
  {
    forall i: nat ensures !OccursAt(s, sub, i) {
      if i + |sub| <= |s| {
        assert s[i..i + |sub|] == s[..|sub|];
      }
    }
  }

  /** When the pattern is not at the front, it occurs in `s` exactly when it occurs in the tail. */
  lemma OccurrenceInTail(s: string, sub: string)
    requires |s| > |sub| && s[..|sub|] != sub
    ensures HasOccurrence(s, sub) <==> HasOccurrence(s[1..], sub)
  {
    if HasOccurrence(s, sub) {
      var i: nat :| OccursAt(s, sub, i);
      assert i != 0;
      assert s[1..][i - 1..i - 1 + |sub|] == s[i..i + |sub|];
      assert OccursAt(s[1..], sub, i - 1);
    }
    if HasOccurrence(s[1..], sub) {
      var i: nat :| OccursAt(s[1..], sub, i);
      assert s[1..][i..i + |sub|] == s[i + 1..i + 1 + |sub|];
      assert OccursAt(s, sub, i + 1);
    }
  }

  /** A pattern occurring inside a longer string is found, whatever surrounds it. */
  lemma ContainsInContext(prefix: string, sub: string, suffix: string)
    ensures Contains(prefix + sub + suffix, sub)
  {
    var s := prefix + sub + suffix;
    assert s[|prefix|..|prefix| + |sub|] == sub;
    assert OccursAt(s, sub, |prefix|);
  }
}
