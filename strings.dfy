/**
 * Substring search, standing in for JavaScript's String.prototype.includes.
 * `Occurs` is the specification (there is a position where `sub` starts),
 * `Includes` the executable left-to-right search proved against it.
 */
module Strings {

  /** `sub` starts at position `i` of `s`. */
  ghost predicate OccursAt(s: string, sub: string, i: int) {
    0 <= i <= |s| - |sub| && s[i..i + |sub|] == sub
  }

  /** `sub` occurs somewhere in `s` (the empty string occurs in every string). */
  ghost predicate Occurs(s: string, sub: string) {
    exists i :: OccursAt(s, sub, i)
  }

  /** `s.includes(sub)`: tries every start position from the left. */
  function Includes(s: string, sub: string): (r: bool)
    ensures r <==> Occurs(s, sub)
    decreases |s|
  {
    if |sub| > |s| then
      assert forall i :: !OccursAt(s, sub, i);
      false
    else if s[..|sub|] == sub then
      assert OccursAt(s, sub, 0);
      true
    else
      var r := Includes(s[1..], sub);
      assert r ==> Occurs(s, sub) by {
        if r {
          var i :| OccursAt(s[1..], sub, i);
          assert s[i + 1..i + 1 + |sub|] == s[1..][i..i + |sub|];
          assert OccursAt(s, sub, i + 1);
        }
      }
      assert Occurs(s, sub) ==> r by {
        if Occurs(s, sub) {
          var i :| OccursAt(s, sub, i);
          assert i != 0;
          assert s[1..][i - 1..i - 1 + |sub|] == s[i..i + |sub|];
          assert OccursAt(s[1..], sub, i - 1);
        }
      }
      r
  }

  /** A string occurs in any text that embeds it, whatever surrounds it. */
  lemma OccursInContext(before: string, sub: string, after: string)
    ensures Occurs(before + sub + after, sub)
  {
    var t := before + sub + after;
    assert t[|before|..|before| + |sub|] == sub;
    assert OccursAt(t, sub, |before|);
  }
}
