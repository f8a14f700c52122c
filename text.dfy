/**
 * Substring search, as JavaScript's String.prototype.includes performs it:
 * `s.includes(sub)` holds when `sub` occurs in `s` at some position
 * (the empty string occurs everywhere).
 */
module Text {

  /** `sub` occurs in `s` starting at index `i`. */
  ghost predicate OccursAt(s: string, sub: string, i: int)
  {
    0 <= i && i + |sub| <= |s| && s[i..i + |sub|] == sub
  }

  /** An occurrence in the tail of `s` is an occurrence in `s` shifted by one, and back. */
  lemma OccursInTail(s: string, sub: string)
    requires |s| > 0
    ensures (exists j :: OccursAt(s[1..], sub, j)) <==> (exists i :: 1 <= i && OccursAt(s, sub, i))
  {
    if j :| OccursAt(s[1..], sub, j) {
      assert s[1..][j..j + |sub|] == s[j + 1..j + 1 + |sub|];
      assert OccursAt(s, sub, j + 1);
    }
    if i :| 1 <= i && OccursAt(s, sub, i) {
      assert s[1..][i - 1..i - 1 + |sub|] == s[i..i + |sub|];
      assert OccursAt(s[1..], sub, i - 1);
    }
  }

  /** `s.includes(sub)`: true exactly when `sub` occurs somewhere in `s`. */
  function Includes(s: string, sub: string): (r: bool)
    ensures r <==> exists i :: OccursAt(s, sub, i)
    decreases |s|
  {
    if |sub| > |s| then false
    else if s[..|sub|] == sub then
      assert OccursAt(s, sub, 0);
      true
    else
      assert !OccursAt(s, sub, 0);
      OccursInTail(s, sub);
      Includes(s[1..], sub)
  }

  /**
   * `s.some(p => url.includes(p))` over a list of patterns: true exactly
   * when at least one of the patterns occurs in `url`.
   */
  function SomeIncluded(url: string, patterns: seq<string>): (r: bool)
    ensures r <==> exists k :: 0 <= k < |patterns| && Includes(url, patterns[k])
  {
    if patterns == [] then false
    else if Includes(url, patterns[0]) then true
    else
      assert forall k :: 1 <= k < |patterns| ==> patterns[k] == patterns[1..][k - 1];
      SomeIncluded(url, patterns[1..])
  }
}
