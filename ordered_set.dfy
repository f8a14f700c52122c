/**
 * The pending-action collection is a JavaScript `Set`: adding a value that
 * is already present changes nothing, and iteration visits the values in
 * the order they were first added. A sequence without duplicates, to which
 * new values are appended, has exactly that behaviour.
 */
module OrderedSet {

  ghost predicate NoDuplicates<T>(s: seq<T>)
  {
    forall i, j :: 0 <= i < j < |s| ==> s[i] != s[j]
  }

  /** `set.add(x)`. */
  function Add<T(==,!new)>(s: seq<T>, x: T): (r: seq<T>)
    ensures forall y :: y in r <==> y in s || y == x
    ensures s <= r
    ensures x in s ==> r == s
    ensures NoDuplicates(s) ==> NoDuplicates(r)
  {
    if x in s then s else s + [x]
  }

  /**
   * The values a run of `set.add` calls over `xs` adds to a set holding `s`:
   * every position of `xs` whose value is neither in `s` nor at an earlier
   * position of `xs`, kept in the order of `xs`.
   */
  function FirstOccurrences<T(==)>(xs: seq<T>, s: seq<T>): seq<T>
    decreases |xs|
  {
    if xs == [] then []
    else
      var init, last := xs[..|xs| - 1], xs[|xs| - 1];
      FirstOccurrences(init, s) + (if last in s || last in init then [] else [last])
  }

  lemma {:induction false} FirstOccurrencesMembers<T(!new)>(xs: seq<T>, s: seq<T>)
    ensures forall y :: y in FirstOccurrences(xs, s) <==> y in xs && y !in s
    decreases |xs|
  {
    if xs != [] {
      var init := xs[..|xs| - 1];
      assert xs == init + [xs[|xs| - 1]];
      FirstOccurrencesMembers(init, s);
    }
  }

  /**
   * A run of `set.add` calls, one per element of `xs`, in order: the set
   * gains the new values of `xs` after its old ones, each at the place of
   * its first occurrence in `xs`.
   */
  function AddAll<T(==,!new)>(s: seq<T>, xs: seq<T>): (r: seq<T>)
    ensures forall y :: y in r <==> y in s || y in xs
    ensures r == s + FirstOccurrences(xs, s)
    ensures NoDuplicates(s) ==> NoDuplicates(r)
    decreases |xs|
  {
    if xs == [] then s
    else
      var init := xs[..|xs| - 1];
      assert xs == init + [xs[|xs| - 1]];
      FirstOccurrencesMembers(init, s);
      Add(AddAll(s, init), xs[|xs| - 1])
  }

  /** Re-adding a value later leaves it at the place of its first addition. */
  lemma RepeatKeepsFirstPlace<T(!new)>(a: T, b: T)
    requires a != b
    ensures AddAll([], [a, b, a]) == [a, b]
  {
    var none: seq<T> := [];
    assert [a][..0] == none;
    assert FirstOccurrences([a], none) == [a];
    assert [a, b][..1] == [a];
    assert FirstOccurrences([a, b], none) == [a, b];
    assert [a, b, a][..2] == [a, b];
    assert FirstOccurrences([a, b, a], none) == [a, b];
  }

  /** Adding the same value twice in a row is the same as adding it once. */
  lemma AddIdempotent<T(!new)>(s: seq<T>, x: T)
    ensures Add(Add(s, x), x) == Add(s, x)
  {
  }

  /** A value occurs at most once in a sequence without duplicates. */
  lemma {:induction false} CountWithoutDuplicates<T>(s: seq<T>, x: T)
    requires NoDuplicates(s)
    ensures multiset(s)[x] == if x in s then 1 else 0
  {
    if s != [] {
      assert s == [s[0]] + s[1..];
      assert NoDuplicates(s[1..]);
      assert s[0] !in s[1..];
      CountWithoutDuplicates(s[1..], x);
    }
  }
}
