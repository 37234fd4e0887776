/**
 * The two list shapes the tracker builds: a list comprehension with a
 * condition (keep the elements a test accepts, in order) and a walk over a
 * list that builds one value per position.
 */
module Sequences {

  /** The elements of `s` that `keep` accepts, in their original order. */
  function Filter<T>(s: seq<T>, keep: T -> bool): (r: seq<T>)
    ensures |r| <= |s|
  {
    if s == [] then []
    else
      var last := s[|s| - 1];
      Filter(s[..|s| - 1], keep) + (if keep(last) then [last] else [])
  }

  /** Filtering one more element appends it exactly when it is accepted. */
  lemma FilterSnoc<T>(s: seq<T>, x: T, keep: T -> bool)
    ensures Filter(s + [x], keep) == Filter(s, keep) + (if keep(x) then [x] else [])
  {
    assert (s + [x])[..|s|] == s;
  }

  /** Filtering a concatenation filters each part and keeps their order. */
  lemma {:induction false} FilterConcat<T>(a: seq<T>, b: seq<T>, keep: T -> bool)
    ensures Filter(a + b, keep) == Filter(a, keep) + Filter(b, keep)
  {
    if b == [] {
      assert a + b == a;
    } else {
      var init, last := b[..|b| - 1], b[|b| - 1];
      assert a + b == (a + init) + [last];
      FilterSnoc(a + init, last, keep);
      FilterConcat(a, init, keep);
      assert b == init + [last];
      FilterSnoc(init, last, keep);
    }
  }

  /** Everything the filter keeps comes from `s` and is accepted. */
  lemma {:induction false} FilterSound<T>(s: seq<T>, keep: T -> bool, k: int)
    requires 0 <= k < |Filter(s, keep)|
    ensures Filter(s, keep)[k] in s && keep(Filter(s, keep)[k])
  {
    var init := s[..|s| - 1];
    if k < |Filter(init, keep)| {
      FilterSound(init, keep, k);
      var j :| 0 <= j < |init| && init[j] == Filter(init, keep)[k];
      assert s[j] == init[j];
    }
  }

  /** Nothing accepted is lost. */
  lemma {:induction false} FilterComplete<T>(s: seq<T>, keep: T -> bool, i: int)
    requires 0 <= i < |s| && keep(s[i])
    ensures s[i] in Filter(s, keep)
  {
    var init := s[..|s| - 1];
    if i < |s| - 1 {
      assert init[i] == s[i];
      FilterComplete(init, keep, i);
    }
  }

  /** `[f(s[0], 0), f(s[1], 1), ...]`. */
  function MapIndexed<A, B>(s: seq<A>, f: (A, nat) -> B): (r: seq<B>)
    ensures |r| == |s|
  {
    if s == [] then []
    else
      var i := |s| - 1;
      MapIndexed(s[..i], f) + [f(s[i], i)]
  }

  /** Position `j` of the result is `f` applied to position `j` of `s`. */
  lemma {:induction false} MapIndexedAt<A, B>(s: seq<A>, f: (A, nat) -> B, j: int)
    requires 0 <= j < |s|
    ensures MapIndexed(s, f)[j] == f(s[j], j)
  {
    var i := |s| - 1;
    if j < i {
      MapIndexedAt(s[..i], f, j);
    }
  }

  /** Mapping one more position appends its image. */
  lemma MapIndexedSnoc<A, B>(s: seq<A>, i: nat, f: (A, nat) -> B)
    requires i < |s|
    ensures MapIndexed(s[..i + 1], f) == MapIndexed(s[..i], f) + [f(s[i], i)]
  {
    assert s[..i + 1][..i] == s[..i];
  }

  /**
   * One step of a loop that walks `s`, maps each position with `f` and
   * appends the image to a list when `keep` accepts it.
   */
  lemma FilterMapStep<A, B>(start: seq<B>, acc: seq<B>, s: seq<A>, i: nat, f: (A, nat) -> B, keep: B -> bool, x: B)
    requires i < |s| && x == f(s[i], i)
    requires acc == start + Filter(MapIndexed(s[..i], f), keep)
    ensures (if keep(x) then acc + [x] else acc) == start + Filter(MapIndexed(s[..i + 1], f), keep)
  {
    var before := MapIndexed(s[..i], f);
    MapIndexedSnoc(s, i, f);
    FilterSnoc(before, x, keep);
    if keep(x) {
      assert acc + [x] == start + (Filter(before, keep) + [x]);
    }
  }
}
