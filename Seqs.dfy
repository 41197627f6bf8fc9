/** Array operations the screens use, on sequences: `slice(-k)`, `reverse()`
    and de-duplication through a `Set`. */
module Seqs {
  import opened Numbers

  /** `s.slice(-k)` for `k > 0`: the last `min(k, |s|)` elements, in order. */
  function TakeLast<T>(s: seq<T>, k: nat): (r: seq<T>)
    requires k > 0
    ensures |r| == Min(k, |s|)
    ensures forall j :: 0 <= j < |r| ==> r[j] == s[|s| - |r| + j]
  {
    s[|s| - Min(k, |s|)..]
  }

  /** `s.reverse()` on a copy. */
  function Reverse<T>(s: seq<T>): (r: seq<T>)
    ensures |r| == |s|
    ensures forall k :: 0 <= k < |s| ==> r[k] == s[|s| - 1 - k]
  {
    if s == [] then [] else [s[|s| - 1]] + Reverse(s[..|s| - 1])
  }

  predicate NoDuplicates<T(==)>(s: seq<T>)
  {
    forall i, j :: 0 <= i < j < |s| ==> s[i] != s[j]
  }

  /** The elements of `r` come in the order of their first occurrences in `s`:
      wherever `s` holds a later element of `r`, an earlier one has already occurred. */
  predicate InFirstOccurrenceOrder<T(==)>(r: seq<T>, s: seq<T>)
  {
    forall i, j, p :: 0 <= i < j < |r| && 0 <= p < |s| && s[p] == r[j] ==> r[i] in s[..p]
  }

  /** `[...new Set(s)]`: the distinct elements of `s`, each where it first
      occurs (`DedupFirstOccurrenceOrder`). */
  function Dedup<T(==,!new)>(s: seq<T>): (r: seq<T>)
    ensures NoDuplicates(r)
    ensures forall x :: x in r <==> x in s
    ensures NoDuplicates(s) ==> r == s
  {
    if s == [] then []
    else
      var init := s[..|s| - 1];
      var d := Dedup(init);
      assert s == init + [s[|s| - 1]];
      if s[|s| - 1] in d then d else d + [s[|s| - 1]]
  }

  /** The distinct elements come in the order in which `s` first holds them,
      as a `Set` keeps its insertion order. */
  lemma {:induction false} DedupFirstOccurrenceOrder<T(!new)>(s: seq<T>)
    ensures InFirstOccurrenceOrder(Dedup(s), s)
  {
    if s != [] {
      var init := s[..|s| - 1];
      var y := s[|s| - 1];
      var d := Dedup(init);
      DedupFirstOccurrenceOrder(init);
      assert s == init + [y];
      assert forall p :: 0 <= p < |init| ==> s[..p] == init[..p];
      var r := Dedup(s);
      assert r == if y in d then d else d + [y];
      forall i, j, p | 0 <= i < j < |r| && 0 <= p < |s| && s[p] == r[j]
        ensures r[i] in s[..p]
      {
        if p == |init| {
          assert r[i] in d && s[..p] == init;
        } else {
          assert r[j] == d[j] && init[p] == d[j];
        }
      }
    }
  }

  /** Adding an element to a sequence without repeats keeps it, or appends it once. */
  lemma DedupAppend<T(!new)>(s: seq<T>, x: T)
    ensures NoDuplicates(s) ==> Dedup(s + [x]) == if x in s then s else s + [x]
  {
    assert (s + [x])[..|s + [x]| - 1] == s;
  }
}
