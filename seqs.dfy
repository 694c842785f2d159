/** Facts about sequences used to describe the key order of Python dicts. */
module Seqs {

  predicate NoDuplicates<T(==,!new)>(s: seq<T>) {
    forall i, j | 0 <= i < j < |s| :: s[i] != s[j]
  }

  /** The distinct elements of `s`, each where it first occurs: the key order
      a dict ends up with when the elements of `s` are assigned to it one by one. */
  function Distinct<T(==,!new)>(s: seq<T>): (r: seq<T>)
    ensures NoDuplicates(r)
    ensures forall x :: x in r <==> x in s
    ensures |r| <= |s|
    decreases |s|
  {
    if s == [] then []
    else
      var init, last := s[..|s| - 1], s[|s| - 1];
      assert s == init + [last];
      var prefix := Distinct(init);
      if last in prefix then prefix else prefix + [last]
  }

  lemma {:induction false} DistinctSnoc<T(!new)>(s: seq<T>, x: T)
    ensures Distinct(s + [x]) == if x in s then Distinct(s) else Distinct(s) + [x]
  {
    var t := s + [x];
    assert t[..|t| - 1] == s;
  }

  /** `DistinctSnoc` for a prefix that grows by one element. */
  lemma DistinctPrefix<T(!new)>(s: seq<T>, n: nat)
    requires 0 < n <= |s|
    ensures Distinct(s[..n]) ==
      if s[n - 1] in s[..n - 1] then Distinct(s[..n - 1]) else Distinct(s[..n - 1]) + [s[n - 1]]
  {
    var t := s[..n];
    assert t[..|t| - 1] == s[..n - 1];
  }

  lemma {:induction false} DistinctOfNoDuplicates<T(!new)>(s: seq<T>)
    requires NoDuplicates(s)
    ensures Distinct(s) == s
  {
    if s != [] {
      var init := s[..|s| - 1];
      DistinctOfNoDuplicates(init);
      assert s[|s| - 1] !in init;
      assert init + [s[|s| - 1]] == s;
    }
  }

  /** Position of the first occurrence of `x` in `s`. */
  function FirstIndex<T(==,!new)>(s: seq<T>, x: T): (i: nat)
    requires x in s
    ensures i < |s| && s[i] == x && x !in s[..i]
  {
    if s[0] == x then 0
    else
      assert s == [s[0]] + s[1..];
      var j := FirstIndex(s[1..], x);
      assert s[..j + 1] == [s[0]] + s[1..][..j];
      1 + j
  }

  /** Position of the last occurrence of `x` in `s`. */
  function LastIndex<T(==,!new)>(s: seq<T>, x: T): (i: nat)
    requires x in s
    ensures i < |s| && s[i] == x && x !in s[i + 1..]
    decreases |s|
  {
    var init := s[..|s| - 1];
    if s[|s| - 1] == x then |s| - 1
    else
      assert s == init + [s[|s| - 1]];
      var j := LastIndex(init, x);
      assert s[j + 1..] == init[j + 1..] + [s[|s| - 1]];
      j
  }

  lemma FirstIndexUnique<T(!new)>(s: seq<T>, x: T, i: nat)
    requires i < |s| && s[i] == x && x !in s[..i]
    ensures FirstIndex(s, x) == i
  {
  }

  /** Every element of `r` occurs in `s`, and `r` lists them in the order
      in which they first appear in `s`. */
  predicate InFirstOccurrenceOrder<T(==,!new)>(r: seq<T>, s: seq<T>) {
    && (forall x | x in r :: x in s)
    && forall i, j | 0 <= i < j < |r| :: r[i] in s && r[j] in s && FirstIndex(s, r[i]) < FirstIndex(s, r[j])
  }

  lemma {:induction false} DistinctInFirstOccurrenceOrder<T(!new)>(s: seq<T>)
    ensures InFirstOccurrenceOrder(Distinct(s), s)
  {
    if s != [] {
      var init, last := s[..|s| - 1], s[|s| - 1];
      assert s == init + [last];
      DistinctInFirstOccurrenceOrder(init);
      var prefix := Distinct(init);
      forall x | x in init ensures FirstIndex(s, x) == FirstIndex(init, x) {
        var k := FirstIndex(init, x);
        assert s[..k] == init[..k];
        FirstIndexUnique(s, x, k);
      }
      if last !in prefix {
        assert s[..|init|] == init;
        FirstIndexUnique(s, last, |init|);
        var r := prefix + [last];
        forall i, j | 0 <= i < j < |r|
          ensures r[i] in s && r[j] in s && FirstIndex(s, r[i]) < FirstIndex(s, r[j])
        {
          assert r[i] == prefix[i] && r[i] in init;
          if j < |prefix| {
            assert r[j] == prefix[j];
          }
        }
      }
    }
  }

  lemma OrderedPrefix<T(!new)>(r: seq<T>, s: seq<T>, k: nat)
    requires InFirstOccurrenceOrder(r, s) && k <= |r|
    ensures InFirstOccurrenceOrder(r[..k], s)
  {
    assert forall i | 0 <= i < k :: r[..k][i] == r[i];
  }

  lemma OrderedSnoc<T(!new)>(r: seq<T>, x: T, s: seq<T>)
    requires InFirstOccurrenceOrder(r, s) && x in s
    requires forall y | y in r :: y in s && FirstIndex(s, y) < FirstIndex(s, x)
    ensures InFirstOccurrenceOrder(r + [x], s)
  {
    var t := r + [x];
    forall i, j | 0 <= i < j < |t|
      ensures t[i] in s && t[j] in s && FirstIndex(s, t[i]) < FirstIndex(s, t[j])
    {
      assert t[i] == r[i];
      if j < |r| {
        assert t[j] == r[j];
      }
    }
  }
}
