/** Sequence helpers shared by the models: list filtering and
    first-occurrence de-duplication as the source's list comprehensions and
    `if x not in out: out.append(x)` loops compute them. */
module Seqs {

  predicate NoDup<T(==,!new)>(s: seq<T>) {
    forall i, j :: 0 <= i < j < |s| ==> s[i] != s[j]
  }

  /** `[x for x in s if p(x)]` / `s.filter(p)`. */
  function Filter<T(==,!new)>(s: seq<T>, p: T -> bool): (r: seq<T>)
    ensures |r| <= |s|
    ensures forall i :: 0 <= i < |r| ==> p(r[i])
    ensures forall x :: x in r <==> x in s && p(x)
  {
    if s == [] then []
    else if p(s[0]) then [s[0]] + Filter(s[1..], p)
    else Filter(s[1..], p)
  }

  lemma {:induction false} FilterAppend<T(!new)>(s: seq<T>, t: seq<T>, p: T -> bool)
    ensures Filter(s + t, p) == Filter(s, p) + Filter(t, p)
  {
    if s != [] {
      assert (s + t)[0] == s[0];
      assert (s + t)[1..] == s[1..] + t;
      FilterAppend(s[1..], t, p);
    } else {
      assert s + t == t;
    }
  }

  /** Filtering with a predicate that every element meets changes nothing. */
  lemma {:induction false} FilterAll<T(!new)>(s: seq<T>, p: T -> bool)
    requires forall i :: 0 <= i < |s| ==> p(s[i])
    ensures Filter(s, p) == s
  {
    if s != [] {
      FilterAll(s[1..], p);
    }
  }

  /** `[f(x) for x in s]` / `s.map(f)`. */
  function Map<T, U>(s: seq<T>, f: T -> U): (r: seq<U>)
    ensures |r| == |s|
    ensures forall i :: 0 <= i < |s| ==> r[i] == f(s[i])
  {
    if s == [] then [] else [f(s[0])] + Map(s[1..], f)
  }

  lemma {:induction false} MapAppend<T, U>(s: seq<T>, t: seq<T>, f: T -> U)
    ensures Map(s + t, f) == Map(s, f) + Map(t, f)
  {
    assert |Map(s + t, f)| == |Map(s, f) + Map(t, f)|;
    forall i | 0 <= i < |s + t| ensures Map(s + t, f)[i] == (Map(s, f) + Map(t, f))[i] {
      if i < |s| {
        assert (s + t)[i] == s[i];
      } else {
        assert (s + t)[i] == t[i - |s|];
      }
    }
  }

  /** Keep the first occurrence of each element, in order. */
  function Dedup<T(==,!new)>(s: seq<T>): (r: seq<T>)
    ensures NoDup(r)
    ensures forall x :: x in r <==> x in s
  {
    DedupFrom([], s)
  }

  /** The loop state of a first-occurrence de-duplication: `acc` already
      holds, then `s` is scanned. */
  function DedupFrom<T(==,!new)>(acc: seq<T>, s: seq<T>): (r: seq<T>)
    requires NoDup(acc)
    ensures NoDup(r)
    ensures forall x :: x in r <==> x in acc || x in s
    ensures |acc| <= |r| && r[..|acc|] == acc
    decreases |s|
  {
    if s == [] then acc
    else if s[0] in acc then DedupFrom(acc, s[1..])
    else DedupFrom(acc + [s[0]], s[1..])
  }

  lemma {:induction false} DedupFromSnoc<T(!new)>(acc: seq<T>, s: seq<T>, x: T)
    requires NoDup(acc)
    ensures DedupFrom(acc, s + [x]) ==
      if x in DedupFrom(acc, s) then DedupFrom(acc, s) else DedupFrom(acc, s) + [x]
    decreases |s|
  {
    if s == [] {
      assert [x][1..] == [];
    } else {
      assert (s + [x])[1..] == s[1..] + [x];
      if s[0] in acc {
        DedupFromSnoc(acc, s[1..], x);
      } else {
        DedupFromSnoc(acc + [s[0]], s[1..], x);
      }
    }
  }

  /** The element of `s` that first occurs at position `i` is in `Dedup(s)`
      before every element whose first occurrence is later. */
  ghost predicate FirstOccurrenceOrder<T(!new)>(s: seq<T>, r: seq<T>) {
    (forall i :: 0 <= i < |r| ==> r[i] in s) &&
    forall a, b :: 0 <= a < b < |r| ==> FirstIndex(s, r[a]) < FirstIndex(s, r[b])
  }

  function FirstIndex<T(==,!new)>(s: seq<T>, x: T): (k: nat)
    requires x in s
    ensures k < |s| && s[k] == x
    ensures forall j :: 0 <= j < k ==> s[j] != x
  {
    if s[0] == x then 0 else 1 + FirstIndex(s[1..], x)
  }

  /** `Dedup` keeps elements in the order of their first occurrence. */
  lemma {:induction false} DedupOrder<T(!new)>(s: seq<T>)
    ensures FirstOccurrenceOrder(s, Dedup(s))
  {
    if s != [] {
      var p := s[..|s| - 1];
      var x := s[|s| - 1];
      assert s == p + [x];
      DedupOrder(p);
      DedupFromSnoc([], p, x);
      DedupOrderStep(p, x);
    }
  }

  lemma DedupOrderStep<T(!new)>(p: seq<T>, x: T)
    requires FirstOccurrenceOrder(p, Dedup(p))
    requires Dedup(p + [x]) == if x in Dedup(p) then Dedup(p) else Dedup(p) + [x]
    ensures FirstOccurrenceOrder(p + [x], Dedup(p + [x]))
  {
    var s := p + [x];
    var dp := Dedup(p);
    var r := Dedup(s);
    forall y | y in p ensures FirstIndex(s, y) == FirstIndex(p, y) {
      FirstIndexPrefix(p, [x], y);
    }
    forall a, b | 0 <= a < b < |r| ensures FirstIndex(s, r[a]) < FirstIndex(s, r[b]) {
      if b < |dp| {
        assert r[a] == dp[a] && r[b] == dp[b];
        assert FirstIndex(s, dp[a]) == FirstIndex(p, dp[a]);
        assert FirstIndex(s, dp[b]) == FirstIndex(p, dp[b]);
      } else {
        assert x !in p && r[b] == x && r[a] == dp[a];
        assert FirstIndex(s, dp[a]) == FirstIndex(p, dp[a]);
        assert s[|p|] == x;
      }
    }
  }

  lemma {:induction false} FirstIndexPrefix<T(!new)>(p: seq<T>, t: seq<T>, y: T)
    requires y in p
    ensures FirstIndex(p + t, y) == FirstIndex(p, y)
  {
    if p[0] != y {
      assert (p + t)[1..] == p[1..] + t;
      FirstIndexPrefix(p[1..], t, y);
    }
  }

  /** `[item for item in s if item != x]`. */
  function RemoveAll<T(==,!new)>(s: seq<T>, x: T): (r: seq<T>)
    ensures x !in r
    ensures forall y :: y != x ==> (y in r <==> y in s)
  {
    if s == [] then []
    else if s[0] == x then RemoveAll(s[1..], x)
    else [s[0]] + RemoveAll(s[1..], x)
  }

  lemma {:induction false} RemoveAllAbsent<T(!new)>(s: seq<T>, x: T)
    requires x !in s
    ensures RemoveAll(s, x) == s
  {
    if s != [] {
      RemoveAllAbsent(s[1..], x);
    }
  }

  lemma {:induction false} RemoveAllAppend<T(!new)>(s: seq<T>, t: seq<T>, x: T)
    ensures RemoveAll(s + t, x) == RemoveAll(s, x) + RemoveAll(t, x)
  {
    if s != [] {
      assert (s + t)[0] == s[0];
      assert (s + t)[1..] == s[1..] + t;
      RemoveAllAppend(s[1..], t, x);
    } else {
      assert s + t == t;
    }
  }
  /** A duplicate-free sequence holds each element at most once. */
  lemma {:induction false} NoDupCountsOne<T(!new)>(s: seq<T>, x: T)
    requires NoDup(s)
    ensures multiset(s)[x] <= 1
  {
    if s != [] {
      assert s == [s[0]] + s[1..];
      assert s[0] !in s[1..];
      NoDupCountsOne(s[1..], x);
    }
  }

  /** A sequence holding each element at most once is duplicate-free. */
  lemma CountsOneNoDup<T(!new)>(s: seq<T>)
    requires forall x :: multiset(s)[x] <= 1
    ensures NoDup(s)
  {
    forall i, j | 0 <= i < j < |s| ensures s[i] != s[j] {
      assert s == s[..j] + s[j..];
      assert s[..j][i] == s[i] && s[j..][0] == s[j];
      assert multiset(s)[s[j]] == multiset(s[..j])[s[j]] + multiset(s[j..])[s[j]];
    }
  }

  /** A permutation of a duplicate-free sequence is duplicate-free. */
  lemma NoDupPermutation<T(!new)>(a: seq<T>, b: seq<T>)
    requires NoDup(a) && multiset(a) == multiset(b)
    ensures NoDup(b)
  {
    forall x ensures multiset(b)[x] <= 1 {
      NoDupCountsOne(a, x);
    }
    CountsOneNoDup(b);
  }
}
