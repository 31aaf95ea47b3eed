/** The yard bookkeeping of `JobPlanner` (src/plan/job_planner.py): the
    candidate yards of a job, the first yard with spare capacity, the
    `Counter` updates and decays of recent yard usage, and the corridor
    sides. Yard names are strings; "" stands for a missing (`None`) name. */
module YardOptions {
  import opened Seqs
  import opened Wrappers

  /** `_YARD_DI_CAPACITY`. */
  const YardCapacity := 700
  /** `_CORRIDOR_SPLIT_X`. */
  const CorridorSplitX := 21

  /** A grid position of the terminal floor. */
  datatype Coord = Coord(x: int, y: int)

  /** The two corridor sides, "west" and "east" in the source. */
  datatype Side = West | East

  /** A `Counter` read at a key: zero when the key is missing. */
  function Count<K>(m: map<K, int>, k: K): int {
    if k in m then m[k] else 0
  }

  /** A truthy yard name. */
  predicate NonEmpty(name: string) {
    name != ""
  }

  /** `_enumerate_yard_options`: the primary yard when it is set, then each
      alternate that is set and not already listed. */
  method EnumerateYardOptions(primary: string, alternates: seq<string>) returns (options: seq<string>)
    ensures options == Dedup(Filter([primary] + alternates, NonEmpty))
    ensures NoDup(options)
    ensures forall i :: 0 <= i < |options| ==> options[i] != ""
    ensures forall y :: y in options <==> y != "" && (y == primary || y in alternates)
    ensures primary != "" ==> |options| > 0 && options[0] == primary
  {
    options := [];
    if primary != "" {
      options := options + [primary];
    }
    OptionsStep([], primary);
    var i := 0;
    while i < |alternates|
      invariant 0 <= i <= |alternates|
      invariant options == Dedup(Filter([primary] + alternates[..i], NonEmpty))
    {
      var candidate := alternates[i];
      assert [primary] + alternates[..i + 1] == ([primary] + alternates[..i]) + [candidate];
      OptionsStep([primary] + alternates[..i], candidate);
      if candidate != "" && candidate !in options {
        options := options + [candidate];
      }
      i := i + 1;
    }
    assert alternates[..i] == alternates;
    forall j | 0 <= j < |options| ensures options[j] != "" {
      assert options[j] in Filter([primary] + alternates, NonEmpty);
    }
    if primary != "" {
      DedupKeepsHead(Filter([primary] + alternates, NonEmpty));
    }
  }

  /** One step of the enumeration loop: a set name not yet listed is
      appended, anything else leaves the list alone. */
  lemma OptionsStep(prefix: seq<string>, c: string)
    ensures Dedup(Filter(prefix + [c], NonEmpty)) ==
      var d := Dedup(Filter(prefix, NonEmpty));
      if c != "" && c !in d then d + [c] else d
  {
    FilterAppend(prefix, [c], NonEmpty);
    var f := Filter(prefix, NonEmpty);
    if c != "" {
      assert Filter([c], NonEmpty) == [c];
      DedupFromSnoc([], f, c);
    } else {
      assert Filter([c], NonEmpty) == [];
      assert f + [] == f;
    }
  }

  /** The first element always survives de-duplication, in front. */
  lemma DedupKeepsHead(s: seq<string>)
    requires |s| > 0
    ensures |Dedup(s)| > 0 && Dedup(s)[0] == s[0]
  {
    assert [] + [s[0]] == [s[0]];
    assert Dedup(s) == DedupFrom([s[0]], s[1..]);
  }

  /** `_pick_feasible_yard`: the first option strictly below capacity, and
      the first option when every one is full. An empty option list is an
      error in the source (`options[0]`). */
  method PickFeasibleYard(options: seq<string>, counts: map<string, int>) returns (choice: string)
    requires |options| > 0
    ensures choice in options
    ensures (forall i :: 0 <= i < |options| ==> Count(counts, options[i]) >= YardCapacity) ==> choice == options[0]
    ensures (exists i :: 0 <= i < |options| && Count(counts, options[i]) < YardCapacity) ==>
      exists i :: 0 <= i < |options| && choice == options[i] && Count(counts, choice) < YardCapacity &&
        forall j :: 0 <= j < i ==> Count(counts, options[j]) >= YardCapacity
  {
    var i := 0;
    while i < |options|
      invariant 0 <= i <= |options|
      invariant forall j :: 0 <= j < i ==> Count(counts, options[j]) >= YardCapacity
    {
      if Count(counts, options[i]) < YardCapacity {
        return options[i];
      }
      i := i + 1;
    }
    return options[0];
  }

  /** `_yard_side`: yards whose name starts with A, B, C or D are west. */
  function YardSide(name: string): (r: Side)
    ensures r == West <==> |name| > 0 && name[0] in "ABCD"
  {
    if name != "" && name[0] in {'A', 'B', 'C', 'D'} then West else East
  }

  /** `_corridor_side_from_coordinate`: columns up to 21 are west; no side
      without a coordinate. */
  function CorridorSide(c: Option<Coord>): (r: Option<Side>)
    ensures r.None? <==> c.None?
    ensures r == Some(West) <==> c.Some? && c.value.x <= CorridorSplitX
  {
    match c
    case None => None
    case Some(p) => if p.x <= CorridorSplitX then Some(West) else Some(East)
  }

  /** `Counter.update(names)`: one more for each occurrence, counted from
      the last name back. */
  function AddAll<K(!new)>(m: map<K, int>, names: seq<K>): map<K, int>
    decreases |names|
  {
    if names == [] then m
    else
      var counted := AddAll(m, names[..|names| - 1]);
      var k := names[|names| - 1];
      counted[k := Count(counted, k) + 1]
  }

  /** After the update each key counts its old count plus its occurrences,
      and the keys are the old ones and the new names. */
  lemma {:induction false} AddAllCounts<K(!new)>(m: map<K, int>, names: seq<K>)
    ensures forall k :: Count(AddAll(m, names), k) == Count(m, k) + multiset(names)[k]
    ensures forall k :: k in AddAll(m, names) <==> k in m || k in names
    decreases |names|
  {
    if names != [] {
      var front := names[..|names| - 1];
      var x := names[|names| - 1];
      assert names == front + [x];
      AddAllCounts(m, front);
    }
  }

  /** Counting one more name is one more increment at the end. */
  lemma AddAllSnoc<K(!new)>(m: map<K, int>, names: seq<K>, x: K)
    ensures AddAll(m, names + [x]) == AddAll(m, names)[x := Count(AddAll(m, names), x) + 1]
  {
    assert (names + [x])[..|names|] == names;
  }

  /** `_apply_yard_usage_decay` as a value: every count drops by one and the
      entries that reach zero (or were not positive) disappear. */
  function Decayed<K(!new)>(m: map<K, int>): (r: map<K, int>)
    ensures forall k :: k in r <==> k in m && m[k] > 1
    ensures forall k :: k in r ==> r[k] == m[k] - 1
  {
    map k | k in m && m[k] - 1 > 0 :: m[k] - 1
  }

  /** `n` decays in a row. */
  function DecayedTimes<K(!new)>(m: map<K, int>, n: nat): map<K, int> {
    if n == 0 then m else Decayed(DecayedTimes(m, n - 1))
  }

  /** After `n` decays of a record of positive counts (as `Counter.update`
      leaves it), exactly the entries that were above `n` remain, each
      lowered by `n`. */
  lemma {:induction false} DecayedTimesValue<K(!new)>(m: map<K, int>, n: nat)
    requires forall k :: k in m ==> m[k] > 0
    ensures forall k :: k in DecayedTimes(m, n) <==> k in m && m[k] > n
    ensures forall k :: k in DecayedTimes(m, n) ==> DecayedTimes(m, n)[k] == m[k] - n
  {
    if n > 0 {
      DecayedTimesValue(m, n - 1);
      var prev := DecayedTimes(m, n - 1);
      assert DecayedTimes(m, n) == Decayed(prev);
      forall k ensures k in DecayedTimes(m, n) <==> k in m && m[k] > n {
        assert k in Decayed(prev) <==> k in prev && prev[k] > 1;
      }
    }
  }

  /** A usage record whose counts are at most `n` is empty after `n` decays:
      a yard unused for that many planning rounds is forgotten. */
  lemma DecayForgets<K(!new)>(m: map<K, int>, n: nat)
    requires forall k :: k in m ==> 0 < m[k] <= n
    ensures DecayedTimes(m, n) == map[]
  {
    DecayedTimesValue(m, n);
  }

  /** `_apply_corridor_history_decay` as a value: each side with a positive
      count loses one; every entry stays, zero entries included. */
  function CorridorDecayed(h: map<Side, int>): (r: map<Side, int>)
    ensures r.Keys == h.Keys
    ensures forall s :: s in h && h[s] > 0 ==> r[s] == h[s] - 1
    ensures forall s :: s in h && h[s] <= 0 ==> r[s] == h[s]
  {
    map s | s in h :: if h[s] > 0 then h[s] - 1 else h[s]
  }
}
