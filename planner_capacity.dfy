/** `_enforce_capacity_limit` of `JobPlanner` (src/plan/job_planner.py): the
    repair loop that moves discharge jobs out of the most over-full yard.
    The plan is a sequence aligned with the candidate jobs (entry `i` is the
    yard of candidate `i`); the yard-choice cost is an uninterpreted integer
    function of the candidate and the yard. */
module Capacity {
  import opened Text
  import opened YardOptions

  /** A candidate discharge job: its quay crane and its yard options. */
  datatype Candidate = Candidate(qcName: string, options: seq<string>)

  /** An entry of `movable_jobs`: the cost change, the job (as its index),
      the job's quay crane (the sort's tie-break) and the target yard. */
  datatype Move = Move(delta: int, job: nat, qc: string, target: string)

  /** How far a combined count lies above the capacity. */
  function Over(c: int): nat {
    if c > YardCapacity then c - YardCapacity else 0
  }

  /** `combined_counts[y]`: the base allocation plus the jobs the plan sends
      to `y`. */
  function Load(base: map<string, int>, plan: seq<string>, y: string): int {
    Count(base, y) + multiset(plan)[y]
  }

  /** Every yard a candidate may be moved to. */
  function AllOptions(cands: seq<Candidate>): (r: set<string>)
    ensures forall i, o :: 0 <= i < |cands| && o in cands[i].options ==> o in r
  {
    if cands == [] then {} else (set o | o in cands[0].options) + AllOptions(cands[1..])
  }

  /** The yards the repair can ever touch; every other yard has load 0. */
  function Universe(cands: seq<Candidate>, plan: seq<string>, base: map<string, int>): (u: set<string>)
    ensures forall y :: y !in u ==> Load(base, plan, y) == 0
  {
    base.Keys + (set y | y in plan) + AllOptions(cands)
  }

  ghost function SumOver(f: string -> nat, ys: set<string>): nat
    decreases ys
  {
    if ys == {} then 0 else var y :| y in ys; f(y) + SumOver(f, ys - {y})
  }

  lemma {:induction false} SumOverPick(f: string -> nat, ys: set<string>, y: string)
    requires y in ys
    ensures SumOver(f, ys) == f(y) + SumOver(f, ys - {y})
    decreases ys
  {
    var z :| z in ys && SumOver(f, ys) == f(z) + SumOver(f, ys - {z});
    if z != y {
      SumOverPick(f, ys - {z}, y);
      SumOverPick(f, ys - {y}, z);
      assert ys - {z} - {y} == ys - {y} - {z};
    }
  }

  lemma {:induction false} SumOverAgree(f: string -> nat, g: string -> nat, ys: set<string>)
    requires forall y :: y in ys ==> f(y) == g(y)
    ensures SumOver(f, ys) == SumOver(g, ys)
    decreases ys
  {
    if ys != {} {
      var y :| y in ys;
      SumOverPick(f, ys, y);
      SumOverPick(g, ys, y);
      SumOverAgree(f, g, ys - {y});
    }
  }

  ghost function OverOf(base: map<string, int>, plan: seq<string>): string -> nat {
    y => Over(Load(base, plan, y))
  }

  /** The total overflow of the yards in `ys`. */
  ghost function Excess(base: map<string, int>, plan: seq<string>, ys: set<string>): nat {
    SumOver(OverOf(base, plan), ys)
  }

  /** Moving one job from an over-full yard to a yard below capacity lowers
      the total overflow by exactly one. */
  lemma MoveLowersExcess(base: map<string, int>, plan: seq<string>, i: nat, t: string, ys: set<string>)
    requires i < |plan| && plan[i] != t && plan[i] in ys && t in ys
    requires Load(base, plan, plan[i]) > YardCapacity && Load(base, plan, t) < YardCapacity
    ensures Excess(base, plan[i := t], ys) + 1 == Excess(base, plan, ys)
  {
    var y := plan[i];
    var moved := plan[i := t];
    var f := OverOf(base, plan);
    var g := OverOf(base, moved);
    assert multiset(moved) == multiset(plan) - multiset{y} + multiset{t};
    SumOverPick(f, ys, y);
    SumOverPick(f, ys - {y}, t);
    SumOverPick(g, ys, y);
    SumOverPick(g, ys - {y}, t);
    forall z | z in ys - {y} - {t} ensures f(z) == g(z) {
      assert Load(base, moved, z) == Load(base, plan, z);
    }
    SumOverAgree(f, g, ys - {y} - {t});
  }

  /** Some key of a non-empty part of a map holds the largest value. */
  lemma {:induction false} MaxExists(m: map<string, int>, ks: set<string>)
    requires ks != {} && ks <= m.Keys
    ensures exists y :: y in ks && forall k :: k in ks ==> m[k] <= m[y]
    decreases ks
  {
    var z :| z in ks;
    if ks != {z} {
      MaxExists(m, ks - {z});
      var y :| y in ks - {z} && forall k :: k in ks - {z} ==> m[k] <= m[y];
      if m[z] > m[y] {
        assert forall k :: k in ks ==> m[k] <= m[z];
      } else {
        assert forall k :: k in ks ==> m[k] <= m[y];
      }
    } else {
      assert forall k :: k in ks ==> k == z;
    }
  }

  /** `m` moves candidate `c` out of `yard`: to another yard below capacity,
      with the cost change as its delta and the candidate's crane as its
      tie-break. */
  predicate MoveOf(c: Candidate, yard: string, base: map<string, int>, plan: seq<string>,
                   cost: (Candidate, string) -> int, m: Move) {
    m.qc == c.qcName && m.target != yard && Load(base, plan, m.target) < YardCapacity &&
    m.delta == cost(c, m.target) - cost(c, yard)
  }

  /** Some move of `r` takes job `j` to yard `o`. */
  predicate HasMove(r: seq<Move>, j: nat, o: string) {
    exists k :: 0 <= k < |r| && r[k].job == j && r[k].target == o
  }

  /** The moves for candidate `j` (whose yard is `yard`) through its first `n`
      options: each option other than `yard` whose load is below capacity. */
  function AltMoves(j: nat, c: Candidate, yard: string, base: map<string, int>, plan: seq<string>,
                    cost: (Candidate, string) -> int, n: nat): (r: seq<Move>)
    requires n <= |c.options|
    ensures |r| <= n
  {
    if n == 0 then []
    else
      var alt := c.options[n - 1];
      AltMoves(j, c, yard, base, plan, cost, n - 1) +
      (if alt != yard && Load(base, plan, alt) < YardCapacity
       then [Move(cost(c, alt) - cost(c, yard), j, c.qcName, alt)] else [])
  }

  /** `movable_jobs` over the first `n` candidates, in candidate order and,
      within a candidate, in option order. */
  function Movable(cands: seq<Candidate>, plan: seq<string>, base: map<string, int>, yard: string,
                   cost: (Candidate, string) -> int, n: nat): (r: seq<Move>)
    requires n <= |cands| == |plan|
    ensures r == [] <== forall j :: 0 <= j < n ==> plan[j] != yard
  {
    if n == 0 then []
    else
      var c := cands[n - 1];
      Movable(cands, plan, base, yard, cost, n - 1) +
      (if plan[n - 1] == yard then AltMoves(n - 1, c, yard, base, plan, cost, |c.options|) else [])
  }

  /** Every move of `AltMoves` is a move of candidate `j` to one of its
      options. */
  lemma {:induction false} AltMovesAt(j: nat, c: Candidate, yard: string, base: map<string, int>,
                                      plan: seq<string>, cost: (Candidate, string) -> int, n: nat, k: nat)
    requires n <= |c.options| && k < |AltMoves(j, c, yard, base, plan, cost, n)|
    ensures AltMoves(j, c, yard, base, plan, cost, n)[k].job == j
    ensures AltMoves(j, c, yard, base, plan, cost, n)[k].target in c.options
    ensures MoveOf(c, yard, base, plan, cost, AltMoves(j, c, yard, base, plan, cost, n)[k])
    decreases n
  {
    var prev := AltMoves(j, c, yard, base, plan, cost, n - 1);
    var r := AltMoves(j, c, yard, base, plan, cost, n);
    if k < |prev| {
      AltMovesAt(j, c, yard, base, plan, cost, n - 1, k);
      assert r[k] == prev[k];
    }
  }

  /** Every move of `Movable` takes a job of `yard` to one of its options
      below capacity. */
  lemma {:induction false} MovableAt(cands: seq<Candidate>, plan: seq<string>, base: map<string, int>,
                                     yard: string, cost: (Candidate, string) -> int, n: nat, k: nat)
    requires n <= |cands| == |plan| && k < |Movable(cands, plan, base, yard, cost, n)|
    ensures Movable(cands, plan, base, yard, cost, n)[k].job < n
    ensures plan[Movable(cands, plan, base, yard, cost, n)[k].job] == yard
    ensures Movable(cands, plan, base, yard, cost, n)[k].target in
      cands[Movable(cands, plan, base, yard, cost, n)[k].job].options
    ensures MoveOf(cands[Movable(cands, plan, base, yard, cost, n)[k].job], yard, base, plan, cost,
                   Movable(cands, plan, base, yard, cost, n)[k])
    decreases n
  {
    var c := cands[n - 1];
    var prev := Movable(cands, plan, base, yard, cost, n - 1);
    var r := Movable(cands, plan, base, yard, cost, n);
    if k < |prev| {
      MovableAt(cands, plan, base, yard, cost, n - 1, k);
      assert r[k] == prev[k];
    } else {
      AltMovesAt(n - 1, c, yard, base, plan, cost, |c.options|, k - |prev|);
      assert r[k] == AltMoves(n - 1, c, yard, base, plan, cost, |c.options|)[k - |prev|];
    }
  }

  lemma {:induction false} AltMovesComplete(j: nat, c: Candidate, yard: string, base: map<string, int>,
                                            plan: seq<string>, cost: (Candidate, string) -> int, n: nat, o: string)
    requires n <= |c.options|
    requires o in c.options[..n] && o != yard && Load(base, plan, o) < YardCapacity
    ensures HasMove(AltMoves(j, c, yard, base, plan, cost, n), j, o)
  {
    var alt := c.options[n - 1];
    assert c.options[..n] == c.options[..n - 1] + [alt];
    var prev := AltMoves(j, c, yard, base, plan, cost, n - 1);
    if o == alt {
      var r := AltMoves(j, c, yard, base, plan, cost, n);
      assert r[|prev|].job == j && r[|prev|].target == o;
    } else {
      AltMovesComplete(j, c, yard, base, plan, cost, n - 1, o);
      var k :| 0 <= k < |prev| && prev[k].job == j && prev[k].target == o;
      var r := AltMoves(j, c, yard, base, plan, cost, n);
      assert r[k] == prev[k];
    }
  }

  /** Every job in `yard` with an option other than `yard` below capacity
      gives rise to a move to that option. */
  lemma {:induction false} MovableComplete(cands: seq<Candidate>, plan: seq<string>, base: map<string, int>,
                                           yard: string, cost: (Candidate, string) -> int, n: nat, j: nat, o: string)
    requires n <= |cands| == |plan|
    requires j < n && plan[j] == yard && o in cands[j].options && o != yard && Load(base, plan, o) < YardCapacity
    ensures HasMove(Movable(cands, plan, base, yard, cost, n), j, o)
  {
    var prev := Movable(cands, plan, base, yard, cost, n - 1);
    var c := cands[n - 1];
    assert c.options[..|c.options|] == c.options;
    var r := Movable(cands, plan, base, yard, cost, n);
    if j == n - 1 {
      AltMovesComplete(j, c, yard, base, plan, cost, |c.options|, o);
      var alts := AltMoves(j, c, yard, base, plan, cost, |c.options|);
      assert r == prev + alts;
      var k :| 0 <= k < |alts| && alts[k].job == j && alts[k].target == o;
      assert r[|prev| + k] == alts[k];
    } else {
      MovableComplete(cands, plan, base, yard, cost, n - 1, j, o);
      var k :| 0 <= k < |prev| && prev[k].job == j && prev[k].target == o;
      assert r[k] == prev[k];
    }
  }

  /** The sort key `(delta, QC_name)` of `movable_jobs`, compared strictly. */
  predicate MoveLess(a: Move, b: Move) {
    a.delta < b.delta || (a.delta == b.delta && LexLess(a.qc, b.qc))
  }

  lemma MoveLessTransitive(a: Move, b: Move, c: Move)
    requires MoveLess(a, b) && MoveLess(b, c)
    ensures MoveLess(a, c)
  {
    if a.delta == b.delta && b.delta == c.delta {
      LexLessTransitive(a.qc, b.qc, c.qc);
    }
  }

  /** Moves whose keys are not strictly ordered either way have equal keys. */
  lemma MoveLessTotal(a: Move, b: Move)
    ensures MoveLess(a, b) || MoveLess(b, a) || (a.delta == b.delta && a.qc == b.qc)
  {
    LexLessTotal(a.qc, b.qc);
  }

  /** `movable_jobs.sort(key=...)[0]`: a stable sort puts first the earliest
      of the moves with the least key, so this is the index of that move. */
  method FirstBest(moves: seq<Move>) returns (best: nat)
    requires |moves| > 0
    ensures best < |moves|
    ensures forall j :: 0 <= j < |moves| ==> !MoveLess(moves[j], moves[best])
    ensures forall j :: 0 <= j < best ==> MoveLess(moves[best], moves[j])
  {
    best := 0;
    LexLessIrreflexive(moves[0].qc);
    var i := 1;
    while i < |moves|
      invariant best < i <= |moves|
      invariant forall j :: 0 <= j < i ==> !MoveLess(moves[j], moves[best])
      invariant forall j :: 0 <= j < best ==> MoveLess(moves[best], moves[j])
    {
      if MoveLess(moves[i], moves[best]) {
        forall j | 0 <= j < i ensures MoveLess(moves[i], moves[j]) && !MoveLess(moves[j], moves[i]) {
          if j < best {
            MoveLessTransitive(moves[i], moves[best], moves[j]);
          } else {
            MoveLessTotal(moves[j], moves[best]);
            if MoveLess(moves[best], moves[j]) {
              MoveLessTransitive(moves[i], moves[best], moves[j]);
            }
          }
          if MoveLess(moves[j], moves[i]) {
            MoveLessTransitive(moves[j], moves[i], moves[best]);
          }
        }
        LexLessIrreflexive(moves[i].qc);
        best := i;
      }
      i := i + 1;
    }
  }

  /** The `movable_jobs` loop, given counts that agree with the plan. */
  method CollectMoves(cands: seq<Candidate>, plan: seq<string>, base: map<string, int>,
                      counts: map<string, int>, yard: string, cost: (Candidate, string) -> int)
    returns (moves: seq<Move>)
    requires |plan| == |cands|
    requires forall k :: Count(counts, k) == Load(base, plan, k)
    ensures moves == Movable(cands, plan, base, yard, cost, |cands|)
  {
    moves := [];
    var j := 0;
    while j < |cands|
      invariant j <= |cands|
      invariant moves == Movable(cands, plan, base, yard, cost, j)
    {
      var c := cands[j];
      assert c.options[..|c.options|] == c.options;
      if plan[j] == yard {
        var n := 0;
        while n < |c.options|
          invariant n <= |c.options|
          invariant moves == Movable(cands, plan, base, yard, cost, j) + AltMoves(j, c, yard, base, plan, cost, n)
        {
          var alt := c.options[n];
          if alt != yard && Count(counts, alt) < YardCapacity {
            moves := moves + [Move(cost(c, alt) - cost(c, yard), j, c.qcName, alt)];
          }
          n := n + 1;
        }
      }
      j := j + 1;
    }
  }

  /** `combined_counts`: the base counts plus one for each planned job. */
  method CombinedCounts(base: map<string, int>, plan: seq<string>) returns (counts: map<string, int>)
    ensures forall k :: Count(counts, k) == Load(base, plan, k)
    ensures counts.Keys == base.Keys + (set y | y in plan)
  {
    counts := base;
    var i := 0;
    while i < |plan|
      invariant i <= |plan|
      invariant forall k :: Count(counts, k) == Count(base, k) + multiset(plan[..i])[k]
      invariant counts.Keys == base.Keys + (set y | y in plan[..i])
    {
      var next := counts[plan[i] := Count(counts, plan[i]) + 1];
      CountOneMore(base, plan, i, counts, next, plan[..i + 1]);
      counts := next;
      i := i + 1;
    }
    assert plan[..i] == plan;
  }

  /** One more planned job counted into `combined_counts`. */
  lemma CountOneMore(base: map<string, int>, plan: seq<string>, i: nat, counts: map<string, int>,
                     next: map<string, int>, longer: seq<string>)
    requires i < |plan| && longer == plan[..i + 1]
    requires forall k :: Count(counts, k) == Count(base, k) + multiset(plan[..i])[k]
    requires counts.Keys == base.Keys + (set y | y in plan[..i])
    requires next == counts[plan[i] := Count(counts, plan[i]) + 1]
    ensures forall k :: Count(next, k) == Count(base, k) + multiset(longer)[k]
    ensures next.Keys == base.Keys + (set y | y in longer)
  {
    assert longer == plan[..i] + [plan[i]];
  }

  /** The two counter updates of a move keep the counts in step with the
      plan. */
  lemma ShiftCounts(base: map<string, int>, plan: seq<string>, counts: map<string, int>, j: nat, t: string,
                    lowered: map<string, int>, shifted: map<string, int>)
    requires j < |plan| && plan[j] in counts && plan[j] != t
    requires forall k :: Count(counts, k) == Load(base, plan, k)
    requires lowered == counts[plan[j] := counts[plan[j]] - 1]
    requires shifted == lowered[t := Count(lowered, t) + 1]
    ensures forall k :: Count(shifted, k) == Load(base, plan[j := t], k)
    ensures shifted.Keys == counts.Keys + {t}
  {
    var y := plan[j];
    var moved := plan[j := t];
    assert multiset(moved) == multiset(plan) - multiset{y} + multiset{t};
    forall k ensures Count(shifted, k) == Load(base, moved, k) {
      assert Count(counts, k) == Load(base, plan, k);
    }
  }

  /** With the counts in step with the plan, a key of largest count holds
      the largest load of all yards. */
  lemma LargestLoad(base: map<string, int>, plan: seq<string>, counts: map<string, int>, yard: string)
    requires yard in counts && counts[yard] >= 0
    requires forall k :: k in counts ==> counts[k] <= counts[yard]
    requires forall k :: Count(counts, k) == Load(base, plan, k)
    ensures forall z :: Load(base, plan, z) <= Load(base, plan, yard)
  {
    forall z ensures Load(base, plan, z) <= Load(base, plan, yard) {
      assert Count(counts, z) == Load(base, plan, z);
      assert Count(counts, yard) == Load(base, plan, yard);
    }
  }

  /** The loop state of the repair: the counts agree with the current plan,
      every change is to one of the job's own options, and everything stays
      inside the universe `u`. */
  ghost predicate Repairing(cands: seq<Candidate>, plan: seq<string>, base: map<string, int>, u: set<string>,
                            result: seq<string>, counts: map<string, int>) {
    |result| == |plan| == |cands| &&
    (forall i :: 0 <= i < |plan| && result[i] != plan[i] ==> result[i] in cands[i].options) &&
    (forall i :: 0 <= i < |result| ==> result[i] in u) &&
    (forall k :: Count(counts, k) == Load(base, result, k)) &&
    counts.Keys <= u
  }

  /** One move keeps the loop state and lowers the overflow by one. */
  lemma MoveKeepsRepairing(cands: seq<Candidate>, plan: seq<string>, base: map<string, int>, u: set<string>,
                           result: seq<string>, counts: map<string, int>, yard: string, m: Move,
                           lowered: map<string, int>, shifted: map<string, int>)
    requires Repairing(cands, plan, base, u, result, counts)
    requires AllOptions(cands) <= u
    requires m.job < |result| && result[m.job] == yard && m.target in cands[m.job].options
    requires m.target != yard && Load(base, result, m.target) < YardCapacity
    requires yard in counts && counts[yard] > YardCapacity
    requires lowered == counts[yard := counts[yard] - 1]
    requires shifted == lowered[m.target := Count(lowered, m.target) + 1]
    ensures Repairing(cands, plan, base, u, result[m.job := m.target], shifted)
  {
    assert m.target in u;
    ShiftCounts(base, result, counts, m.job, m.target, lowered, shifted);
    var next := result[m.job := m.target];
    forall i | 0 <= i < |plan| && next[i] != plan[i] ensures next[i] in cands[i].options {
      if i != m.job {
        assert next[i] == result[i];
      }
    }
  }

  /** No yard is over capacity. */
  ghost predicate Fits(base: map<string, int>, plan: seq<string>) {
    forall y :: Load(base, plan, y) <= YardCapacity
  }

  /** The repair is stuck: the most over-full yard has no movable job. */
  ghost predicate Stuck(cands: seq<Candidate>, plan: seq<string>, base: map<string, int>,
                        cost: (Candidate, string) -> int)
    requires |plan| == |cands|
  {
    exists y :: Load(base, plan, y) > YardCapacity &&
      (forall z :: Load(base, plan, z) <= Load(base, plan, y)) &&
      Movable(cands, plan, base, y, cost, |cands|) == []
  }

  /** Counts in step with the plan show whether some yard overflows. */
  lemma FitsIffNoKey(base: map<string, int>, plan: seq<string>, counts: map<string, int>)
    requires forall k :: Count(counts, k) == Load(base, plan, k)
    ensures Fits(base, plan) <==> !exists y :: y in counts && counts[y] > YardCapacity
  {
    if w :| w in counts && counts[w] > YardCapacity {
      assert Count(counts, w) == Load(base, plan, w);
    } else {
      forall y ensures Load(base, plan, y) <= YardCapacity {
        assert Count(counts, y) == Load(base, plan, y);
      }
    }
  }

  /** With no candidate job there is nothing to move. */
  lemma EmptyPlanStuck(cands: seq<Candidate>, plan: seq<string>, base: map<string, int>,
                       counts: map<string, int>, cost: (Candidate, string) -> int)
    requires |plan| == |cands| == 0
    requires forall k :: Count(counts, k) == Load(base, plan, k)
    requires exists y :: y in counts && counts[y] > YardCapacity
    ensures Stuck(cands, plan, base, cost)
  {
    var w :| w in counts && counts[w] > YardCapacity;
    MaxExists(counts, counts.Keys);
    var yard :| yard in counts && forall k :: k in counts ==> counts[k] <= counts[yard];
    assert counts[yard] >= counts[w];
    assert Count(counts, yard) == Load(base, plan, yard);
    LargestLoad(base, plan, counts, yard);
  }

  /** Move `k` of `ms` is the one `movable_jobs.sort(...)[0]` picks: no move
      has a smaller key, and every earlier move has a larger one. */
  predicate BestMove(ms: seq<Move>, k: nat) {
    k < |ms| &&
    (forall j :: 0 <= j < |ms| ==> !MoveLess(ms[j], ms[k])) &&
    (forall j :: 0 <= j < k ==> MoveLess(ms[k], ms[j]))
  }

  /** `after` is `before` with the best move out of `yard` applied, where
      `yard` is over capacity and carries the largest load. */
  ghost predicate StepBy(cands: seq<Candidate>, base: map<string, int>, cost: (Candidate, string) -> int,
                         before: seq<string>, after: seq<string>, yard: string, k: nat) {
    |before| == |cands| &&
    Load(base, before, yard) > YardCapacity &&
    (forall z :: Load(base, before, z) <= Load(base, before, yard)) &&
    var ms := Movable(cands, before, base, yard, cost, |cands|);
    BestMove(ms, k) && ms[k].job < |before| && after == before[ms[k].job := ms[k].target]
  }

  /** One move of the repair loop takes `before` to `after`. */
  ghost predicate RepairStep(cands: seq<Candidate>, base: map<string, int>, cost: (Candidate, string) -> int,
                             before: seq<string>, after: seq<string>) {
    exists yard: string, k: nat :: StepBy(cands, base, cost, before, after, yard, k)
  }

  /** `after` is `before` with job `j`, of a yard over capacity and as full
      as any yard, moved to `t`: another of its own options, below capacity. */
  ghost predicate MovesOne(cands: seq<Candidate>, base: map<string, int>, before: seq<string>,
                           after: seq<string>, j: nat, t: string) {
    j < |before| == |cands| && after == before[j := t] &&
    Load(base, before, before[j]) > YardCapacity &&
    (forall z :: Load(base, before, z) <= Load(base, before, before[j])) &&
    t in cands[j].options && t != before[j] && Load(base, before, t) < YardCapacity
  }

  /** A repair step reassigns exactly one job: a job of a yard that is over
      capacity and as full as any yard, moved to another of its own options
      that is below capacity. */
  lemma RepairStepMovesOne(cands: seq<Candidate>, base: map<string, int>, cost: (Candidate, string) -> int,
                           before: seq<string>, after: seq<string>)
    requires RepairStep(cands, base, cost, before, after)
    ensures exists j: nat, t: string :: MovesOne(cands, base, before, after, j, t)
  {
    var yard: string, k: nat :| StepBy(cands, base, cost, before, after, yard, k);
    var ms := Movable(cands, before, base, yard, cost, |cands|);
    MovableAt(cands, before, base, yard, cost, |cands|, k);
    var j, t := ms[k].job, ms[k].target;
    assert before[j] == yard;
    assert MovesOne(cands, base, before, after, j, t);
  }

  /** Each plan of `trace` is one repair step from the one before. */
  ghost predicate RepairTrace(cands: seq<Candidate>, base: map<string, int>, cost: (Candidate, string) -> int,
                              trace: seq<seq<string>>) {
    forall i :: 0 <= i < |trace| - 1 ==> RepairStep(cands, base, cost, trace[i], trace[i + 1])
  }

  lemma RepairTraceSnoc(cands: seq<Candidate>, base: map<string, int>, cost: (Candidate, string) -> int,
                        trace: seq<seq<string>>, next: seq<string>)
    requires |trace| > 0 && RepairTrace(cands, base, cost, trace)
    requires RepairStep(cands, base, cost, trace[|trace| - 1], next)
    ensures RepairTrace(cands, base, cost, trace + [next])
  {
    var t := trace + [next];
    forall i | 0 <= i < |t| - 1 ensures RepairStep(cands, base, cost, t[i], t[i + 1]) {
      if i < |trace| - 1 {
        assert t[i] == trace[i] && t[i + 1] == trace[i + 1];
      }
    }
  }

  /** One round of the `while overflow` loop: the most over-full yard, its
      movable jobs and, when there is one, the best move. */
  method RepairRound(cands: seq<Candidate>, ghost plan: seq<string>, base: map<string, int>, ghost u: set<string>,
                     result: seq<string>, counts: map<string, int>, cost: (Candidate, string) -> int)
    returns (stuck: bool, next: seq<string>, nextCounts: map<string, int>)
    requires Repairing(cands, plan, base, u, result, counts) && AllOptions(cands) <= u
    requires exists y :: y in counts && counts[y] > YardCapacity
    ensures stuck ==> next == result && nextCounts == counts && Stuck(cands, result, base, cost)
    ensures !stuck ==> Repairing(cands, plan, base, u, next, nextCounts)
    ensures !stuck ==> Excess(base, next, u) + 1 == Excess(base, result, u)
    ensures !stuck ==> RepairStep(cands, base, cost, result, next)
  {
    var w :| w in counts && counts[w] > YardCapacity;
    MaxExists(counts, counts.Keys);
    var yard :| yard in counts && forall k :: k in counts ==> counts[k] <= counts[yard];
    assert counts[yard] >= counts[w];
    assert Count(counts, yard) == Load(base, result, yard);
    var movable := CollectMoves(cands, result, base, counts, yard, cost);
    if |movable| == 0 {
      LargestLoad(base, result, counts, yard);
      return true, result, counts;
    }
    var k := FirstBest(movable);
    var m := movable[k];
    MovableAt(cands, result, base, yard, cost, |cands|, k);
    assert result[m.job] in u && m.target in u;
    MoveLowersExcess(base, result, m.job, m.target, u);
    next := result[m.job := m.target];
    LargestLoad(base, result, counts, yard);
    assert StepBy(cands, base, cost, result, next, yard, k);
    var lowered := counts[yard := counts[yard] - 1];
    nextCounts := lowered[m.target := Count(lowered, m.target) + 1];
    MoveKeepsRepairing(cands, plan, base, u, result, counts, yard, m, lowered, nextCounts);
    stuck := false;
  }

  /** `_enforce_capacity_limit`. While some yard is over capacity, take the
      most over-full one and move the best movable job out of it; stop when
      no yard overflows or that yard has no movable job. `moves` counts the
      moves made and `trace` lists the plans they pass through. */
  method EnforceCapacityLimit(cands: seq<Candidate>, plan: seq<string>, base: map<string, int>,
                              cost: (Candidate, string) -> int)
    returns (result: seq<string>, ghost moves: nat, ghost trace: seq<seq<string>>)
    requires |plan| == |cands|
    ensures |result| == |plan|
    ensures Fits(base, plan) ==> result == plan
    ensures forall i :: 0 <= i < |plan| && result[i] != plan[i] ==> result[i] in cands[i].options
    ensures Excess(base, result, Universe(cands, plan, base)) + moves ==
            Excess(base, plan, Universe(cands, plan, base))
    ensures Fits(base, result) || Stuck(cands, result, base, cost)
    ensures |trace| == moves + 1 && trace[0] == plan && trace[moves] == result
    ensures RepairTrace(cands, base, cost, trace)
  {
    moves := 0;
    trace := [plan];
    ghost var u := Universe(cands, plan, base);
    var counts := CombinedCounts(base, plan);
    FitsIffNoKey(base, plan, counts);
    result := plan;
    if |plan| == 0 {
      if exists y :: y in counts && counts[y] > YardCapacity {
        EmptyPlanStuck(cands, plan, base, counts, cost);
      }
      return;
    }
    assert Repairing(cands, plan, base, u, plan, counts);
    result, moves, trace := RepairLoop(cands, plan, base, cost, u, counts);
  }

  /** The `while overflow` loop of `_enforce_capacity_limit`, from the
      combined counts of `plan`. */
  method RepairLoop(cands: seq<Candidate>, plan: seq<string>, base: map<string, int>,
                    cost: (Candidate, string) -> int, ghost u: set<string>, counts0: map<string, int>)
    returns (result: seq<string>, ghost moves: nat, ghost trace: seq<seq<string>>)
    requires Repairing(cands, plan, base, u, plan, counts0) && AllOptions(cands) <= u
    ensures |result| == |plan|
    ensures Fits(base, plan) ==> result == plan
    ensures forall i :: 0 <= i < |plan| && result[i] != plan[i] ==> result[i] in cands[i].options
    ensures Excess(base, result, u) + moves == Excess(base, plan, u)
    ensures Fits(base, result) || Stuck(cands, result, base, cost)
    ensures |trace| == moves + 1 && trace[0] == plan && trace[moves] == result
    ensures RepairTrace(cands, base, cost, trace)
  {
    moves := 0;
    trace := [plan];
    result := plan;
    var counts := counts0;
    var stuck := false;
    while !stuck && exists y :: y in counts && counts[y] > YardCapacity
      invariant AllOptions(cands) <= u
      invariant RepairState(cands, plan, base, cost, u, result, counts, moves, trace, stuck)
      decreases Excess(base, result, u), !stuck
    {
      stuck, result, counts, moves, trace := RepairMove(cands, plan, base, cost, u, result, counts, moves, trace);
    }
    FitsIffNoKey(base, result, counts);
  }

  /** The state the repair loop keeps: the counts in step with the current
      plan, the overflow removed so far, and the trace of moves. */
  ghost predicate RepairState(cands: seq<Candidate>, plan: seq<string>, base: map<string, int>,
                              cost: (Candidate, string) -> int, u: set<string>, result: seq<string>,
                              counts: map<string, int>, moves: nat, trace: seq<seq<string>>, stuck: bool) {
    Repairing(cands, plan, base, u, result, counts) &&
    Excess(base, result, u) + moves == Excess(base, plan, u) &&
    (moves == 0 ==> result == plan) &&
    (moves > 0 ==> !Fits(base, plan)) &&
    (stuck ==> Stuck(cands, result, base, cost)) &&
    |trace| == moves + 1 && trace[0] == plan && trace[moves] == result &&
    RepairTrace(cands, base, cost, trace)
  }

  /** The body of the `while overflow` loop: one round, and the move it
      makes recorded. */
  method RepairMove(cands: seq<Candidate>, plan: seq<string>, base: map<string, int>,
                    cost: (Candidate, string) -> int, ghost u: set<string>, result: seq<string>,
                    counts: map<string, int>, ghost moves: nat, ghost trace: seq<seq<string>>)
    returns (stuck: bool, next: seq<string>, nextCounts: map<string, int>, ghost moves': nat,
             ghost trace': seq<seq<string>>)
    requires AllOptions(cands) <= u
    requires RepairState(cands, plan, base, cost, u, result, counts, moves, trace, false)
    requires exists y :: y in counts && counts[y] > YardCapacity
    ensures RepairState(cands, plan, base, cost, u, next, nextCounts, moves', trace', stuck)
    ensures stuck ==> next == result
    ensures !stuck ==> Excess(base, next, u) < Excess(base, result, u)
  {
    stuck, next, nextCounts := RepairRound(cands, plan, base, u, result, counts, cost);
    moves', trace' := moves, trace;
    if !stuck {
      if moves == 0 {
        FitsIffNoKey(base, result, counts);
      }
      RepairTraceSnoc(cands, base, cost, trace, next);
      trace' := trace + [next];
      moves' := moves + 1;
    }
  }
}
