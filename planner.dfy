/** `JobPlanner` (src/plan/job_planner.py): the per-round planning loop, the
    first-cheapest HT and yard choices, the eight-step instruction sequence
    of a job, the path cache and the usage counters. The HT tracker, the job
    tracker and the sector map are inputs; the float cost heuristics are
    uninterpreted costs, and the randomised yard search is an input plan. */
module Planner {
  import opened Wrappers
  import opened Seqs
  import opened Text
  import opened PlannerFlags
  import opened YardOptions
  import opened Paths

  /** A cost of the source's heuristics: a number, or `float("inf")`. */
  datatype Cost = Finite(value: int) | Infinite

  /** `a < b` on such costs; nothing is below infinity's level but a number. */
  predicate Cheaper(a: Cost, b: Cost) {
    a.Finite? && (b.Infinite? || a.value < b.value)
  }

  /** The `best_choice` / `best_cost` scan shared by `select_HT` and
      `_select_best_yard`: starting from infinity, an element replaces the
      best so far only when it is strictly cheaper. */
  function FirstMin<T>(s: seq<T>, cost: T -> Cost): (r: (Option<T>, Cost))
    ensures r.0.None? <==> r.1 == Infinite
    ensures r.0.Some? ==> r.0.value in s && cost(r.0.value) == r.1
    ensures r.0.None? <==> forall i :: 0 <= i < |s| ==> cost(s[i]) == Infinite
    ensures forall i :: 0 <= i < |s| ==> !Cheaper(cost(s[i]), r.1)
    decreases |s|
  {
    if s == [] then (None, Infinite)
    else
      var prev := FirstMin(s[..|s| - 1], cost);
      var x := s[|s| - 1];
      if Cheaper(cost(x), prev.1) then (Some(x), cost(x)) else prev
  }

  /** The element chosen is the earliest of the cheapest: every element
      before it costs strictly more. */
  lemma {:induction false} FirstMinIsFirst<T>(s: seq<T>, cost: T -> Cost)
    requires FirstMin(s, cost).0.Some?
    ensures exists i :: (0 <= i < |s| && s[i] == FirstMin(s, cost).0.value &&
      forall j :: 0 <= j < i ==> Cheaper(cost(s[i]), cost(s[j])))
    decreases |s|
  {
    var front := s[..|s| - 1];
    var prev := FirstMin(front, cost);
    var x := s[|s| - 1];
    if Cheaper(cost(x), prev.1) {
      var i := |s| - 1;
      forall j | 0 <= j < i ensures Cheaper(cost(s[i]), cost(s[j])) {
        assert front[j] == s[j];
        assert !Cheaper(cost(front[j]), prev.1);
      }
    } else {
      FirstMinIsFirst(front, cost);
      var i :| 0 <= i < |front| && front[i] == prev.0.value &&
        forall j :: 0 <= j < i ==> Cheaper(cost(front[i]), cost(front[j]));
      assert s[i] == front[i];
      forall j | 0 <= j < i ensures Cheaper(cost(s[i]), cost(s[j])) {
        assert s[j] == front[j];
      }
    }
  }

  /** The job information `plan` reads: its sequence number, its type, its
      crane, its yard and its alternative yards ("" for a missing yard). */
  datatype JobInfo = JobInfo(jobSeq: string, isDischarge: bool, qcName: string, yardName: string,
                             altYardNames: seq<string>)

  /** The in- and out-coordinates of the quay cranes and yards, as
      `SectorMapSnapshot` reports them. */
  datatype Sectors = Sectors(qcIn: string -> Coord, qcOut: string -> Coord,
                             yardIn: string -> Coord, yardOut: string -> Coord)

  /** A path cache key: the route and its two ends, as the source's key
      tuples. */
  datatype PathKey =
    | ToQC(buffer: Coord, qc: string)
    | ToYard(buffer: Coord, yard: string)
    | FromYard(yard: string, buffer: Coord)
    | FromQC(qc: string, buffer: Coord)

  /** The builder behind each cache key. */
  function BuildPath(sectors: Sectors, key: PathKey): (r: seq<Coord>)
    ensures |r| > 0
  {
    match key
    case ToQC(b, qc) => BufferToQC(b, sectors.qcIn(qc))
    case ToYard(b, yard) => BufferToYard(b, sectors.yardIn(yard))
    case FromYard(yard, b) => YardToBuffer(sectors.yardOut(yard), b)
    case FromQC(qc, b) => QCToBuffer(sectors.qcOut(qc), b)
  }

  /** A `JobInstruction`. Booking instructions carry no HT. */
  datatype Instruction =
    | BookQC
    | BookYard
    | Drive(ht: string, path: seq<Coord>)
    | WorkQC(ht: string, qc: string)
    | WorkYard(ht: string, yard: string)

  datatype InstructionType = BOOK_QC | BOOK_YARD | DRIVE | WORK_QC | WORK_YARD

  function TypeOf(i: Instruction): InstructionType {
    match i
    case BookQC => BOOK_QC
    case BookYard => BOOK_YARD
    case Drive(_, _) => DRIVE
    case WorkQC(_, _) => WORK_QC
    case WorkYard(_, _) => WORK_YARD
  }

  /** The quay-crane half of a job: book, drive in, work, drive back. */
  function QCLeg(ht: string, qc: string, toQC: seq<Coord>, fromQC: seq<Coord>): seq<Instruction> {
    [BookQC, Drive(ht, toQC), WorkQC(ht, qc), Drive(ht, fromQC)]
  }

  /** The yard half of a job: book, drive in, work, drive back. */
  function YardLeg(ht: string, yard: string, toYard: seq<Coord>, fromYard: seq<Coord>): seq<Instruction> {
    [BookYard, Drive(ht, toYard), WorkYard(ht, yard), Drive(ht, fromYard)]
  }

  /** The order of the halves: a discharge job visits its crane and then its
      yard, any other job the yard and then the crane. */
  function JobInstructions(isDischarge: bool, qcLeg: seq<Instruction>, yardLeg: seq<Instruction>): seq<Instruction> {
    if isDischarge then qcLeg + yardLeg else yardLeg + qcLeg
  }

  /** The instructions `plan` gives a job, with the four paths from their
      builders. */
  function Instructions(sectors: Sectors, isDischarge: bool, ht: string, qc: string, yard: string,
                        buffer: Coord): seq<Instruction> {
    JobInstructions(isDischarge,
      QCLeg(ht, qc, BuildPath(sectors, ToQC(buffer, qc)), BuildPath(sectors, FromQC(qc, buffer))),
      YardLeg(ht, yard, BuildPath(sectors, ToYard(buffer, yard)), BuildPath(sectors, FromYard(yard, buffer))))
  }

  /** The types of each half of a job. */
  lemma LegTypes(ht: string, qc: string, yard: string,
                 toQC: seq<Coord>, fromQC: seq<Coord>, toYard: seq<Coord>, fromYard: seq<Coord>)
    ensures Map(QCLeg(ht, qc, toQC, fromQC), TypeOf) == [BOOK_QC, DRIVE, WORK_QC, DRIVE]
    ensures Map(YardLeg(ht, yard, toYard, fromYard), TypeOf) == [BOOK_YARD, DRIVE, WORK_YARD, DRIVE]
  {
  }

  /** The eight instruction types of each job type. */
  lemma InstructionTypes(isDischarge: bool, ht: string, qc: string, yard: string,
                         toQC: seq<Coord>, fromQC: seq<Coord>, toYard: seq<Coord>, fromYard: seq<Coord>)
    ensures var s := JobInstructions(isDischarge, QCLeg(ht, qc, toQC, fromQC), YardLeg(ht, yard, toYard, fromYard));
      Map(s, TypeOf) == if isDischarge then [BOOK_QC, DRIVE, WORK_QC, DRIVE, BOOK_YARD, DRIVE, WORK_YARD, DRIVE]
                        else [BOOK_YARD, DRIVE, WORK_YARD, DRIVE, BOOK_QC, DRIVE, WORK_QC, DRIVE]
  {
    var q := QCLeg(ht, qc, toQC, fromQC);
    var y := YardLeg(ht, yard, toYard, fromYard);
    LegTypes(ht, qc, yard, toQC, fromQC, toYard, fromYard);
    if isDischarge {
      MapAppend(q, y, TypeOf);
    } else {
      MapAppend(y, q, TypeOf);
    }
  }

  /** A loading job does the discharge job's two halves in the other order. */
  lemma LoadingSwapsHalves(qcLeg: seq<Instruction>, yardLeg: seq<Instruction>)
    requires |qcLeg| == 4
    ensures JobInstructions(false, qcLeg, yardLeg) ==
      JobInstructions(true, qcLeg, yardLeg)[4..] + JobInstructions(true, qcLeg, yardLeg)[..4]
  {
    assert (qcLeg + yardLeg)[4..] == yardLeg;
    assert (qcLeg + yardLeg)[..4] == qcLeg;
  }

  /** Every drive of a job belongs to its HT, and the fourth and the eighth
      instruction are the drives back from the first and the second visit. */
  lemma ReturnDrives(isDischarge: bool, ht: string, qc: string, yard: string,
                     toQC: seq<Coord>, fromQC: seq<Coord>, toYard: seq<Coord>, fromYard: seq<Coord>)
    ensures var s := JobInstructions(isDischarge, QCLeg(ht, qc, toQC, fromQC), YardLeg(ht, yard, toYard, fromYard));
      |s| == 8 && forall i :: 0 <= i < |s| && s[i].Drive? ==> s[i].ht == ht
    ensures var s := JobInstructions(isDischarge, QCLeg(ht, qc, toQC, fromQC), YardLeg(ht, yard, toYard, fromYard));
      s[3] == Drive(ht, if isDischarge then fromQC else fromYard) &&
      s[7] == Drive(ht, if isDischarge then fromYard else fromQC)
  {
    var q := QCLeg(ht, qc, toQC, fromQC);
    var y := YardLeg(ht, yard, toYard, fromYard);
    var first := if isDischarge then q else y;
    var second := if isDischarge then y else q;
    var s := JobInstructions(isDischarge, q, y);
    assert s == first + second;
    forall i | 0 <= i < 8 && s[i].Drive? ensures s[i].ht == ht {
      if i < 4 {
        assert s[i] == first[i];
      } else {
        assert s[i] == second[i - 4];
      }
    }
    assert s[3] == first[3] && s[7] == second[3];
  }

  /** Both return drives of a job end at the HT's buffer. */
  lemma DrivesReturnToBuffer(sectors: Sectors, isDischarge: bool, ht: string, qc: string, yard: string,
                             buffer: Coord)
    ensures var s := Instructions(sectors, isDischarge, ht, qc, yard, buffer);
      |s| == 8 && s[3].Drive? && Last(s[3].path) == buffer && s[7].Drive? && Last(s[7].path) == buffer
  {
    var toQC, fromQC := BuildPath(sectors, ToQC(buffer, qc)), BuildPath(sectors, FromQC(qc, buffer));
    var toYard, fromYard := BuildPath(sectors, ToYard(buffer, yard)), BuildPath(sectors, FromYard(yard, buffer));
    assert Last(fromQC) == buffer;
    assert Last(fromYard) == buffer;
    ReturnDrives(isDischarge, ht, qc, yard, toQC, fromQC, toYard, fromYard);
  }

  /** A job as `plan` leaves it: its HT, its yard and its instructions. */
  datatype PlannedJob = PlannedJob(job: JobInfo, ht: string, yard: string, instructions: seq<Instruction>)

  /** `selected_HT_names` after these jobs. */
  function HTsOf(ps: seq<PlannedJob>): (r: seq<string>)
    ensures |r| == |ps| && forall i :: 0 <= i < |ps| ==> r[i] == ps[i].ht
  {
    if ps == [] then [] else HTsOf(ps[..|ps| - 1]) + [ps[|ps| - 1].ht]
  }

  /** `used_yard_assignments` after these jobs: every set yard, in order. */
  function UsedYards(ps: seq<PlannedJob>): seq<string> {
    if ps == [] then []
    else
      var last := ps[|ps| - 1];
      UsedYards(ps[..|ps| - 1]) + (if last.yard != "" then [last.yard] else [])
  }

  /** The yards a round adds to `_yard_di_allocation`: those of discharge
      jobs with a set yard. */
  function DischargeYards(ps: seq<PlannedJob>): seq<string> {
    if ps == [] then []
    else
      var last := ps[|ps| - 1];
      DischargeYards(ps[..|ps| - 1]) + (if last.job.isDischarge && last.yard != "" then [last.yard] else [])
  }

  /** The used yards are exactly the set yards of the planned jobs, and the
      discharge yards are among them. */
  lemma {:induction false} RoundYards(ps: seq<PlannedJob>)
    ensures forall y :: y in UsedYards(ps) <==> y != "" && exists i :: 0 <= i < |ps| && ps[i].yard == y
    ensures forall y :: y in DischargeYards(ps) ==> y in UsedYards(ps)
  {
    if ps != [] {
      var front := ps[..|ps| - 1];
      RoundYards(front);
      forall y | y != "" && (exists i :: 0 <= i < |ps| && ps[i].yard == y) ensures y in UsedYards(ps) {
        var i :| 0 <= i < |ps| && ps[i].yard == y;
        if i < |front| {
          assert front[i].yard == y;
        }
      }
      forall y | y in UsedYards(ps) ensures exists i :: 0 <= i < |ps| && ps[i].yard == y {
        if y in UsedYards(front) {
          var i :| 0 <= i < |front| && front[i].yard == y;
          assert ps[i].yard == y;
        } else {
          assert ps[|ps| - 1].yard == y;
        }
      }
    }
  }

  /** The cost `select_HT` compares: HTs already chosen this round or
      without a coordinate are skipped, which is as good as an infinite
      cost. */
  function HTCost(job: JobInfo, yard: string, selected: seq<string>, coords: map<string, Coord>,
                  htCost: (JobInfo, string, Coord) -> Cost): string -> Cost {
    h => if h in selected || h !in coords then Infinite else htCost(job, yard, coords[h])
  }

  /** `select_HT`'s choice. */
  function HTChoice(job: JobInfo, yard: string, selected: seq<string>, available: seq<string>,
                    coords: map<string, Coord>, htCost: (JobInfo, string, Coord) -> Cost): (r: Option<string>)
    ensures r.Some? ==> r.value in available && r.value !in selected && r.value in coords
    ensures r.None? <==> forall i :: 0 <= i < |available| ==>
      HTCost(job, yard, selected, coords, htCost)(available[i]) == Infinite
  {
    var c := FirstMin(available, HTCost(job, yard, selected, coords, htCost));
    assert c.0.Some? ==> HTCost(job, yard, selected, coords, htCost)(c.0.value) != Infinite;
    c.0
  }

  /** `_select_best_yard`'s choice: the first cheapest option, or the first
      option when every cost is infinite. */
  function BestYard(job: JobInfo, options: seq<string>, yardCost: (JobInfo, string) -> Cost): (r: string)
    requires |options| > 0
    ensures r in options
  {
    var c := FirstMin(options, y => yardCost(job, y));
    if c.0.Some? then c.0.value else options[0]
  }

  /** `select_yard`'s choice: the precomputed plan's yard, else the best of
      the job's options, else the job's own (unset) yard. */
  function ChosenYard(job: JobInfo, yardPlan: map<string, string>, yardCost: (JobInfo, string) -> Cost): (r: string)
    ensures job.jobSeq !in yardPlan && r != "" ==> r == job.yardName || r in job.altYardNames
  {
    if job.jobSeq in yardPlan then yardPlan[job.jobSeq]
    else
      var options := Dedup(Filter([job.yardName] + job.altYardNames, NonEmpty));
      if options == [] then job.yardName else BestYard(job, options, yardCost)
  }

  /** The yard `plan` assigns: for a discharge job the chosen yard when it is
      set, otherwise the job's own yard. */
  function AssignedYard(job: JobInfo, yardPlan: map<string, string>, yardCost: (JobInfo, string) -> Cost): string {
    if job.isDischarge && ChosenYard(job, yardPlan, yardCost) != "" then ChosenYard(job, yardPlan, yardCost)
    else job.yardName
  }

  /** What `plan` does with `job` once the HTs in `selected` are taken: the
      job gets its assigned yard, the HT `select_HT` picks and the
      instructions from that HT's position; nothing when no HT can take it. */
  function Step(sectors: Sectors, job: JobInfo, selected: seq<string>,
                yardPlan: map<string, string>, yardCost: (JobInfo, string) -> Cost,
                available: seq<string>, coords: map<string, Coord>,
                htCost: (JobInfo, string, Coord) -> Cost): Option<PlannedJob>
  {
    var yard := AssignedYard(job, yardPlan, yardCost);
    match HTChoice(job, yard, selected, available, coords, htCost)
    case None => None
    case Some(ht) =>
      Some(PlannedJob(job, ht, yard, Instructions(sectors, job.isDischarge, ht, job.qcName, yard, coords[ht])))
  }

  /** `Step` with the round's inputs fixed. */
  function StepOf(sectors: Sectors, yardPlan: map<string, string>, yardCost: (JobInfo, string) -> Cost,
                  available: seq<string>, coords: map<string, Coord>,
                  htCost: (JobInfo, string, Coord) -> Cost): (JobInfo, seq<string>) -> Option<PlannedJob>
  {
    (job, selected) => Step(sectors, job, selected, yardPlan, yardCost, available, coords, htCost)
  }

  /** One round: the jobs in order, each planned by `step` with the HTs of
      the jobs before it taken, up to the first job `step` cannot plan. */
  function Round(jobs: seq<JobInfo>, selected: seq<string>,
                 step: (JobInfo, seq<string>) -> Option<PlannedJob>): seq<PlannedJob>
    decreases |jobs|
  {
    if jobs == [] then []
    else
      match step(jobs[0], selected)
      case None => []
      case Some(p) => [p] + Round(jobs[1..], selected + [p.ht], step)
  }

  lemma HTsOfCons(p: PlannedJob, ps: seq<PlannedJob>)
    ensures HTsOf([p] + ps) == [p.ht] + HTsOf(ps)
  {
    assert |HTsOf([p] + ps)| == |[p.ht] + HTsOf(ps)|;
    forall i | 0 <= i < |[p] + ps| ensures HTsOf([p] + ps)[i] == ([p.ht] + HTsOf(ps))[i] {
      if i > 0 {
        assert ([p] + ps)[i] == ps[i - 1];
      }
    }
  }

  /** The HTs taken after a planned job and the rest of its round. */
  lemma TakenAfter(selected: seq<string>, p: PlannedJob, rest: seq<PlannedJob>)
    ensures selected + HTsOf([p] + rest) == (selected + [p.ht]) + HTsOf(rest)
  {
    HTsOfCons(p, rest);
  }

  /** A round plans no more jobs than it is given. */
  lemma {:induction false} RoundLength(jobs: seq<JobInfo>, selected: seq<string>,
                                       step: (JobInfo, seq<string>) -> Option<PlannedJob>)
    ensures |Round(jobs, selected, step)| <= |jobs|
    decreases |jobs|
  {
    if jobs != [] && step(jobs[0], selected).Some? {
      RoundLength(jobs[1..], selected + [step(jobs[0], selected).value.ht], step);
    }
  }

  /** A round plans a prefix of its jobs: the `k`-th planned job is the
      `k`-th job as `step` plans it with the HTs before it taken. */
  lemma {:induction false} RoundPlansAt(jobs: seq<JobInfo>, selected: seq<string>,
                                        step: (JobInfo, seq<string>) -> Option<PlannedJob>, k: nat)
    requires k < |Round(jobs, selected, step)|
    ensures k < |jobs|
    ensures var r := Round(jobs, selected, step);
      step(jobs[k], selected + HTsOf(r[..k])) == Some(r[k])
    decreases k
  {
    var r := Round(jobs, selected, step);
    var p := step(jobs[0], selected).value;
    var rest := Round(jobs[1..], selected + [p.ht], step);
    assert r == [p] + rest;
    if k == 0 {
      assert selected + HTsOf(r[..0]) == selected;
    } else {
      RoundPlansAt(jobs[1..], selected + [p.ht], step, k - 1);
      assert r[..k] == [p] + rest[..k - 1];
      TakenAfter(selected, p, rest[..k - 1]);
    }
  }

  /** A round stops only at a job `step` cannot plan: when jobs are left
      over, the first of them gets nothing with the round's HTs taken. */
  lemma {:induction false} RoundStops(jobs: seq<JobInfo>, selected: seq<string>,
                                      step: (JobInfo, seq<string>) -> Option<PlannedJob>)
    ensures var r := Round(jobs, selected, step);
      |r| < |jobs| ==> step(jobs[|r|], selected + HTsOf(r)) == None
    decreases |jobs|
  {
    if jobs != [] {
      var r := Round(jobs, selected, step);
      if step(jobs[0], selected).Some? {
        var p := step(jobs[0], selected).value;
        var rest := Round(jobs[1..], selected + [p.ht], step);
        RoundStops(jobs[1..], selected + [p.ht], step);
        assert r == [p] + rest;
        TakenAfter(selected, p, rest);
      } else {
        assert r == [];
        assert selected + HTsOf(r) == selected;
      }
    }
  }

  /** One more job planned: the round so far grows by `p` and its rest
      starts one job later with `p`'s HT taken. */
  lemma RoundStep(jobs: seq<JobInfo>, i: nat, planned: seq<PlannedJob>, selected: seq<string>,
                  step: (JobInfo, seq<string>) -> Option<PlannedJob>, p: PlannedJob)
    requires i < |jobs| && step(jobs[i], selected) == Some(p)
    requires Round(jobs, [], step) == planned + Round(jobs[i..], selected, step)
    ensures Round(jobs, [], step) == (planned + [p]) + Round(jobs[i + 1..], selected + [p.ht], step)
  {
    assert jobs[i..][0] == jobs[i];
    assert jobs[i..][1..] == jobs[i + 1..];
    var rest := Round(jobs[i + 1..], selected + [p.ht], step);
    assert Round(jobs[i..], selected, step) == [p] + rest;
    assert planned + ([p] + rest) == (planned + [p]) + rest;
  }

  /** The round ends at a job `step` cannot plan, or after the last job. */
  lemma RoundDone(jobs: seq<JobInfo>, i: nat, planned: seq<PlannedJob>, selected: seq<string>,
                  step: (JobInfo, seq<string>) -> Option<PlannedJob>)
    requires i <= |jobs| && (i < |jobs| ==> step(jobs[i], selected) == None)
    requires Round(jobs, [], step) == planned + Round(jobs[i..], selected, step)
    ensures Round(jobs, [], step) == planned
  {
    if i < |jobs| {
      assert jobs[i..][0] == jobs[i];
    } else {
      assert jobs[i..] == [];
    }
    assert planned + [] == planned;
  }

  /** A step that never picks a taken HT. */
  ghost predicate PicksFreeHT(step: (JobInfo, seq<string>) -> Option<PlannedJob>) {
    forall job, selected :: step(job, selected).Some? ==> step(job, selected).value.ht !in selected
  }

  /** With such a step the HTs of a round are pairwise distinct and distinct
      from those taken before it. */
  lemma {:induction false} RoundDistinctHTs(jobs: seq<JobInfo>, selected: seq<string>,
                                            step: (JobInfo, seq<string>) -> Option<PlannedJob>)
    requires NoDup(selected) && PicksFreeHT(step)
    ensures NoDup(selected + HTsOf(Round(jobs, selected, step)))
    decreases |jobs|
  {
    if jobs != [] && step(jobs[0], selected).Some? {
      var p := step(jobs[0], selected).value;
      var rest := Round(jobs[1..], selected + [p.ht], step);
      assert p.ht !in selected;
      assert NoDup(selected + [p.ht]);
      RoundDistinctHTs(jobs[1..], selected + [p.ht], step);
      TakenAfter(selected, p, rest);
    } else {
      assert selected + [] == selected;
    }
  }

  /** `plan`'s step takes a free HT that is available and placed, keeps
      the job, gives it its assigned yard and eight instructions whose two
      return drives end at the HT's position. */
  lemma StepPlansJob(sectors: Sectors, job: JobInfo, selected: seq<string>,
                     yardPlan: map<string, string>, yardCost: (JobInfo, string) -> Cost,
                     available: seq<string>, coords: map<string, Coord>,
                     htCost: (JobInfo, string, Coord) -> Cost)
    ensures var yard := AssignedYard(job, yardPlan, yardCost);
      Step(sectors, job, selected, yardPlan, yardCost, available, coords, htCost).None? <==>
        HTChoice(job, yard, selected, available, coords, htCost).None?
    ensures var r := Step(sectors, job, selected, yardPlan, yardCost, available, coords, htCost);
      r.Some? ==>
        r.value.job == job && r.value.yard == AssignedYard(job, yardPlan, yardCost) &&
        r.value.ht in available && r.value.ht !in selected && r.value.ht in coords &&
        |r.value.instructions| == 8 &&
        r.value.instructions[3].Drive? && Last(r.value.instructions[3].path) == coords[r.value.ht] &&
        r.value.instructions[7].Drive? && Last(r.value.instructions[7].path) == coords[r.value.ht]
  {
    var yard := AssignedYard(job, yardPlan, yardCost);
    var c := HTChoice(job, yard, selected, available, coords, htCost);
    if c.Some? {
      DrivesReturnToBuffer(sectors, job.isDischarge, c.value, job.qcName, yard, coords[c.value]);
    }
  }

  lemma StepPicksFreeHT(sectors: Sectors, yardPlan: map<string, string>, yardCost: (JobInfo, string) -> Cost,
                        available: seq<string>, coords: map<string, Coord>,
                        htCost: (JobInfo, string, Coord) -> Cost)
    ensures PicksFreeHT(StepOf(sectors, yardPlan, yardCost, available, coords, htCost))
  {
    var step := StepOf(sectors, yardPlan, yardCost, available, coords, htCost);
    forall job, selected | step(job, selected).Some? ensures step(job, selected).value.ht !in selected {
      StepPlansJob(sectors, job, selected, yardPlan, yardCost, available, coords, htCost);
    }
  }

  /** The HTs of a planning round are pairwise distinct. */
  lemma RoundHTsDistinct(sectors: Sectors, jobs: seq<JobInfo>,
                         yardPlan: map<string, string>, yardCost: (JobInfo, string) -> Cost,
                         available: seq<string>, coords: map<string, Coord>,
                         htCost: (JobInfo, string, Coord) -> Cost)
    ensures NoDup(HTsOf(Round(jobs, [], StepOf(sectors, yardPlan, yardCost, available, coords, htCost))))
  {
    var step := StepOf(sectors, yardPlan, yardCost, available, coords, htCost);
    StepPicksFreeHT(sectors, yardPlan, yardCost, available, coords, htCost);
    RoundDistinctHTs(jobs, [], step);
    assert [] + HTsOf(Round(jobs, [], step)) == HTsOf(Round(jobs, [], step));
  }

  lemma PlannedSnoc(ps: seq<PlannedJob>, p: PlannedJob)
    ensures HTsOf(ps + [p]) == HTsOf(ps) + [p.ht]
    ensures UsedYards(ps + [p]) == UsedYards(ps) + (if p.yard != "" then [p.yard] else [])
    ensures DischargeYards(ps + [p]) ==
      DischargeYards(ps) + (if p.job.isDischarge && p.yard != "" then [p.yard] else [])
  {
    assert (ps + [p])[..|ps|] == ps;
  }

  /** `_corridor_history` after a round: decayed at the start and counted by
      yard side at the end when `dynamic_corridor_bias` is on; untouched
      otherwise. */
  function CorridorAfter(history: map<Side, int>, dynamic: bool, used: seq<string>): map<Side, int> {
    CorridorCounted(if dynamic then CorridorDecayed(history) else history, dynamic, used)
  }

  /** The end of a round for `_corridor_history`: with
      `dynamic_corridor_bias` each used yard counts once more for its side. */
  function CorridorCounted(history: map<Side, int>, dynamic: bool, used: seq<string>): map<Side, int> {
    if dynamic && used != [] then AddAll(history, Map(used, YardSide)) else history
  }

  /** `_recent_yard_usage` after a round that used `used`: unchanged when no
      yard was used, else one decay and then each used yard counted once
      more. */
  function UsageAfter(usage: map<string, int>, used: seq<string>): map<string, int> {
    if used == [] then usage else AddAll(Decayed(usage), used)
  }

  /** Mapping one more yard to its side. */
  lemma MapSnoc(used: seq<string>, i: nat)
    requires i < |used|
    ensures Map(used[..i + 1], YardSide) == Map(used[..i], YardSide) + [YardSide(used[i])]
  {
    assert used[..i + 1] == used[..i] + [used[i]];
    MapAppend(used[..i], [used[i]], YardSide);
    assert Map([used[i]], YardSide) == [YardSide(used[i])];
  }

  /** `counter[name] += 1` for each name in turn. */
  method CountAll(m: map<string, int>, names: seq<string>) returns (counted: map<string, int>)
    ensures counted == AddAll(m, names)
  {
    counted := m;
    var i := 0;
    while i < |names|
      invariant i <= |names|
      invariant counted == AddAll(m, names[..i])
    {
      assert names[..i + 1] == names[..i] + [names[i]];
      AddAllSnoc(m, names[..i], names[i]);
      counted := counted[names[i] := Count(counted, names[i]) + 1];
      i := i + 1;
    }
    assert names[..i] == names;
  }

  /** The `_corridor_history[side] += 1` loop over the round's yards: each
      yard counts once more for its side. */
  method CountSides(history: map<Side, int>, used: seq<string>) returns (counted: map<Side, int>)
    ensures counted == AddAll(history, Map(used, YardSide))
  {
    counted := history;
    ghost var sides: seq<Side> := [];
    var i := 0;
    while i < |used|
      invariant i <= |used|
      invariant sides == Map(used[..i], YardSide)
      invariant counted == AddAll(history, sides)
    {
      var side := YardSide(used[i]);
      MapSnoc(used, i);
      AddAllSnoc(history, sides, side);
      counted := counted[side := Count(counted, side) + 1];
      sides := sides + [side];
      i := i + 1;
    }
    assert used[..i] == used;
  }

  class JobPlanner {
    const sectors: Sectors
    var features: map<string, bool>
    var latestYardPlan: map<string, string>
    var recentYardUsage: map<string, int>
    var corridorHistory: map<Side, int>
    var pathCache: map<PathKey, seq<Coord>>
    var yardDiAllocation: map<string, int>
    /** How many times a path builder has run. */
    ghost var builds: nat

    /** Every flag is present and every cached path is the path its key's
        builder makes. */
    ghost predicate Valid()
      reads this
    {
      (forall n :: n in KnownFlags ==> n in features) &&
      forall k :: k in pathCache ==> pathCache[k] == BuildPath(sectors, k)
    }

    /** `__init__`: the flags from the environment and the overrides, and
        empty counters and caches. */
    constructor(sectors: Sectors, env: string, overrides: map<string, bool>)
      ensures Valid()
      ensures this.sectors == sectors
      ensures features.Keys == Defaults().Keys + overrides.Keys
      ensures forall n :: n in overrides ==> features[n] == overrides[n]
      ensures forall n :: n in KnownFlags && n !in overrides ==> features[n] == FlagAfter(Split(env, ','), n)
      ensures latestYardPlan == map[] && recentYardUsage == map[] && corridorHistory == map[]
      ensures pathCache == map[] && yardDiAllocation == map[] && builds == 0
    {
      this.sectors := sectors;
      var parsed := ParseFeatures(env, overrides);
      features := parsed;
      latestYardPlan := map[];
      recentYardUsage := map[];
      corridorHistory := map[];
      pathCache := map[];
      yardDiAllocation := map[];
      builds := 0;
    }

    /** `_apply_yard_usage_decay`. */
    method ApplyYardUsageDecay()
      modifies this
      ensures recentYardUsage == Decayed(old(recentYardUsage))
      ensures unchanged(`features, `pathCache, `corridorHistory, `yardDiAllocation, `latestYardPlan, `builds)
    {
      if recentYardUsage == map[] {
        return;
      }
      var usage := recentYardUsage;
      var keys := usage.Keys;
      while keys != {}
        invariant keys <= recentYardUsage.Keys
        invariant forall k :: k in usage <==> (k in keys && k in recentYardUsage) || k in Decayed(recentYardUsage)
        invariant forall k :: k in usage && k in keys ==> usage[k] == recentYardUsage[k]
        invariant forall k :: k in usage && k !in keys ==> usage[k] == Decayed(recentYardUsage)[k]
        decreases keys
      {
        var k :| k in keys;
        var decayed := usage[k] - 1;
        if decayed > 0 {
          usage := usage[k := decayed];
        } else {
          usage := usage - {k};
        }
        keys := keys - {k};
      }
      assert usage.Keys == Decayed(recentYardUsage).Keys;
      recentYardUsage := usage;
    }

    /** `_apply_corridor_history_decay`. */
    method ApplyCorridorHistoryDecay()
      modifies this
      ensures corridorHistory == CorridorDecayed(old(corridorHistory))
      ensures unchanged(`features, `pathCache, `recentYardUsage, `yardDiAllocation, `latestYardPlan, `builds)
    {
      if corridorHistory == map[] {
        return;
      }
      var history := corridorHistory;
      var sides := [West, East];
      var i := 0;
      while i < 2
        invariant 0 <= i <= 2
        invariant history.Keys == corridorHistory.Keys
        invariant forall s :: s in history && s in sides[..i] ==> history[s] == CorridorDecayed(corridorHistory)[s]
        invariant forall s :: s in history && s !in sides[..i] ==> history[s] == corridorHistory[s]
      {
        var side := sides[i];
        assert sides[..i + 1] == sides[..i] + [side];
        var current := Count(history, side);
        if current > 0 {
          history := history[side := if current - 1 > 0 then current - 1 else 0];
        }
        i := i + 1;
      }
      assert sides[..i] == [West, East];
      forall s | s in history ensures history[s] == CorridorDecayed(corridorHistory)[s] {
        assert s == West || s == East;
        assert s in sides[..i];
      }
      assert history == CorridorDecayed(corridorHistory);
      corridorHistory := history;
    }

    /** `_build_path_with_cache`: with the cache off the builder runs every
        time; with it on, a key already cached is answered from the cache
        without running the builder, and a new key is built and stored. */
    method BuildPathWithCache(key: PathKey) returns (path: seq<Coord>)
      requires Valid()
      modifies this
      ensures Valid()
      ensures path == BuildPath(sectors, key)
      ensures !features[PathCache] ==> pathCache == old(pathCache) && builds == old(builds) + 1
      ensures features[PathCache] && key in old(pathCache) ==> pathCache == old(pathCache) && builds == old(builds)
      ensures features[PathCache] && key !in old(pathCache) ==>
        pathCache == old(pathCache)[key := path] && builds == old(builds) + 1
      ensures unchanged(`features, `recentYardUsage, `corridorHistory, `yardDiAllocation, `latestYardPlan)
    {
      if !features[PathCache] {
        builds := builds + 1;
        return BuildPath(sectors, key);
      }
      if key !in pathCache {
        builds := builds + 1;
        path := BuildPath(sectors, key);
        pathCache := pathCache[key := path];
        return path;
      }
      return pathCache[key];
    }

    /** The instruction list `plan` builds for one job, fetching each drive's
        path through the cache. */
    method BuildInstructions(isDischarge: bool, ht: string, qc: string, yard: string, buffer: Coord)
      returns (instructions: seq<Instruction>)
      requires Valid()
      modifies this
      ensures Valid()
      ensures instructions == Instructions(sectors, isDischarge, ht, qc, yard, buffer)
      ensures old(pathCache).Keys <= pathCache.Keys
      ensures unchanged(`features, `recentYardUsage, `corridorHistory, `yardDiAllocation, `latestYardPlan)
    {
      if isDischarge {
        var toQC := BuildPathWithCache(ToQC(buffer, qc));
        var fromQC := BuildPathWithCache(FromQC(qc, buffer));
        var toYard := BuildPathWithCache(ToYard(buffer, yard));
        var fromYard := BuildPathWithCache(FromYard(yard, buffer));
        instructions := JobInstructions(true, QCLeg(ht, qc, toQC, fromQC), YardLeg(ht, yard, toYard, fromYard));
      } else {
        var toYard := BuildPathWithCache(ToYard(buffer, yard));
        var fromYard := BuildPathWithCache(FromYard(yard, buffer));
        var toQC := BuildPathWithCache(ToQC(buffer, qc));
        var fromQC := BuildPathWithCache(FromQC(qc, buffer));
        instructions := JobInstructions(false, QCLeg(ht, qc, toQC, fromQC), YardLeg(ht, yard, toYard, fromYard));
      }
    }

    /** `select_HT`: the first HT of `available` that is neither chosen yet
        nor without a coordinate and whose cost is strictly below every
        earlier one; none when every such cost is infinite. */
    method SelectHT(job: JobInfo, selected: seq<string>, yard: string, available: seq<string>,
                    coords: map<string, Coord>, htCost: (JobInfo, string, Coord) -> Cost)
      returns (choice: Option<string>)
      ensures choice == HTChoice(job, yard, selected, available, coords, htCost)
    {
      var f := HTCost(job, yard, selected, coords, htCost);
      choice := None;
      var best := Infinite;
      var i := 0;
      while i < |available|
        invariant i <= |available|
        invariant (choice, best) == FirstMin(available[..i], f)
      {
        var h := available[i];
        assert available[..i + 1][..i] == available[..i];
        if h !in selected && h in coords {
          var cost := htCost(job, yard, coords[h]);
          if Cheaper(cost, best) {
            best := cost;
            choice := Some(h);
          }
        }
        i := i + 1;
      }
      assert available[..i] == available;
    }

    /** `_select_best_yard`. */
    method SelectBestYard(job: JobInfo, options: seq<string>, yardCost: (JobInfo, string) -> Cost)
      returns (yard: string)
      requires |options| > 0
      ensures yard == BestYard(job, options, yardCost)
    {
      var f := y => yardCost(job, y);
      var choice: Option<string> := None;
      var best := Infinite;
      var i := 0;
      while i < |options|
        invariant i <= |options|
        invariant (choice, best) == FirstMin(options[..i], f)
      {
        assert options[..i + 1][..i] == options[..i];
        var cost := yardCost(job, options[i]);
        if Cheaper(cost, best) {
          best := cost;
          choice := Some(options[i]);
        }
        i := i + 1;
      }
      assert options[..i] == options;
      yard := if choice.Some? then choice.value else options[0];
    }

    /** `select_yard`, reading the plan of the last yard optimisation. */
    method SelectYard(job: JobInfo, yardCost: (JobInfo, string) -> Cost) returns (yard: string)
      ensures yard == ChosenYard(job, latestYardPlan, yardCost)
    {
      if job.jobSeq in latestYardPlan {
        return latestYardPlan[job.jobSeq];
      }
      var options := EnumerateYardOptions(job.yardName, job.altYardNames);
      if |options| == 0 {
        return job.yardName;
      }
      yard := SelectBestYard(job, options, yardCost);
    }

    /** The body of `plan`'s job loop up to the allocation count: the
        job's yard, its HT and, when there is one, its instructions. */
    method PlanJob(job: JobInfo, selected: seq<string>, available: seq<string>, coords: map<string, Coord>,
                   yardCost: (JobInfo, string) -> Cost, htCost: (JobInfo, string, Coord) -> Cost)
      returns (result: Option<PlannedJob>)
      requires Valid()
      modifies this
      ensures Valid()
      ensures result == StepOf(sectors, latestYardPlan, yardCost, available, coords, htCost)(job, selected)
      ensures old(pathCache).Keys <= pathCache.Keys
      ensures unchanged(`features, `recentYardUsage, `corridorHistory, `yardDiAllocation, `latestYardPlan)
    {
      var yard := job.yardName;
      if job.isDischarge {
        var chosen := SelectYard(job, yardCost);
        if chosen != "" {
          yard := chosen;
        }
      }
      var ht := SelectHT(job, selected, yard, available, coords, htCost);
      if ht.None? {
        return None;
      }
      var buffer := coords[ht.value];
      var instructions := BuildInstructions(job.isDischarge, ht.value, job.qcName, yard, buffer);
      return Some(PlannedJob(job, ht.value, yard, instructions));
    }

    /** The end of `plan` when some yard was used: one decay of the usage
        record, the round's yards counted into it and, with
        `dynamic_corridor_bias`, into the corridor history by side. */
    method RecordRoundUsage(used: seq<string>)
      requires Valid() && used != []
      modifies this
      ensures Valid()
      ensures recentYardUsage == AddAll(Decayed(old(recentYardUsage)), used)
      ensures corridorHistory == CorridorCounted(old(corridorHistory), features[DynamicCorridorBias], used)
      ensures unchanged(`features, `pathCache, `builds, `yardDiAllocation, `latestYardPlan)
    {
      ApplyYardUsageDecay();
      recentYardUsage := AddAll(recentYardUsage, used);
      if features[DynamicCorridorBias] {
        corridorHistory := CountSides(corridorHistory, used);
      }
    }

    /** The end of `plan`: the discharge yards counted into the allocation
        record, then the usage and corridor records of the round. */
    method FinishRound(used: seq<string>, discharged: seq<string>)
      requires Valid()
      modifies this
      ensures Valid()
      ensures yardDiAllocation == AddAll(old(yardDiAllocation), discharged)
      ensures recentYardUsage == UsageAfter(old(recentYardUsage), used)
      ensures corridorHistory == CorridorCounted(old(corridorHistory), features[DynamicCorridorBias], used)
      ensures unchanged(`features, `pathCache, `builds, `latestYardPlan)
    {
      yardDiAllocation := CountAll(yardDiAllocation, discharged);
      if |used| > 0 {
        RecordRoundUsage(used);
      }
    }

    /** The start of `plan`: with `dynamic_corridor_bias` one decay of the
        corridor history; the yard plan of this round recorded. */
    method StartRound(yardPlan: map<string, string>)
      requires Valid()
      modifies this
      ensures Valid()
      ensures latestYardPlan == yardPlan
      ensures corridorHistory ==
        if features[DynamicCorridorBias] then CorridorDecayed(old(corridorHistory)) else old(corridorHistory)
      ensures unchanged(`features, `pathCache, `builds, `recentYardUsage, `yardDiAllocation)
    {
      if features[DynamicCorridorBias] {
        ApplyCorridorHistoryDecay();
      }
      latestYardPlan := yardPlan;
    }

    /** `plan`'s job loop: the round `Round` describes; also the round's
        used yards and the yards of its discharge jobs. */
    method PlanJobs(jobs: seq<JobInfo>, available: seq<string>, coords: map<string, Coord>,
                    yardCost: (JobInfo, string) -> Cost, htCost: (JobInfo, string, Coord) -> Cost)
      returns (planned: seq<PlannedJob>, used: seq<string>, discharged: seq<string>)
      requires Valid()
      modifies this
      ensures Valid()
      ensures planned == Round(jobs, [], StepOf(sectors, latestYardPlan, yardCost, available, coords, htCost))
      ensures used == UsedYards(planned) && discharged == DischargeYards(planned)
      ensures old(pathCache).Keys <= pathCache.Keys
      ensures unchanged(`features, `recentYardUsage, `corridorHistory, `yardDiAllocation, `latestYardPlan)
    {
      ghost var step := StepOf(sectors, latestYardPlan, yardCost, available, coords, htCost);
      planned := [];
      used := [];
      discharged := [];
      var selected: seq<string> := [];
      var i := 0;
      assert jobs[i..] == jobs;
      while i < |jobs|
        invariant i <= |jobs|
        invariant Valid()
        invariant Round(jobs, [], step) == planned + Round(jobs[i..], selected, step)
        invariant selected == HTsOf(planned)
        invariant used == UsedYards(planned) && discharged == DischargeYards(planned)
        invariant old(pathCache).Keys <= pathCache.Keys
        invariant unchanged(`features, `recentYardUsage, `corridorHistory, `yardDiAllocation, `latestYardPlan)
      {
        var result := PlanJob(jobs[i], selected, available, coords, yardCost, htCost);
        if result.None? {
          break;
        }
        var p := result.value;
        RoundStep(jobs, i, planned, selected, step, p);
        PlannedSnoc(planned, p);
        selected := selected + [p.ht];
        if p.yard != "" {
          used := used + [p.yard];
        }
        if p.job.isDischarge && p.yard != "" {
          discharged := discharged + [p.yard];
        }
        planned := planned + [p];
        i := i + 1;
      }
      RoundDone(jobs, i, planned, selected, step);
    }

    /** `plan`: one planning round over the plannable jobs, in order. Each
        job gets its yard, an HT not yet used this round and its eight
        instructions; the round stops at the first job no HT can take.
        Each planned discharge job with a yard counts for that yard in the
        allocation record. Afterwards the round's yards are counted into
        the usage record (after one decay) and, with
        `dynamic_corridor_bias`, into the corridor history. The path cache
        only grows, and (by `Valid`) every cached path is its builder's;
        which keys the round adds is not stated. `yardPlan` stands for the
        result of the yard optimisation. */
    method Plan(jobs: seq<JobInfo>, yardPlan: map<string, string>, available: seq<string>,
                coords: map<string, Coord>, yardCost: (JobInfo, string) -> Cost,
                htCost: (JobInfo, string, Coord) -> Cost)
      returns (planned: seq<PlannedJob>)
      requires Valid()
      modifies this
      ensures Valid()
      ensures planned == Round(jobs, [], StepOf(sectors, yardPlan, yardCost, available, coords, htCost))
      ensures latestYardPlan == yardPlan && features == old(features)
      ensures old(pathCache).Keys <= pathCache.Keys
      ensures yardDiAllocation == AddAll(old(yardDiAllocation), DischargeYards(planned))
      ensures recentYardUsage == UsageAfter(old(recentYardUsage), UsedYards(planned))
      ensures corridorHistory == CorridorAfter(old(corridorHistory), features[DynamicCorridorBias], UsedYards(planned))
    {
      StartRound(yardPlan);
      var used, discharged;
      planned, used, discharged := PlanJobs(jobs, available, coords, yardCost, htCost);
      FinishRound(used, discharged);
    }
  }
}
