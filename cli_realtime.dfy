/** The progress producer of cli_realtime.py: the payload of each progress
    event, the order of the broadcast events, and the exit guards of `main`.
    Record contents, sleeps and printing are not modelled; only the record
    count matters to the events. */
module CliRealtime {
  import opened Wrappers
  import opened Stats

  /** The three broadcasts of `run_simulation_with_updates`. The start and
      complete events carry status "running" and "completed". */
  datatype Event =
    | SimulationStart(totalRecords: nat)
    | SimulationProgress(payload: StatsData)
    | SimulationComplete(totalRecords: nat)

  function StatusOf(e: Event): string {
    match e
    case SimulationStart(_) => "running"
    case SimulationProgress(_) => "running"
    case SimulationComplete(_) => "completed"
  }

  function Min(a: int, b: int): int {
    if a <= b then a else b
  }

  /** `min(capacity, (i % capacity) + 1)`. */
  function ActiveCount(i: nat, capacity: nat): (r: int)
    requires capacity > 0
    ensures 1 <= r <= capacity
  {
    Min(capacity, (i % capacity) + 1)
  }

  /** The payload for record `i` (1-based) of `total`, leaving out the
      floating-point `progress` percentage. */
  function ProgressPayload(i: nat, total: nat): (r: StatsData)
    requires 1 <= i <= total
    ensures r.completedJobs + r.remainingJobs == total
    ensures 0 <= r.remainingJobs < total && 1 <= r.completedJobs <= total
    ensures Balanced(r)
    ensures 1 <= r.activeQC <= QuayCranes && 0 <= r.idleQC < QuayCranes
    ensures 1 <= r.movingHT <= HorizontalTransports && 0 <= r.nonMovingHT < HorizontalTransports
    ensures 1 <= r.activeYard <= YardBlocks && 0 <= r.idleYard < YardBlocks
  {
    StatsData(
      i, total - i, i * 10,
      ActiveCount(i, QuayCranes), QuayCranes - ActiveCount(i, QuayCranes),
      ActiveCount(i, HorizontalTransports), HorizontalTransports - ActiveCount(i, HorizontalTransports),
      ActiveCount(i, YardBlocks), YardBlocks - ActiveCount(i, YardBlocks))
  }

  /** The simulated clock advances by ten per record, so it strictly
      increases from one progress event to the next. */
  lemma ProgressTimeIncreases(i: nat, j: nat, total: nat)
    requires 1 <= i < j <= total
    ensures ProgressPayload(i, total).currentTime < ProgressPayload(j, total).currentTime
    ensures ProgressPayload(j, total).currentTime - ProgressPayload(i, total).currentTime == 10 * (j - i)
  {
  }

  /** `run_simulation_with_updates` over `total` records: the broadcasts, in
      the order they are sent. */
  method RunSimulationWithUpdates(total: nat) returns (events: seq<Event>)
    ensures |events| == total + 2
    ensures events[0] == SimulationStart(total)
    ensures forall k :: 1 <= k <= total ==> events[k] == SimulationProgress(ProgressPayload(k, total))
    ensures events[total + 1] == SimulationComplete(total)
  {
    events := [SimulationStart(total)];
    var i := 1;
    while i <= total
      invariant 1 <= i <= total + 1
      invariant |events| == i
      invariant events[0] == SimulationStart(total)
      invariant forall k :: 1 <= k < i ==> events[k] == SimulationProgress(ProgressPayload(k, total))
    {
      events := events + [SimulationProgress(ProgressPayload(i, total))];
      i := i + 1;
    }
    events := events + [SimulationComplete(total)];
  }

  /** What `main` ends with: an exit code, or the broadcasts of a full run. */
  datatype Outcome = Exit(code: int) | Ran(events: seq<Event>)

  /** `main`: `inputExists` stands for `data/input.csv` existing and `loaded`
      for `load_csv_data`, `None` when reading fails and otherwise the number
      of records. */
  method RunMain(inputExists: bool, loaded: Option<nat>) returns (r: Outcome)
    ensures r.Exit? <==> !inputExists || loaded.None? || loaded.value == 0
    ensures r.Exit? ==> r.code == 1
    ensures r.Ran? ==> loaded.Some? && |r.events| == loaded.value + 2
    ensures r.Ran? ==> r.events[0] == SimulationStart(loaded.value)
    ensures r.Ran? ==> forall k :: 1 <= k <= loaded.value ==>
      r.events[k] == SimulationProgress(ProgressPayload(k, loaded.value))
    ensures r.Ran? ==> r.events[loaded.value + 1] == SimulationComplete(loaded.value)
  {
    if !inputExists {
      return Exit(1);
    }
    if loaded.None? {
      return Exit(1);
    }
    if loaded.value == 0 {
      return Exit(1);
    }
    var events := RunSimulationWithUpdates(loaded.value);
    return Ran(events);
  }
}
