/** The statistics panel of src/components/SimulationStats.ts: nine counters
    over fixed defaults, a partial-update merge with an update counter, and
    the seconds-to-`HH:MM:SS` formatter. Rendering is not modelled. */
module Stats {
  import opened Wrappers
  import opened Text

  /** `SimulationStatsData`. */
  datatype StatsData = StatsData(
    completedJobs: int, remainingJobs: int, currentTime: int,
    activeQC: int, idleQC: int,
    movingHT: int, nonMovingHT: int,
    activeYard: int, idleYard: int)

  /** `Partial<SimulationStatsData>`: a field is `Some` when the update carries it. */
  datatype StatsUpdate = StatsUpdate(
    completedJobs: Option<int>, remainingJobs: Option<int>, currentTime: Option<int>,
    activeQC: Option<int>, idleQC: Option<int>,
    movingHT: Option<int>, nonMovingHT: Option<int>,
    activeYard: Option<int>, idleYard: Option<int>)

  /** The names of the nine fields, to speak about them uniformly. */
  datatype Key =
    CompletedJobs | RemainingJobs | CurrentTime | ActiveQC | IdleQC
    | MovingHT | NonMovingHT | ActiveYard | IdleYard

  const QuayCranes := 8
  const HorizontalTransports := 80
  const YardBlocks := 16
  const InitialJobs := 20000

  function Field(s: StatsData, k: Key): int {
    match k
    case CompletedJobs => s.completedJobs
    case RemainingJobs => s.remainingJobs
    case CurrentTime => s.currentTime
    case ActiveQC => s.activeQC
    case IdleQC => s.idleQC
    case MovingHT => s.movingHT
    case NonMovingHT => s.nonMovingHT
    case ActiveYard => s.activeYard
    case IdleYard => s.idleYard
  }

  function UpdateField(u: StatsUpdate, k: Key): Option<int> {
    match k
    case CompletedJobs => u.completedJobs
    case RemainingJobs => u.remainingJobs
    case CurrentTime => u.currentTime
    case ActiveQC => u.activeQC
    case IdleQC => u.idleQC
    case MovingHT => u.movingHT
    case NonMovingHT => u.nonMovingHT
    case ActiveYard => u.activeYard
    case IdleYard => u.idleYard
  }

  /** The initial `stats` object. */
  function DefaultStats(): StatsData {
    StatsData(0, InitialJobs, 0, 0, QuayCranes, 0, HorizontalTransports, 0, YardBlocks)
  }

  /** The defaults: no job done, every resource idle. */
  lemma DefaultsIdle()
    ensures Balanced(DefaultStats())
    ensures DefaultStats().completedJobs + DefaultStats().remainingJobs == InitialJobs
    ensures forall k: Key :: k in {CompletedJobs, CurrentTime, ActiveQC, MovingHT, ActiveYard} ==> Field(DefaultStats(), k) == 0
  {
  }

  function Take(u: Option<int>, current: int): int {
    if u.Some? then u.value else current
  }

  /** `{ ...stats, ...update }`: each field the update carries wins, every
      other field keeps its value. */
  function Merge(s: StatsData, u: StatsUpdate): (r: StatsData)
    ensures forall k: Key :: Field(r, k) == if UpdateField(u, k).Some? then UpdateField(u, k).value else Field(s, k)
  {
    StatsData(
      Take(u.completedJobs, s.completedJobs), Take(u.remainingJobs, s.remainingJobs),
      Take(u.currentTime, s.currentTime),
      Take(u.activeQC, s.activeQC), Take(u.idleQC, s.idleQC),
      Take(u.movingHT, s.movingHT), Take(u.nonMovingHT, s.nonMovingHT),
      Take(u.activeYard, s.activeYard), Take(u.idleYard, s.idleYard))
  }

  /** Active plus idle is the fleet size for each resource class. */
  predicate Balanced(s: StatsData) {
    && s.activeQC + s.idleQC == QuayCranes
    && s.movingHT + s.nonMovingHT == HorizontalTransports
    && s.activeYard + s.idleYard == YardBlocks
  }

  /** An update that carries each active/idle pair completely, with the right
      sum, or not at all. */
  predicate PairsComplete(u: StatsUpdate) {
    && (u.activeQC.Some? <==> u.idleQC.Some?)
    && (u.activeQC.Some? ==> u.activeQC.value + u.idleQC.value == QuayCranes)
    && (u.movingHT.Some? <==> u.nonMovingHT.Some?)
    && (u.movingHT.Some? ==> u.movingHT.value + u.nonMovingHT.value == HorizontalTransports)
    && (u.activeYard.Some? <==> u.idleYard.Some?)
    && (u.activeYard.Some? ==> u.activeYard.value + u.idleYard.value == YardBlocks)
  }

  /** Applying the same update a second time changes nothing more. */
  lemma MergeIdempotent(s: StatsData, u: StatsUpdate)
    ensures Merge(Merge(s, u), u) == Merge(s, u)
  {
  }

  lemma MergeKeepsBalanced(s: StatsData, u: StatsUpdate)
    requires Balanced(s) && PairsComplete(u)
    ensures Balanced(Merge(s, u))
  {
  }

  /** The stats after a sequence of `updateStats` calls. */
  function ApplyAll(s: StatsData, us: seq<StatsUpdate>): StatsData
    decreases |us|
  {
    if us == [] then s else ApplyAll(Merge(s, us[0]), us[1..])
  }

  /** The value of field `k` after the updates, read off directly: the value
      of the last update that carries `k`, or the starting value. */
  function LastCarried(us: seq<StatsUpdate>, k: Key, start: int): int {
    if us == [] then start
    else if UpdateField(us[|us| - 1], k).Some? then UpdateField(us[|us| - 1], k).value
    else LastCarried(us[..|us| - 1], k, start)
  }

  lemma {:induction false} ApplyAllSnoc(s: StatsData, us: seq<StatsUpdate>, u: StatsUpdate)
    ensures ApplyAll(s, us + [u]) == Merge(ApplyAll(s, us), u)
    decreases |us|
  {
    if us != [] {
      assert (us + [u])[1..] == us[1..] + [u];
      ApplyAllSnoc(Merge(s, us[0]), us[1..], u);
    }
  }

  /** Over a sequence of updates, each field takes the value of the last
      update that carried it. */
  lemma {:induction false} ApplyAllLastWins(s: StatsData, us: seq<StatsUpdate>, k: Key)
    ensures Field(ApplyAll(s, us), k) == LastCarried(us, k, Field(s, k))
    decreases |us|
  {
    if us != [] {
      var p := us[..|us| - 1];
      assert us == p + [us[|us| - 1]];
      ApplyAllSnoc(s, p, us[|us| - 1]);
      ApplyAllLastWins(s, p, k);
    }
  }

  /** Updates that carry pairs completely keep every class balanced. */
  lemma {:induction false} ApplyAllKeepsBalanced(s: StatsData, us: seq<StatsUpdate>)
    requires Balanced(s)
    requires forall i :: 0 <= i < |us| ==> PairsComplete(us[i])
    ensures Balanced(ApplyAll(s, us))
    decreases |us|
  {
    if us != [] {
      MergeKeepsBalanced(s, us[0]);
      ApplyAllKeepsBalanced(Merge(s, us[0]), us[1..]);
    }
  }

  /** The `SimulationStats` component without its DOM container. */
  class SimulationStats {
    var stats: StatsData
    var updateCounter: nat

    constructor ()
      ensures stats == DefaultStats() && updateCounter == 0
    {
      stats := DefaultStats();
      updateCounter := 0;
    }

    /** `updateStats`: count the call and merge the partial update. */
    method UpdateStats(u: StatsUpdate)
      modifies this
      ensures updateCounter == old(updateCounter) + 1
      ensures stats == Merge(old(stats), u)
    {
      updateCounter := updateCounter + 1;
      stats := Merge(stats, u);
    }

    /** A sequence of calls: the counter grows by the number of calls and the
        stats are the fold of the merges. */
    method UpdateStatsAll(us: seq<StatsUpdate>)
      modifies this
      ensures updateCounter == old(updateCounter) + |us|
      ensures stats == ApplyAll(old(stats), us)
    {
      var i := 0;
      while i < |us|
        invariant 0 <= i <= |us|
        invariant updateCounter == old(updateCounter) + i
        invariant stats == ApplyAll(old(stats), us[..i])
      {
        ApplyAllSnoc(old(stats), us[..i], us[i]);
        assert us[..i + 1] == us[..i] + [us[i]];
        UpdateStats(us[i]);
        i := i + 1;
      }
      assert us[..i] == us;
    }
  }

  /** `Math.floor(s / 3600)`, `Math.floor((s % 3600) / 60)`, `s % 60` for a
      non-negative whole number of seconds. */
  function TimeParts(seconds: nat): (r: (nat, nat, nat))
    ensures r.0 * 3600 + r.1 * 60 + r.2 == seconds
    ensures r.1 < 60 && r.2 < 60
  {
    var h, rest := seconds / 3600, seconds % 3600;
    var m, s := rest / 60, seconds % 60;
    MinutesAndSeconds(seconds, h, rest);
    (h, m, s)
  }

  /** Splitting the remainder below an hour into minutes and seconds. */
  lemma MinutesAndSeconds(seconds: nat, h: nat, rest: nat)
    requires h == seconds / 3600 && rest == seconds % 3600
    ensures h * 3600 + (rest / 60) * 60 + seconds % 60 == seconds
    ensures rest / 60 < 60
  {
    assert seconds == (h * 60) * 60 + rest;
    assert rest == (rest / 60) * 60 + rest % 60;
    assert seconds % 60 == rest % 60;
  }

  /** `n.toString().padStart(2, '0')`. */
  function TwoDigits(n: nat): (r: string)
    ensures |r| >= 2 && AllDigits(r)
    ensures DigitsValue(r) == n
  {
    var d := NatToString(n);
    var r := PadZeros(d, 2);
    LeadingZeros(|r| - |d|, d);
    NatToStringValue(n);
    r
  }

  /** `formatTime`. */
  function FormatTime(seconds: nat): string {
    var t := TimeParts(seconds);
    Clock(t.0, t.1, t.2)
  }

  /** The `HH:MM:SS` text of hours, minutes and seconds. */
  function Clock(h: nat, m: nat, s: nat): string {
    TwoDigits(h) + ":" + TwoDigits(m) + ":" + TwoDigits(s)
  }

  /** The formatted time splits on ':' into its three two-digit groups. */
  lemma ClockSplits(h: nat, m: nat, s: nat)
    ensures Split(Clock(h, m, s), ':') == [TwoDigits(h), TwoDigits(m), TwoDigits(s)]
  {
    var a, b, c := TwoDigits(h), TwoDigits(m), TwoDigits(s);
    NoColon(a);
    NoColon(b);
    NoColon(c);
    assert Clock(h, m, s) == a + [':'] + b + [':'] + c;
    SplitThree(a, b, c, ':');
  }

  /** A digit string holds no ':'. */
  lemma NoColon(r: string)
    requires AllDigits(r)
    ensures ':' !in r
  {
    assert forall i :: 0 <= i < |r| ==> r[i] != ':';
  }

  /** `formatTime` loses nothing: the formatted time has three fields of at
      least two digits each, which read back as the hours, the minutes and
      the seconds, and so as the number of seconds it was made from. */
  lemma FormatTimeFields(seconds: nat)
    ensures |Split(FormatTime(seconds), ':')| == 3
    ensures forall i :: 0 <= i < 3 ==> |Split(FormatTime(seconds), ':')[i]| >= 2
    ensures var p := Split(FormatTime(seconds), ':');
      && (forall k, i :: 0 <= k < 3 && 0 <= i < |p[k]| ==> IsDigit(p[k][i]))
      && DigitsValue(p[0]) == TimeParts(seconds).0
      && DigitsValue(p[1]) == TimeParts(seconds).1
      && DigitsValue(p[2]) == TimeParts(seconds).2
      && DigitsValue(p[0]) * 3600 + DigitsValue(p[1]) * 60 + DigitsValue(p[2]) == seconds
  {
    var t := TimeParts(seconds);
    ClockSplits(t.0, t.1, t.2);
    FieldsOf(FormatTime(seconds), TwoDigits(t.0), TwoDigits(t.1), TwoDigits(t.2));
  }

  /** A text that splits into three digit groups has those groups as its
      fields. */
  lemma FieldsOf(text: string, a: string, b: string, c: string)
    requires Split(text, ':') == [a, b, c]
    requires AllDigits(a) && AllDigits(b) && AllDigits(c)
    ensures |Split(text, ':')| == 3
    ensures var p := Split(text, ':');
      && p[0] == a && p[1] == b && p[2] == c
      && (forall k, i :: 0 <= k < 3 && 0 <= i < |p[k]| ==> IsDigit(p[k][i]))
  {
    var p := Split(text, ':');
    forall k, i | 0 <= k < 3 && 0 <= i < |p[k]| ensures IsDigit(p[k][i]) {
      assert p[k] == a || p[k] == b || p[k] == c;
    }
  }
}
