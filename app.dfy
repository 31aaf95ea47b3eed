/** The WSGI application of src/api/app.py: reason phrases, the run-status
    registry (`_run_status`) with the single-worker executor's queue, the
    archive listing, the JSON body reader and the request router. The file
    system is a value (`Disk`): which archive directories exist, their
    metadata, which outputs and logs are present. The clock reading, the
    base URL, the JSON decoder and each simulation run's outcome are
    parameters. */
module ApiApp {
  import opened Wrappers
  import opened Text
  import opened Seqs
  import opened ApiFeatures

  // ---------------------------------------------------------------- replies

  /** The codes `_status_text` has a phrase for. */
  const ReasonCodes: set<int> := {200, 201, 202, 204, 400, 404, 409, 500}

  /** `_status_text`: the phrase of a listed code, "OK" for any other. */
  function StatusText(code: int): (r: string)
    ensures code !in ReasonCodes ==> r == "OK"
    ensures r != ""
  {
    if code == 201 then "Created"
    else if code == 202 then "Accepted"
    else if code == 204 then "No Content"
    else if code == 400 then "Bad Request"
    else if code == 404 then "Not Found"
    else if code == 409 then "Conflict"
    else if code == 500 then "Internal Server Error"
    else "OK"
  }

  /** Listed codes have phrases of their own: only 200 says "OK". */
  lemma StatusTextDistinct(a: int, b: int)
    requires a in ReasonCodes && b in ReasonCodes && a != b
    ensures StatusText(a) != StatusText(b)
  {
    assert |StatusText(a)| != |StatusText(b)| || StatusText(a)[0] != StatusText(b)[0];
  }

  /** What an `HTTPError` or another exception turns into. */
  datatype Fault = HttpError(status: nat, message: string) | Crash(message: string)

  datatype Result<T> = Ok(value: T) | Err(fault: Fault)

  // ---------------------------------------------------------- run statuses

  const Queued := "queued"
  const Running := "running"
  const Completed := "completed"
  const DefaultFailure := "Simulation failed with non-zero exit status."

  /** How a run of `cli.py` ended: it exited with a code and its stderr,
      after which copying the results into the archive may have raised; or
      starting it raised at once. */
  datatype RunOutcome =
    | Exited(code: int, stderr: string, archiveError: Option<string>)
    | Raised(message: string)

  /** The `RuntimeError` message of a non-zero exit. */
  function FailureReason(stderr: string): (r: string)
    ensures r != ""
  {
    var t := Trim(stderr);
    if t != "" then t else DefaultFailure
  }

  /** The status `_start_simulation` leaves: "completed", or
      "failed: {exc}" for whatever raised. */
  function FinalStatus(o: RunOutcome): string {
    match o
    case Raised(m) => "failed: " + m
    case Exited(code, stderr, archiveError) =>
      if code != 0 then "failed: " + FailureReason(stderr)
      else if archiveError.Some? then "failed: " + archiveError.value
      else Completed
  }

  /** A run completes exactly when it exits with 0 and archiving succeeds;
      otherwise, a non-zero exit in particular, it is marked failed. A
      finished run is no longer queued or running, and its status is never
      blank, so its id stays taken. */
  lemma FinalStatusSpec(o: RunOutcome)
    ensures FinalStatus(o) == Completed <==> o.Exited? && o.code == 0 && o.archiveError.None?
    ensures FinalStatus(o) != Completed ==> StartsWith(FinalStatus(o), "failed: ")
    ensures o.Exited? && o.code != 0 ==> FinalStatus(o) == "failed: " + FailureReason(o.stderr)
    ensures FinalStatus(o) != "" && FinalStatus(o) != Queued && FinalStatus(o) != Running
  {
    match o
    case Raised(m) => Failed(m);
    case Exited(code, stderr, archiveError) =>
      if code != 0 {
        Failed(FailureReason(stderr));
      } else if archiveError.Some? {
        Failed(archiveError.value);
      }
  }

  /** A "failed: " status is none of the others. */
  lemma Failed(reason: string)
    ensures StartsWith("failed: " + reason, "failed: ")
    ensures "failed: " + reason != Completed && "failed: " + reason != Queued && "failed: " + reason != Running
  {
    var s := "failed: " + reason;
    assert s[..8] == "failed: ";
    assert s[0] == 'f';
  }

  /** A job handed to the executor. */
  datatype Job = Job(runId: string, features: seq<string>)

  // ------------------------------------------------------- archive listing

  /** What `_archive_metadata` reads from an archived run's directory. */
  datatype ArchiveMeta = ArchiveMeta(finishedAt: string, latestFinishSeconds: int, maxDIJobs: int, hasLogs: bool)

  /** One item of the `/api/archives` list. */
  datatype Entry = Entry(
    runId: string, finishedAt: Option<string>, outputUrl: Option<string>, logUrl: Option<string>,
    latestFinishSeconds: Option<int>, maxDIJobs: Option<int>, status: string)

  /** The path of an archive file route. */
  function ArchivePath(runId: string, leaf: string): string {
    "/api/archive/" + runId + "/" + leaf
  }

  /** `_get_run_status(run_id) or "completed"`. */
  function ArchiveStatus(runStatus: map<string, string>, runId: string): string {
    if runId in runStatus && runStatus[runId] != "" then runStatus[runId] else Completed
  }

  function ArchiveEntry(runId: string, m: ArchiveMeta, runStatus: map<string, string>, base: string): Entry {
    Entry(runId, Some(m.finishedAt), Some(base + ArchivePath(runId, "output")),
          if m.hasLogs then Some(base + ArchivePath(runId, "logs")) else None,
          Some(m.latestFinishSeconds), Some(m.maxDIJobs), ArchiveStatus(runStatus, runId))
  }

  function PendingEntry(runId: string, status: string): Entry {
    Entry(runId, None, None, None, None, None, status)
  }

  predicate InProgressStatus(status: string) {
    status == Queued || status == Running
  }

  /** `sorted(ARCHIVES_DIR.iterdir(), reverse=True)`: newest run ids first. */
  function ArchiveOrder(dirs: seq<string>): seq<string> {
    Reverse(SortStrings(dirs))
  }

  /** The first loop of `_list_archives`: an entry for every directory with
      metadata, in the order given. */
  function Archived(dirs: seq<string>, metas: map<string, ArchiveMeta>, runStatus: map<string, string>,
                    base: string): (r: seq<Entry>)
    ensures |r| <= |dirs|
  {
    if dirs == [] then []
    else (if dirs[0] in metas then [ArchiveEntry(dirs[0], metas[dirs[0]], runStatus, base)] else [])
         + Archived(dirs[1..], metas, runStatus, base)
  }

  /** The `in_progress` comprehension over `_run_status.items()`, in the
      registry's insertion order. */
  function InProgress(order: seq<string>, runStatus: map<string, string>): seq<(string, string)> {
    if order == [] then []
    else (if order[0] in runStatus && InProgressStatus(runStatus[order[0]])
          then [(order[0], runStatus[order[0]])] else [])
         + InProgress(order[1..], runStatus)
  }

  function EntryId(e: Entry): string {
    e.runId
  }

  function RunIds(entries: seq<Entry>): seq<string> {
    Map(entries, EntryId)
  }

  /** The second loop of `_list_archives`: a bare entry for each in-progress
      run not yet in `results`, which grows as the loop goes. */
  function PendingFrom(pairs: seq<(string, string)>, results: seq<Entry>): seq<Entry>
    decreases |pairs|
  {
    if pairs == [] then []
    else if pairs[0].0 in RunIds(results) then PendingFrom(pairs[1..], results)
    else
      var e := PendingEntry(pairs[0].0, pairs[0].1);
      [e] + PendingFrom(pairs[1..], results + [e])
  }

  /** `_list_archives`. */
  function Listing(dirs: seq<string>, metas: map<string, ArchiveMeta>, runStatus: map<string, string>,
                   order: seq<string>, base: string): seq<Entry>
  {
    var archived := Archived(ArchiveOrder(dirs), metas, runStatus, base);
    archived + PendingFrom(InProgress(order, runStatus), archived)
  }

  /** Every archived entry is built from its own directory's metadata. */
  lemma {:induction false} ArchivedShape(dirs: seq<string>, metas: map<string, ArchiveMeta>,
                                         runStatus: map<string, string>, base: string)
    ensures forall k :: 0 <= k < |Archived(dirs, metas, runStatus, base)| ==>
      var e := Archived(dirs, metas, runStatus, base)[k];
      e.runId in metas && e == ArchiveEntry(e.runId, metas[e.runId], runStatus, base)
  {
    if dirs != [] {
      ArchivedShape(dirs[1..], metas, runStatus, base);
    }
  }

  /** The archived entries are those of the directories with metadata. */
  lemma {:induction false} ArchivedIds(dirs: seq<string>, metas: map<string, ArchiveMeta>,
                                       runStatus: map<string, string>, base: string)
    ensures forall n :: n in RunIds(Archived(dirs, metas, runStatus, base)) <==> n in dirs && n in metas
  {
    if dirs != [] {
      var head := if dirs[0] in metas then [ArchiveEntry(dirs[0], metas[dirs[0]], runStatus, base)] else [];
      var rest := Archived(dirs[1..], metas, runStatus, base);
      ArchivedIds(dirs[1..], metas, runStatus, base);
      MapAppend(head, rest, EntryId);
      InCons(dirs);
    }
  }

  lemma InCons<T>(s: seq<T>)
    requires s != []
    ensures forall x :: x in s <==> x == s[0] || x in s[1..]
  {
    assert s == [s[0]] + s[1..];
  }

  /** Each directory gives at most one entry, so distinct directory names
      give distinct archived ids. */
  lemma {:induction false} ArchivedNoDup(dirs: seq<string>, metas: map<string, ArchiveMeta>,
                                         runStatus: map<string, string>, base: string)
    requires NoDup(dirs)
    ensures NoDup(RunIds(Archived(dirs, metas, runStatus, base)))
  {
    if dirs != [] {
      var head := if dirs[0] in metas then [ArchiveEntry(dirs[0], metas[dirs[0]], runStatus, base)] else [];
      var rest := Archived(dirs[1..], metas, runStatus, base);
      ArchivedNoDup(dirs[1..], metas, runStatus, base);
      ArchivedIds(dirs[1..], metas, runStatus, base);
      MapAppend(head, rest, EntryId);
      assert dirs[0] !in dirs[1..];
      NoDupCons(RunIds(head), RunIds(rest));
    }
  }

  lemma NoDupCons<T(!new)>(h: seq<T>, t: seq<T>)
    requires |h| <= 1 && NoDup(t)
    requires forall x :: x in h ==> x !in t
    ensures NoDup(h + t)
  {
    var s := h + t;
    forall i, j | 0 <= i < j < |s| ensures s[i] != s[j] {
      assert s[j] == t[j - |h|] && s[j] in t;
      if i >= |h| {
        assert s[i] == t[i - |h|];
      }
    }
  }

  /** Archived entries keep the order of the directories: with the
      directories in descending order, so are the ids. */
  lemma {:induction false} ArchivedDescending(dirs: seq<string>, metas: map<string, ArchiveMeta>,
                                              runStatus: map<string, string>, base: string)
    requires Descending(dirs)
    ensures Descending(RunIds(Archived(dirs, metas, runStatus, base)))
  {
    if dirs != [] {
      var head := if dirs[0] in metas then [ArchiveEntry(dirs[0], metas[dirs[0]], runStatus, base)] else [];
      var rest := Archived(dirs[1..], metas, runStatus, base);
      assert Descending(dirs[1..]);
      ArchivedDescending(dirs[1..], metas, runStatus, base);
      ArchivedIds(dirs[1..], metas, runStatus, base);
      MapAppend(head, rest, EntryId);
      forall x | x in RunIds(rest) ensures LexLessEq(x, dirs[0]) {
        var j :| 0 <= j < |dirs[1..]| && dirs[1..][j] == x;
        assert dirs[j + 1] == x;
      }
      DescendingCons(RunIds(head), RunIds(rest), dirs[0]);
    }
  }

  predicate Descending(s: seq<string>) {
    forall i, j :: 0 <= i < j < |s| ==> LexLessEq(s[j], s[i])
  }

  lemma DescendingCons(h: seq<string>, t: seq<string>, top: string)
    requires h == [] || h == [top]
    requires Descending(t)
    requires forall x :: x in t ==> LexLessEq(x, top)
    ensures Descending(h + t)
  {
    var s := h + t;
    forall i, j | 0 <= i < j < |s| ensures LexLessEq(s[j], s[i]) {
      if i < |h| {
        assert s[j] == t[j - |h|] && s[j] in t;
      } else {
        assert s[i] == t[i - |h|] && s[j] == t[j - |h|];
      }
    }
  }

  /** Reverse-sorting puts the directories in descending order. */
  lemma ArchiveOrderDescending(dirs: seq<string>)
    ensures Descending(ArchiveOrder(dirs))
    ensures multiset(ArchiveOrder(dirs)) == multiset(dirs)
  {
    ReverseDescending(SortStrings(dirs));
    ReverseMultiset(SortStrings(dirs));
  }

  lemma ReverseDescending(s: seq<string>)
    requires SortedStrings(s)
    ensures Descending(Reverse(s))
  {
    var r := Reverse(s);
    forall i, j | 0 <= i < j < |r| ensures LexLessEq(r[j], r[i]) {
      assert r[j] == s[|s| - 1 - j] && r[i] == s[|s| - 1 - i];
    }
  }

  lemma {:induction false} ReverseMultiset<T>(s: seq<T>)
    ensures multiset(Reverse(s)) == multiset(s)
  {
    if s != [] {
      ReverseMultiset(s[1..]);
      assert s == [s[0]] + s[1..];
    }
  }

  /** Every entry the second loop adds is bare, carries the status of its
      in-progress pair, and has an id not among the entries before it. */
  lemma {:induction false} PendingShape(pairs: seq<(string, string)>, results: seq<Entry>)
    ensures forall k :: 0 <= k < |PendingFrom(pairs, results)| ==>
      var e := PendingFrom(pairs, results)[k];
      e == PendingEntry(e.runId, e.status) && (e.runId, e.status) in pairs && e.runId !in RunIds(results)
    decreases |pairs|
  {
    if pairs != [] {
      var p := pairs[0];
      InCons(pairs);
      if p.0 in RunIds(results) {
        PendingShape(pairs[1..], results);
      } else {
        var e := PendingEntry(p.0, p.1);
        PendingShape(pairs[1..], results + [e]);
        MapAppend(results, [e], EntryId);
      }
    }
  }

  /** After the second loop, every in-progress pair's run is listed. */
  lemma {:induction false} PendingCovers(pairs: seq<(string, string)>, results: seq<Entry>)
    ensures forall p :: p in pairs ==> p.0 in RunIds(results + PendingFrom(pairs, results))
    decreases |pairs|
  {
    if pairs != [] {
      var p := pairs[0];
      InCons(pairs);
      if p.0 in RunIds(results) {
        PendingCovers(pairs[1..], results);
        MapAppend(results, PendingFrom(pairs[1..], results), EntryId);
      } else {
        var e := PendingEntry(p.0, p.1);
        var later := PendingFrom(pairs[1..], results + [e]);
        PendingCovers(pairs[1..], results + [e]);
        assert results + PendingFrom(pairs, results) == (results + [e]) + later;
        MapAppend(results + [e], later, EntryId);
        MapAppend(results, [e], EntryId);
      }
    }
  }

  /** The second loop never lists a run twice. */
  lemma {:induction false} PendingNoDup(pairs: seq<(string, string)>, results: seq<Entry>)
    requires NoDup(RunIds(results))
    ensures NoDup(RunIds(results + PendingFrom(pairs, results)))
    decreases |pairs|
  {
    if pairs == [] {
      assert results + [] == results;
    } else {
      var p := pairs[0];
      if p.0 in RunIds(results) {
        PendingNoDup(pairs[1..], results);
      } else {
        var e := PendingEntry(p.0, p.1);
        var grown := results + [e];
        GrowKeepsNoDup(results, e);
        PendingNoDup(pairs[1..], grown);
        PendingAppend(results, e, PendingFrom(pairs[1..], grown));
      }
    }
  }

  lemma GrowKeepsNoDup(results: seq<Entry>, e: Entry)
    requires NoDup(RunIds(results)) && e.runId !in RunIds(results)
    ensures NoDup(RunIds(results + [e]))
  {
    MapAppend(results, [e], EntryId);
    assert RunIds([e]) == [e.runId];
    NoDupCons([e.runId], RunIds(results));
    var s := RunIds(results) + [e.runId];
    forall i, j | 0 <= i < j < |s| ensures s[i] != s[j] {
      if j == |s| - 1 {
        assert s[i] == RunIds(results)[i];
      }
    }
  }

  lemma PendingAppend(results: seq<Entry>, e: Entry, later: seq<Entry>)
    ensures results + ([e] + later) == (results + [e]) + later
  {
  }

  /** The in-progress pairs are the queued or running runs of the
      registry, each with its status. */
  lemma {:induction false} InProgressMembers(order: seq<string>, runStatus: map<string, string>)
    ensures forall id :: id in order && id in runStatus && InProgressStatus(runStatus[id]) ==>
      (id, runStatus[id]) in InProgress(order, runStatus)
  {
    if order != [] {
      InProgressMembers(order[1..], runStatus);
      InCons(order);
    }
  }

  /** `_list_archives`: the archived runs, newest id first, then the queued
      and running runs not archived; every queued or running run is listed,
      and no run is listed twice. */
  lemma ListingSpec(dirs: seq<string>, metas: map<string, ArchiveMeta>, runStatus: map<string, string>,
                    order: seq<string>, base: string)
    requires NoDup(dirs)
    ensures var archived := Archived(ArchiveOrder(dirs), metas, runStatus, base);
      && Descending(RunIds(archived))
      && (forall n :: n in RunIds(archived) <==> n in dirs && n in metas)
      && |archived| <= |Listing(dirs, metas, runStatus, order, base)|
      && Listing(dirs, metas, runStatus, order, base)[..|archived|] == archived
    ensures forall id :: id in order && id in runStatus && InProgressStatus(runStatus[id]) ==>
      id in RunIds(Listing(dirs, metas, runStatus, order, base))
    ensures NoDup(RunIds(Listing(dirs, metas, runStatus, order, base)))
  {
    var sorted := ArchiveOrder(dirs);
    var archived := Archived(sorted, metas, runStatus, base);
    var result := Listing(dirs, metas, runStatus, order, base);
    ArchiveOrderDescending(dirs);
    ArchivedDescending(sorted, metas, runStatus, base);
    ArchivedIds(sorted, metas, runStatus, base);
    forall n ensures n in sorted <==> n in dirs {
      assert n in multiset(sorted) <==> n in multiset(dirs);
    }
    NoDupPermutation(dirs, sorted);
    ArchivedNoDup(sorted, metas, runStatus, base);
    var pairs := InProgress(order, runStatus);
    InProgressMembers(order, runStatus);
    PendingCovers(pairs, archived);
    PendingNoDup(pairs, archived);
    assert result[..|archived|] == archived;
  }

  // ------------------------------------------------------------ the body

  newtype byte = x: int | 0 <= x < 256

  /** What `json.loads(raw.decode("utf-8"))` does with the body: a JSON
      object (only its `features` member matters), some other JSON value,
      malformed JSON, or bytes that are not UTF-8. */
  datatype FeaturesField = Absent | NotAList | Items(items: seq<string>)
  datatype Payload = JsonObject(features: FeaturesField) | OtherJson(typeName: string)
  datatype Decoded = Parsed(value: Payload) | BadJson(reason: string) | BadText(reason: string)

  /** `int(environ.get("CONTENT_LENGTH") or 0)`, a `ValueError` giving 0:
      surrounding whitespace, an optional sign and decimal digits. */
  function ContentLength(header: Option<string>): int {
    if header.None? then 0
    else
      var t := Trim(header.value);
      if t != "" && AllDigits(t) then DigitsValue(t)
      else if |t| >= 2 && t[0] == '+' && AllDigits(t[1..]) then DigitsValue(t[1..])
      else if |t| >= 2 && t[0] == '-' && AllDigits(t[1..]) then -(DigitsValue(t[1..]) as int)
      else 0
  }

  /** A length the client wrote as a decimal number reads back as itself. */
  lemma ContentLengthReadsBack(n: nat)
    ensures ContentLength(Some(NatToString(n))) == n
  {
    var s := NatToString(n);
    assert IsTrimmed(s);
    TrimFixesTrimmed(s);
    NatToStringValue(n);
  }

  /** `environ["wsgi.input"].read(length) if length > 0 else b""`: at most
      `length` bytes, fewer when the input ends first. */
  function BodyBytes(length: int, input: seq<byte>): (raw: seq<byte>)
    ensures length <= 0 ==> raw == []
    ensures length > 0 ==> |raw| == if length < |input| then length else |input|
    ensures raw == input[..|raw|]
  {
    if length > 0 then input[..if length < |input| then length else |input|] else []
  }

  /** `_read_json_body`. */
  function ReadJsonBody(header: Option<string>, input: seq<byte>, decode: seq<byte> -> Decoded): Result<Payload> {
    var raw := BodyBytes(ContentLength(header), input);
    if raw == [] then Ok(JsonObject(Absent))
    else match decode(raw)
      case Parsed(v) => Ok(v)
      case BadJson(reason) => Err(HttpError(400, "Invalid JSON payload: " + reason))
      case BadText(reason) => Err(Crash(reason))
  }

  /** Without a positive length, or without input, the body is `{}` and the
      decoder is not consulted. */
  lemma NoBodyIsEmptyObject(header: Option<string>, input: seq<byte>, decode: seq<byte> -> Decoded)
    requires ContentLength(header) <= 0 || input == []
    ensures ReadJsonBody(header, input, decode) == Ok(JsonObject(Absent))
  {
  }

  /** Bytes after the declared length are never read. */
  lemma ReadsDeclaredLength(n: nat, input: seq<byte>, extra: seq<byte>, decode: seq<byte> -> Decoded)
    requires n <= |input|
    ensures ReadJsonBody(Some(NatToString(n)), input + extra, decode) == ReadJsonBody(Some(NatToString(n)), input, decode)
  {
    ContentLengthReadsBack(n);
    assert (input + extra)[..n] == input[..n];
  }

  // --------------------------------------------------------------- routing

  datatype Endpoint =
    | Preflight
    | MetricsEndpoint
    | ArchivesEndpoint
    | LaunchEndpoint
    | ArchiveOutput(runId: string)
    | ArchiveLogs(runId: string)
    | NoRoute(detail: string)

  /** `environ.get("REQUEST_METHOD", "GET").upper()`. */
  function RequestMethod(header: Option<string>): string {
    ToUpper(if header.Some? then header.value else "GET")
  }

  /** The dispatch of `application` on the method and `PATH_INFO`. */
  function Route(verb: string, path: string): Endpoint {
    if verb == "OPTIONS" then Preflight
    else if verb == "GET" && path == "/api/metrics" then MetricsEndpoint
    else if verb == "GET" && path == "/api/archives" then ArchivesEndpoint
    else if verb == "POST" && path == "/api/simulations" then LaunchEndpoint
    else if verb == "GET" && StartsWith(path, "/api/archive/") then ArchiveRoute(Split(path, '/'))
    else NoRoute("Endpoint not found.")
  }

  /** The `/api/archive/` branch on `path.split("/")`. */
  function ArchiveRoute(parts: seq<string>): Endpoint {
    if |parts| < 4 then NoRoute("Invalid archive request.")
    else if |parts| == 5 && parts[4] == "output" then ArchiveOutput(parts[3])
    else if |parts| == 5 && parts[4] == "logs" then ArchiveLogs(parts[3])
    else NoRoute("Unsupported archive request.")
  }

  /** A path under `/api/archive/` always splits into at least four parts,
      so the "Invalid archive request." answer is never given. */
  lemma ArchivePrefixParts(rest: string)
    ensures |Split("/api/archive/" + rest, '/')| >= 4
    ensures ArchiveRoute(Split("/api/archive/" + rest, '/')) != NoRoute("Invalid archive request.")
  {
    ArchiveSplit(rest);
  }

  lemma ArchiveSplit(rest: string)
    ensures Split("/api/archive/" + rest, '/') == ["", "api", "archive"] + Split(rest, '/')
  {
    assert "/api/archive/" + rest == "" + ['/'] + ("api" + ['/'] + ("archive" + ['/'] + rest));
    SplitAfterWord("", '/', "api" + ['/'] + ("archive" + ['/'] + rest));
    SplitAfterWord("api", '/', "archive" + ['/'] + rest);
    SplitAfterWord("archive", '/', rest);
  }

  lemma NeverInvalidArchive(verb: string, path: string)
    ensures Route(verb, path) != NoRoute("Invalid archive request.")
  {
    if verb == "GET" && StartsWith(path, "/api/archive/") {
      var rest := path[|"/api/archive/"|..];
      assert path == "/api/archive/" + rest;
      ArchivePrefixParts(rest);
    }
  }

  /** The URLs the listing hands out lead back to the run's files. */
  lemma ArchivePathsRoute(runId: string)
    requires '/' !in runId
    ensures Route("GET", ArchivePath(runId, "output")) == ArchiveOutput(runId)
    ensures Route("GET", ArchivePath(runId, "logs")) == ArchiveLogs(runId)
  {
    LeafRoute(runId, "output");
    LeafRoute(runId, "logs");
  }

  lemma LeafRoute(runId: string, leaf: string)
    requires '/' !in runId && '/' !in leaf
    ensures Split(ArchivePath(runId, leaf), '/') == ["", "api", "archive", runId, leaf]
    ensures StartsWith(ArchivePath(runId, leaf), "/api/archive/")
  {
    var rest := runId + "/" + leaf;
    assert ArchivePath(runId, leaf) == "/api/archive/" + rest;
    ArchiveSplit(rest);
    SplitAfterWord(runId, '/', leaf);
    SplitNoSep(leaf, '/');
  }

  /** A preflight request is answered whatever its path. */
  lemma OptionsAnyPath(header: Option<string>, path: string)
    requires RequestMethod(header) == "OPTIONS"
    ensures Route(RequestMethod(header), path) == Preflight
  {
  }

  // -------------------------------------------------------------- requests

  /** The parts of a WSGI `environ` the application reads. */
  datatype Request = Request(
    verb: Option<string>, path: Option<string>, contentLength: Option<string>,
    input: seq<byte>, baseUrl: string, timestamp: string)

  /** The metrics `_metrics_from_output` reads from an `output.csv`. */
  datatype Metrics = Metrics(latestFinishSeconds: int, maxDIJobs: int, lastRunAt: string)

  /** The file system as the application sees it: the current output's
      metrics if `data/output.csv` exists, the archive directory's entries
      (none when it is missing) with the metadata of those that hold an
      output, the runs whose `output.csv` exists, and for the runs whose
      `logs` directory holds a `.log` file the newest one's name. */
  datatype Disk = Disk(
    output: Option<Metrics>, archiveDirs: seq<string>, metas: map<string, ArchiveMeta>,
    archivedOutputs: set<string>, latestLogs: map<string, string>)

  datatype ResponseBody =
    | NoBody
    | Detail(detail: string)
    | MetricsBody(metrics: Metrics)
    | ArchiveList(entries: seq<Entry>)
    | Launched(runId: string, status: string)
    | FileBody(contentType: string, filename: string)

  datatype Response = Response(status: nat, body: ResponseBody)

  /** The two `except` clauses of `application`. */
  function FaultResponse(f: Fault): (r: Response)
    ensures f.HttpError? ==> r.status == f.status && r.body == Detail(f.message)
    ensures f.Crash? ==> r.status == 500 && r.body.Detail? && StartsWith(r.body.detail, "Internal error: ")
  {
    match f
    case HttpError(status, message) => Response(status, Detail(message))
    case Crash(message) => Response(500, Detail("Internal error: " + message))
  }

  /** Unsupported features are named in the 400 answer. */
  function UnsupportedMessage(invalid: seq<string>): string {
    "Unsupported features requested: " + Join(invalid, ", ")
  }

  const AlreadyQueued := "A matching simulation is already queued."

  /** Whether `_get_run_status(run_id)` is truthy. */
  predicate Taken(runStatus: map<string, string>, runId: string) {
    runId in runStatus && runStatus[runId] != ""
  }

  /** The module state: `_run_status` (with its keys in insertion order,
      the order `.items()` yields) and the executor's queue of submitted
      jobs, run one at a time in submission order. */
  class ApiState {
    var runStatus: map<string, string>
    var runOrder: seq<string>
    var queue: seq<Job>

    ghost predicate Valid()
      reads this
    {
      NoDup(runOrder) && forall id :: id in runStatus <==> id in runOrder
    }

    constructor ()
      ensures Valid() && runStatus == map[] && runOrder == [] && queue == []
    {
      runStatus := map[];
      runOrder := [];
      queue := [];
    }

    /** `_set_run_status`: a new id goes to the end of the insertion order,
        an existing one keeps its place. */
    method SetRunStatus(runId: string, status: string)
      requires Valid()
      modifies this
      ensures Valid()
      ensures runStatus == old(runStatus)[runId := status]
      ensures runOrder == if runId in old(runStatus) then old(runOrder) else old(runOrder) + [runId]
      ensures queue == old(queue)
    {
      if runId !in runStatus {
        runOrder := runOrder + [runId];
      }
      runStatus := runStatus[runId := status];
    }

    /** `_launch_simulation`: unknown names are refused before the registry
        is looked at, a run id with any status is refused, and otherwise the
        run is queued and submitted. */
    method Launch(features: seq<string>, timestamp: string) returns (r: Result<(string, string)>)
      requires Valid()
      modifies this
      ensures Valid()
      ensures InvalidFeatures(features) != [] ==>
        r == Err(HttpError(400, UnsupportedMessage(InvalidFeatures(features)))) && unchanged(this)
      ensures InvalidFeatures(features) == [] && Taken(old(runStatus), RunId(timestamp, Normalised(features))) ==>
        r == Err(HttpError(409, AlreadyQueued)) && unchanged(this)
      ensures InvalidFeatures(features) == [] && !Taken(old(runStatus), RunId(timestamp, Normalised(features))) ==>
        var runId := RunId(timestamp, Normalised(features));
        && r == Ok((runId, Queued))
        && runStatus == old(runStatus)[runId := Queued]
        && runOrder == (if runId in old(runStatus) then old(runOrder) else old(runOrder) + [runId])
        && queue == old(queue) + [Job(runId, Normalised(features))]
    {
      var invalid := InvalidFeatures(features);
      if invalid != [] {
        return Err(HttpError(400, UnsupportedMessage(invalid)));
      }
      var normalized := NormaliseFeatures(features);
      var runId := RunId(timestamp, normalized);
      if runId in runStatus && runStatus[runId] != "" {
        return Err(HttpError(409, AlreadyQueued));
      }
      SetRunStatus(runId, Queued);
      queue := queue + [Job(runId, normalized)];
      r := Ok((runId, Queued));
    }

    /** The start of `_start_simulation`. */
    method BeginRun(job: Job)
      requires Valid()
      modifies this
      ensures Valid()
      ensures runStatus == old(runStatus)[job.runId := Running] && queue == old(queue)
      ensures runOrder == if job.runId in old(runStatus) then old(runOrder) else old(runOrder) + [job.runId]
    {
      SetRunStatus(job.runId, Running);
    }

    /** The end of `_start_simulation`. */
    method FinishRun(job: Job, outcome: RunOutcome)
      requires Valid()
      modifies this
      ensures Valid()
      ensures runStatus == old(runStatus)[job.runId := FinalStatus(outcome)] && queue == old(queue)
      ensures runOrder == if job.runId in old(runStatus) then old(runOrder) else old(runOrder) + [job.runId]
    {
      SetRunStatus(job.runId, FinalStatus(outcome));
    }

    /** The single worker takes the oldest job and runs it with
        `JOB_PLANNER_FEATURES` set to `env`. */
    method RunNext(outcome: RunOutcome) returns (job: Job, env: string)
      requires Valid() && queue != []
      modifies this
      ensures Valid()
      ensures job == old(queue)[0] && queue == old(queue)[1..]
      ensures env == FeaturesEnv(job.features)
      ensures runStatus == old(runStatus)[job.runId := FinalStatus(outcome)]
      ensures runOrder == if job.runId in old(runStatus) then old(runOrder) else old(runOrder) + [job.runId]
    {
      job := queue[0];
      queue := queue[1..];
      env := FeaturesEnv(job.features);
      BeginRun(job);
      FinishRun(job, outcome);
    }

    /** `_list_archives`, with its two loops. */
    method ListArchives(dirs: seq<string>, metas: map<string, ArchiveMeta>, base: string)
      returns (results: seq<Entry>)
      ensures results == Listing(dirs, metas, runStatus, runOrder, base)
    {
      var archived := ArchiveEntries(ArchiveOrder(dirs), metas, base);
      results := PendingEntries(InProgress(runOrder, runStatus), archived);
    }

    /** The first loop of `_list_archives`. */
    method ArchiveEntries(ordered: seq<string>, metas: map<string, ArchiveMeta>, base: string)
      returns (results: seq<Entry>)
      ensures results == Archived(ordered, metas, runStatus, base)
    {
      results := [];
      var i := 0;
      while i < |ordered|
        invariant 0 <= i <= |ordered|
        invariant Archived(ordered, metas, runStatus, base) == results + Archived(ordered[i..], metas, runStatus, base)
      {
        assert ordered[i..][1..] == ordered[i + 1..];
        if ordered[i] in metas {
          results := results + [ArchiveEntry(ordered[i], metas[ordered[i]], runStatus, base)];
        }
        i := i + 1;
      }
      assert ordered[i..] == [];
    }

    /** The second loop of `_list_archives`. */
    method PendingEntries(inProgress: seq<(string, string)>, archived: seq<Entry>) returns (results: seq<Entry>)
      ensures results == archived + PendingFrom(inProgress, archived)
    {
      results := archived;
      var j := 0;
      while j < |inProgress|
        invariant 0 <= j <= |inProgress|
        invariant results + PendingFrom(inProgress[j..], results) == archived + PendingFrom(inProgress, archived)
      {
        assert inProgress[j..][1..] == inProgress[j + 1..];
        var (runId, status) := inProgress[j];
        if runId !in RunIds(results) {
          var e := PendingEntry(runId, status);
          assert results + PendingFrom(inProgress[j..], results) == (results + [e]) + PendingFrom(inProgress[j + 1..], results + [e]);
          results := results + [e];
        }
        j := j + 1;
      }
      assert inProgress[j..] == [];
      assert results + [] == results;
    }

    /** `application`: route the request, answer it, and turn an
        `HTTPError` into its status and detail and any other exception into
        500. Only a launch changes the state. */
    method Handle(req: Request, disk: Disk, decode: seq<byte> -> Decoded) returns (resp: Response)
      requires Valid()
      modifies this
      ensures Valid()
      ensures var route := Route(RequestMethod(req.verb), PathOf(req));
        && (route.Preflight? ==> resp == Response(204, NoBody))
        && (route.NoRoute? ==> resp == Response(404, Detail(route.detail)))
        && (route.MetricsEndpoint? ==> resp == if disk.output.Some? then Response(200, MetricsBody(disk.output.value))
                                              else Response(404, Detail("No simulation output available.")))
        && (route.ArchivesEndpoint? ==>
              resp == Response(200, ArchiveList(Listing(disk.archiveDirs, disk.metas, runStatus, runOrder, req.baseUrl))))
        && (route.ArchiveOutput? ==> resp == if route.runId in disk.archivedOutputs
                                             then Response(200, FileBody("text/csv", route.runId + "_output.csv"))
                                             else Response(404, Detail("Requested file not found.")))
        && (route.ArchiveLogs? ==> resp == if route.runId in disk.latestLogs
                                           then Response(200, FileBody("text/plain", disk.latestLogs[route.runId]))
                                           else Response(404, Detail("Logs not available for this run.")))
        && (!route.LaunchEndpoint? ==> unchanged(this))
        && (route.LaunchEndpoint? ==>
              LaunchStep(ReadJsonBody(req.contentLength, req.input, decode), req.timestamp,
                         old(runStatus), old(runOrder), old(queue), resp, runStatus, runOrder, queue))
        && (route.LaunchEndpoint? && resp.status != 202 ==> unchanged(this))
    {
      var route := Route(RequestMethod(req.verb), PathOf(req));
      match route {
        case Preflight =>
          resp := Response(204, NoBody);
        case MetricsEndpoint =>
          if disk.output.Some? {
            resp := Response(200, MetricsBody(disk.output.value));
          } else {
            resp := FaultResponse(HttpError(404, "No simulation output available."));
          }
        case ArchivesEndpoint =>
          var entries := ListArchives(disk.archiveDirs, disk.metas, req.baseUrl);
          resp := Response(200, ArchiveList(entries));
        case LaunchEndpoint =>
          resp := HandleLaunch(req, decode);
        case ArchiveOutput(runId) =>
          if runId in disk.archivedOutputs {
            resp := Response(200, FileBody("text/csv", runId + "_output.csv"));
          } else {
            resp := FaultResponse(HttpError(404, "Requested file not found."));
          }
        case ArchiveLogs(runId) =>
          if runId in disk.latestLogs {
            resp := Response(200, FileBody("text/plain", disk.latestLogs[runId]));
          } else {
            resp := FaultResponse(HttpError(404, "Logs not available for this run."));
          }
        case NoRoute(detail) =>
          resp := FaultResponse(HttpError(404, detail));
      }
    }

    /** The `POST /api/simulations` branch. */
    method HandleLaunch(req: Request, decode: seq<byte> -> Decoded) returns (resp: Response)
      requires Valid()
      modifies this
      ensures Valid()
      ensures LaunchStep(ReadJsonBody(req.contentLength, req.input, decode), req.timestamp,
                         old(runStatus), old(runOrder), old(queue), resp, runStatus, runOrder, queue)
      ensures resp.status != 202 ==> unchanged(this)
    {
      var body := ReadJsonBody(req.contentLength, req.input, decode);
      if body.Err? {
        return FaultResponse(body.fault);
      }
      if body.value.OtherJson? {
        return FaultResponse(Crash("'" + body.value.typeName + "' object has no attribute 'get'"));
      }
      if !body.value.features.Items? {
        return FaultResponse(HttpError(400, "Payload must include a 'features' list."));
      }
      var r := Launch(body.value.features.items, req.timestamp);
      if r.Err? {
        resp := FaultResponse(r.fault);
      } else {
        resp := Response(202, Launched(r.value.0, r.value.1));
      }
    }
  }

  /** `environ.get("PATH_INFO", "")`. */
  function PathOf(req: Request): string {
    if req.path.Some? then req.path.value else ""
  }

  /** How `POST /api/simulations` answers and what it does to the
      registry (`rs`), its insertion order and the executor queue, given the
      body read: a body that cannot be read gives its fault, a JSON value
      that is not an object fails on `.get`, a body without a `features`
      list gives 400, and a features list is answered as
      `_launch_simulation` answers it. Only a launch answered 202 changes
      the state: it records the run as queued and submits it. */
  predicate LaunchStep(body: Result<Payload>, timestamp: string,
                       rs0: map<string, string>, order0: seq<string>, q0: seq<Job>, resp: Response,
                       rs1: map<string, string>, order1: seq<string>, q1: seq<Job>)
  {
    var same := rs1 == rs0 && order1 == order0 && q1 == q0;
    if body.Err? then resp == FaultResponse(body.fault) && same
    else if body.value.OtherJson? then
      resp == FaultResponse(Crash("'" + body.value.typeName + "' object has no attribute 'get'")) && same
    else if !body.value.features.Items? then
      resp == Response(400, Detail("Payload must include a 'features' list.")) && same
    else
      var f := body.value.features.items;
      var id := RunId(timestamp, Normalised(f));
      if InvalidFeatures(f) != [] then
        resp == FaultResponse(HttpError(400, UnsupportedMessage(InvalidFeatures(f)))) && same
      else if Taken(rs0, id) then
        resp == FaultResponse(HttpError(409, AlreadyQueued)) && same
      else
        && resp == Response(202, Launched(id, Queued))
        && rs1 == rs0[id := Queued]
        && order1 == (if id in rs0 then order0 else order0 + [id])
        && q1 == q0 + [Job(id, Normalised(f))]
  }

  /** Duplicate detection: once a launch is accepted its run id is taken,
      so the same request again (same features, same timestamp) is refused
      with 409 and changes nothing. */
  lemma RelaunchRefused(body: Result<Payload>, timestamp: string,
                        rs0: map<string, string>, order0: seq<string>, q0: seq<Job>, resp: Response,
                        rs1: map<string, string>, order1: seq<string>, q1: seq<Job>,
                        resp2: Response, rs2: map<string, string>, order2: seq<string>, q2: seq<Job>)
    requires LaunchStep(body, timestamp, rs0, order0, q0, resp, rs1, order1, q1) && resp.body.Launched?
    requires LaunchStep(body, timestamp, rs1, order1, q1, resp2, rs2, order2, q2)
    ensures resp.status == 202 && Taken(rs1, resp.body.runId)
    ensures resp2 == Response(409, Detail(AlreadyQueued))
    ensures rs2 == rs1 && order2 == order1 && q2 == q1
  {
  }
}
