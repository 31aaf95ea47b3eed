/** The Express back end of server/index.js: one simulation process at a
    time, its stdout and stderr collected into a capped log, and the upload
    filter for the input CSV. Spawning, killing and the process's own output
    are abstract: a spawn or a kill either succeeds or throws (a boolean
    parameter), each process is named by the number of processes spawned
    before it, and the `data`/`close` events are method calls made by the
    environment. The clock reading `Date.now()` is a parameter. */
module IndexServer {
  import opened Wrappers
  import opened Text

  /** The log keeps at most this many entries after a stdout append. */
  const MaxLogEntries := 1000
  /** The logs endpoint serves at most this many of the newest entries. */
  const RecentLogCount := 100
  /** multer's `limits.fileSize`: 10 MiB. */
  const MaxUploadBytes := 10 * 1024 * 1024

  /** The body the server answers with. */
  datatype Body =
    | Message(message: string, status: string)
    | Failure(error: string)
    | Uploaded(filename: string, size: nat)
    | StatusReport(isRunning: bool, currentTime: int)

  datatype Reply = Reply(code: nat, body: Body)

  /** A file multer received: its declared type, its client-side name and
      its length in bytes. */
  datatype UploadedFile = UploadedFile(mimetype: string, originalName: string, size: nat)

  /** The `fileFilter`: a CSV by type or by name. */
  predicate AcceptsUpload(f: UploadedFile) {
    f.mimetype == "text/csv" || EndsWith(f.originalName, ".csv")
  }

  /** `.slice(-1000)` once the log outgrows the cap: the newest entries. */
  function Cap(logs: seq<string>): (r: seq<string>)
    ensures |r| == if |logs| > MaxLogEntries then MaxLogEntries else |logs|
    ensures r == logs[|logs| - |r|..]
  {
    if |logs| > MaxLogEntries then logs[|logs| - MaxLogEntries..] else logs
  }

  /** `POST /api/upload`. A file the filter refuses, or one over the size
      limit, makes multer pass an error to the error middleware, which
      answers 500 with the error's message ("File too large" is multer's
      own wording); with no file at all the handler answers 400; otherwise
      the file is stored as `input.csv`. */
  function UploadReply(file: Option<UploadedFile>): (r: Reply)
    ensures r.code == 200 <==> file.Some? && AcceptsUpload(file.value) && file.value.size <= MaxUploadBytes
    ensures r.code == 200 ==> r.body == Uploaded("input.csv", file.value.size)
    ensures file.None? ==> r == Reply(400, Failure("No file uploaded"))
    ensures file.Some? && !AcceptsUpload(file.value) ==> r == Reply(500, Failure("Only CSV files are allowed"))
  {
    if file.None? then Reply(400, Failure("No file uploaded"))
    else if !AcceptsUpload(file.value) then Reply(500, Failure("Only CSV files are allowed"))
    else if file.value.size > MaxUploadBytes then Reply(500, Failure("File too large"))
    else Reply(200, Uploaded("input.csv", file.value.size))
  }

  /** The module-level `simulationProcess` and `simulationData`. */
  class SimulationServer {
    /** The handle of the running process, `null` when there is none. */
    var process: Option<nat>
    var isRunning: bool
    var currentTime: int
    var logs: seq<string>
    /** How many processes have been spawned; the next one gets this number. */
    var spawned: nat
    /** The processes sent SIGTERM, in order. */
    var signalled: seq<nat>

    /** The flag mirrors the handle, whatever the sequence of requests and
        events. */
    predicate Valid()
      reads this
    {
      isRunning <==> process.Some?
    }

    constructor (now: int)
      ensures Valid()
      ensures process == None && !isRunning && currentTime == now && logs == []
      ensures spawned == 0 && signalled == []
    {
      process := None;
      isRunning := false;
      currentTime := now;
      logs := [];
      spawned := 0;
      signalled := [];
    }

    /** `POST /api/simulation/start`. A held handle refuses the request; a
        spawn that throws leaves everything as it was; otherwise the new
        process's handle is kept. The log is never cleared. */
    method Start(now: int, spawnThrows: bool) returns (reply: Reply)
      requires Valid()
      modifies this
      ensures Valid()
      ensures old(process).Some? ==>
        reply == Reply(400, Failure("Simulation already running")) && unchanged(this)
      ensures old(process).None? && spawnThrows ==>
        reply == Reply(500, Failure("Failed to start simulation process")) && unchanged(this)
      ensures old(process).None? && !spawnThrows ==>
        && reply == Reply(200, Message("Simulation started successfully", "running"))
        && process == Some(old(spawned)) && spawned == old(spawned) + 1
        && isRunning && currentTime == now
      ensures logs == old(logs) && signalled == old(signalled)
    {
      if process.Some? {
        return Reply(400, Failure("Simulation already running"));
      }
      if spawnThrows {
        return Reply(500, Failure("Failed to start simulation process"));
      }
      process := Some(spawned);
      spawned := spawned + 1;
      isRunning := true;
      currentTime := now;
      reply := Reply(200, Message("Simulation started successfully", "running"));
    }

    /** A stdout `data` event: the chunk is logged trimmed, and if the log
        now holds more than 1000 entries only the newest 1000 are kept. The
        handler stays attached to its process, so a chunk may arrive from a
        process that is no longer the held one. */
    method Stdout(chunk: string)
      modifies this
      ensures logs == Cap(old(logs) + [Trim(chunk)])
      ensures |logs| <= MaxLogEntries && logs[|logs| - 1] == Trim(chunk)
      ensures |old(logs)| < MaxLogEntries ==> logs == old(logs) + [Trim(chunk)]
      ensures unchanged(`process, `isRunning, `currentTime, `spawned, `signalled)
    {
      var entry := Trim(chunk);
      var grown := logs + [entry];
      CapDropsOldest(logs, entry);
      if |grown| > MaxLogEntries {
        grown := grown[|grown| - MaxLogEntries..];
      }
      logs := grown;
    }

    /** A stderr `data` event: logged with an "ERROR: " prefix and no cap,
        so the log can exceed 1000 entries until the next stdout chunk. */
    method Stderr(chunk: string)
      modifies this
      ensures logs == old(logs) + ["ERROR: " + Trim(chunk)]
      ensures unchanged(`process, `isRunning, `currentTime, `spawned, `signalled)
    {
      logs := logs + ["ERROR: " + Trim(chunk)];
    }

    /** A `close` event of process `pid`. The handler does not look at which
        process closed: it clears the flag and the handle in any case. */
    method Close(pid: nat, exitCode: int)
      modifies this
      ensures Valid()
      ensures process == None && !isRunning
      ensures unchanged(`logs, `currentTime, `spawned, `signalled)
    {
      isRunning := false;
      process := None;
    }

    /** `POST /api/simulation/stop`: with no handle, a refusal; otherwise
        SIGTERM, and the handle and flag are cleared at once, before the
        process has exited. A kill that throws changes nothing. */
    method Stop(killThrows: bool) returns (reply: Reply)
      requires Valid()
      modifies this
      ensures Valid()
      ensures old(process).None? ==> reply == Reply(400, Failure("No simulation running")) && unchanged(this)
      ensures old(process).Some? && killThrows ==>
        reply == Reply(500, Failure("Failed to stop simulation process")) && unchanged(this)
      ensures old(process).Some? && !killThrows ==>
        && reply == Reply(200, Message("Simulation stopped successfully", "stopped"))
        && process == None && !isRunning
        && signalled == old(signalled) + [old(process).value]
      ensures unchanged(`logs, `currentTime, `spawned)
    {
      if process.None? {
        return Reply(400, Failure("No simulation running"));
      }
      if killThrows {
        return Reply(500, Failure("Failed to stop simulation process"));
      }
      signalled := signalled + [process.value];
      process := None;
      isRunning := false;
      reply := Reply(200, Message("Simulation stopped successfully", "stopped"));
    }

    /** `GET /api/simulation/status` (the position and statistics fields are
        never filled in by this server and are left out). */
    function Status(): (r: Reply)
      reads this
      ensures r.code == 200 && r.body.StatusReport?
      ensures r.body.isRunning == isRunning && r.body.currentTime == currentTime
    {
      Reply(200, StatusReport(isRunning, currentTime))
    }

    /** `GET /api/simulation/logs`: `.slice(-100)`. */
    function RecentLogs(): (r: seq<string>)
      reads this
      ensures |r| == if |logs| > RecentLogCount then RecentLogCount else |logs|
      ensures r == logs[|logs| - |r|..]
    {
      if |logs| > RecentLogCount then logs[|logs| - RecentLogCount..] else logs
    }

    /** A stop, a restart and then the first process's late `close` event:
        the close clears the handle of the second, still running, process. */
    method StopRestartLateClose(now: int) returns (first: nat, second: nat)
      requires Valid() && process.None?
      modifies this
      ensures Valid()
      ensures first != second && signalled == old(signalled) + [first]
      ensures process == None && !isRunning
    {
      var r := Start(now, false);
      first := process.value;
      r := Stop(false);
      r := Start(now, false);
      second := process.value;
      Close(first, 0);
    }
  }

  /** The newest entries are served: the last entry logged is the last one
      served, and while at most 100 entries exist all of them are. */
  lemma RecentLogsNewest(s: SimulationServer)
    requires |s.logs| > 0
    ensures s.RecentLogs()[|s.RecentLogs()| - 1] == s.logs[|s.logs| - 1]
    ensures |s.logs| <= RecentLogCount ==> s.RecentLogs() == s.logs
  {
  }

  /** Capping an over-long log drops only its oldest entries, and a log
      with room is left alone. */
  lemma CapDropsOldest(logs: seq<string>, entry: string)
    ensures |logs| < MaxLogEntries ==> Cap(logs + [entry]) == logs + [entry]
    ensures |logs| >= MaxLogEntries ==> Cap(logs + [entry]) == logs[|logs| - MaxLogEntries + 1..] + [entry]
  {
    var l := logs + [entry];
    if |logs| >= MaxLogEntries {
      assert l[|l| - MaxLogEntries..] == logs[|logs| - MaxLogEntries + 1..] + [entry];
    }
  }
}
