/** The combined Vite and API server of server/integrated-server.js: a
    boolean single-flight flag beside the process handle, a gate on the
    input file, and a stop that always succeeds. Whether `input.csv` exists,
    whether a spawn throws (and with which message) and the process's
    `close` event are supplied by the caller; processes are named by the
    number spawned before them. */
module IntegratedServer {
  import opened Wrappers

  /** The JSON bodies this server answers with. */
  datatype Body =
    | Success
    | SuccessMessage(message: string)
    | Failure(error: string)
    | Running(isRunning: bool)
    | ErrorPage(message: string)

  datatype Reply = Reply(code: nat, body: Body)

  /** multer's `limits.fileSize`: 10 MiB. */
  const MaxUploadBytes := 10 * 1024 * 1024

  /** `POST /api/upload`, for an upload of `file` bytes (`None` when the
      request has no file field). A file over the size limit makes multer
      fail before the handler runs, and with no error middleware Express's
      default handler answers 500 with its error page. Otherwise no file is
      refused, the stored upload is renamed to `input.csv`, and a rename that
      throws answers 500 with the exception's message. */
  function UploadReply(file: Option<nat>, renameError: Option<string>): (r: Reply)
    ensures file.Some? && file.value > MaxUploadBytes ==> r == Reply(500, ErrorPage("File too large"))
    ensures file.None? ==> r == Reply(400, Failure("No file"))
    ensures file.Some? && file.value <= MaxUploadBytes && renameError.Some? ==>
      r == Reply(500, Failure(renameError.value))
    ensures r.code == 200 <==> file.Some? && file.value <= MaxUploadBytes && renameError.None?
  {
    if file.Some? && file.value > MaxUploadBytes then Reply(500, ErrorPage("File too large"))
    else if file.None? then Reply(400, Failure("No file"))
    else if renameError.Some? then Reply(500, Failure(renameError.value))
    else Reply(200, SuccessMessage("Uploaded"))
  }

  /** The module-level `simProcess` and `simRunning`. */
  class SimulationHost {
    var simProcess: Option<nat>
    var simRunning: bool
    /** How many processes have been spawned. */
    var spawned: nat
    /** The processes `kill()` was sent to, in order. */
    var killed: seq<nat>

    /** The flag is set exactly while a handle is held. */
    predicate Valid()
      reads this
    {
      simRunning <==> simProcess.Some?
    }

    constructor ()
      ensures Valid()
      ensures simProcess == None && !simRunning && spawned == 0 && killed == []
    {
      simProcess := None;
      simRunning := false;
      spawned := 0;
      killed := [];
    }

    /** `POST /api/simulation/start`. The running check comes before the
        input check; a spawn that throws answers 500 with its message and
        leaves the flag false. */
    method Start(inputExists: bool, spawnError: Option<string>) returns (reply: Reply)
      requires Valid()
      modifies this
      ensures Valid()
      ensures old(simRunning) ==> reply == Reply(400, Failure("Already running")) && unchanged(this)
      ensures !old(simRunning) && !inputExists ==> reply == Reply(400, Failure("No CSV")) && unchanged(this)
      ensures !old(simRunning) && inputExists && spawnError.Some? ==>
        && reply == Reply(500, Failure(spawnError.value))
        && !simRunning && simProcess == old(simProcess) && spawned == old(spawned)
      ensures !old(simRunning) && inputExists && spawnError.None? ==>
        && reply == Reply(200, Success)
        && simRunning && simProcess == Some(old(spawned)) && spawned == old(spawned) + 1
      ensures killed == old(killed)
    {
      if simRunning {
        return Reply(400, Failure("Already running"));
      }
      if !inputExists {
        return Reply(400, Failure("No CSV"));
      }
      if spawnError.Some? {
        simRunning := false;
        return Reply(500, Failure(spawnError.value));
      }
      simProcess := Some(spawned);
      spawned := spawned + 1;
      simRunning := true;
      reply := Reply(200, Success);
    }

    /** The `close` event of process `pid`: both fields are reset, whichever
        process it was. */
    method Close(pid: nat)
      modifies this
      ensures Valid()
      ensures !simRunning && simProcess == None
      ensures spawned == old(spawned) && killed == old(killed)
    {
      simRunning := false;
      simProcess := None;
    }

    /** `POST /api/simulation/stop`: kill the process if there is one, reset
        both fields, and report success in every case. */
    method Stop() returns (reply: Reply)
      modifies this
      ensures Valid()
      ensures reply == Reply(200, Success)
      ensures !simRunning && simProcess == None && spawned == old(spawned)
      ensures killed == if old(simProcess).Some? then old(killed) + [old(simProcess).value] else old(killed)
    {
      if simProcess.Some? {
        killed := killed + [simProcess.value];
      }
      simRunning := false;
      simProcess := None;
      reply := Reply(200, Success);
    }

    /** `GET /api/simulation/status`: the flag and nothing else. */
    function Status(): (r: Reply)
      reads this
      ensures r.code == 200 && r.body == Running(simRunning)
    {
      Reply(200, Running(simRunning))
    }

    /** A start refused for a missing input spawns nothing, and a second
        start while the first runs is refused whatever the input. */
    method StartTwice(inputExists: bool) returns (first: Reply, second: Reply)
      requires Valid() && !simRunning
      modifies this
      ensures inputExists ==> first.code == 200 && second == Reply(400, Failure("Already running"))
      ensures !inputExists ==> first == Reply(400, Failure("No CSV")) && second == first
      ensures spawned == old(spawned) + (if inputExists then 1 else 0)
    {
      first := Start(inputExists, None);
      second := Start(inputExists, None);
    }
  }
}
