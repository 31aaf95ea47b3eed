# Balanced corridor planner: a verified model of its deterministic core

The balanced corridor planner schedules the horizontal transports (HTs) of a
container terminal. Each job moves a container between a quay crane (QC) and a
yard block. The project runs the planner from a command line, from two Node
servers and from a Python API, and streams progress over a websocket to a
browser dashboard. This Dafny project models the parts of that system that are
sequential logic:

- **the job planner** (`JobPlanner`, src/plan/job_planner.py), in five modules:
  - `PlannerFlags`: parse the feature flags;
  - `YardOptions`: enumerate and pick candidate yards, and keep and decay the
    usage counters;
  - `Capacity`: repair overflowed yards;
  - `Paths`: build the fixed-lane paths;
  - `Planner`: run the planning round, choosing HTs and yards, building the
    eight-step instruction sequence of each job, and keeping the path cache
    and the usage counters;
- **the three run supervisors**, each its own state machine:
  - `IndexServer` (server/index.js);
  - `IntegratedServer` (server/integrated-server.js);
  - `ApiApp` and `ApiFeatures` (src/api/app.py): the run-status registry,
    the feature lists, run ids, archive listing, body reading and request
    routing;
- **the dataset handling** (`CsvHandler`, src/utils/csvHandler.ts): parse,
  validate and serialise, with the round trip between them;
- **the statistics panel** (`Stats`, src/components/SimulationStats.ts) and
  **the progress producer** (`CliRealtime`, cli_realtime.py);
- **both ends of the telemetry channel**:
  - `WebSocketClient` (src/services/SimulationWebSocket.ts);
  - `WebSocketServer` (src/websocket_server.py);
- **the feature toggle** (`ToggleGroup`, ToggleGroup.tsx).

`Text`, `Seqs` and `Wrappers` hold shared helpers:
- the ASCII behaviour of the string methods the source uses;
- list filtering and first-occurrence de-duplication;
- `Option`.

The source changes state in place in several places, and the model keeps that
form there:
- each server's module-level variables are a class's fields;
- the planner's counters and cache are fields of `Planner.JobPlanner`;
- the API's status dictionary is a `map` field of `ApiApp.ApiState`;
- each loop that updates variables step by step is a `while` loop, whose
  `ensures` ties the result to a function; lemmas state the properties of
  that function;
- comprehensions and `Counter` updates are functions.

Pure code is modelled as functions and lemmas.

Parameters stand in for the environment:
- the clock;
- whether a spawn, a kill, a send or a rename throws;
- whether a file exists, and the archive directory as a value (`ApiApp.Disk`);
- JSON decoding;
- the HT and job trackers, and the sector coordinates;
- the planner's float cost heuristics, as uninterpreted costs;
- the result of the randomised yard search.

Some behaviours of the code are easy to misread, and the model states them as
the code has them:
- **`server/index.js`, the stderr handler:** it does not cap the log, so the
  log can exceed 1000 entries until the next stdout chunk.
- **`server/index.js`, stop:** it reports "stopped" and clears the handle
  before the process has exited.
- **`server/index.js`, the `close` handler:** it clears whatever handle is
  held, including that of a newer run.
- **`server/integrated-server.js`, stop:** it answers success even when no
  process is running.
- **The browser client's reconnect limit:** once five attempts are used up
  it stops retrying and reports nothing further.
- **Progress lines:** the runner's progress lines are printed and never
  parsed.

## Model

| member | source | states |
|---|---|---|
| CsvHandler.ParseCsv | src/utils/csvHandler.ts:17-29 | fails with "CSV file is empty" exactly when the text is whitespace only; otherwise there is at least one header, and one row for each kept line after the first |
| CsvHandler.NoKeptLineIffBlank | src/utils/csvHandler.ts:17-22 | no line survives the `line.trim()` filter exactly when the whole text is whitespace |
| CsvHandler.ParsedCellsClean | src/utils/csvHandler.ts:24-27 | every parsed header and cell is trimmed and contains neither ',' nor '\n' |
| CsvHandler.ValidateCsv | src/utils/csvHandler.ts:40-61 | no headers gives "CSV must have headers", checked first; then no rows gives "CSV must have at least one data row"; the first row of the wrong width gives "Row {i+1} has {n} columns, expected {h}"; otherwise valid exactly when every row has the header count |
| CsvHandler.ValidateShortSecondRow | src/utils/csvHandler.ts:50-58 | headers [a, b] with rows [[1, 2], [3]] give "Row 2 has 1 columns, expected 2" |
| CsvHandler.SecondRowMessage | src/utils/csvHandler.ts:55 | the 1-based message text of row index 1 with 1 of 2 columns |
| CsvHandler.CellsOfRowText | src/utils/csvHandler.ts:24-26 | re-splitting a joined row of clean cells on ',' and trimming gives the row back |
| CsvHandler.ContentLines | src/utils/csvHandler.ts:90-94 | the kept lines of the serialised text are the header line followed by each row's line |
| CsvHandler.ParseGetCsvContent | src/utils/csvHandler.ts:90-94 | parsing `getCSVContent(d)` gives `d` back when no cell holds ',' or '\n' or edge whitespace and no line is blank |
| Stats.DefaultsIdle | src/components/SimulationStats.ts:17-27 | the initial stats have every class balanced (8, 80, 16), 20000 jobs remaining, and all activity counts 0 |
| Stats.Merge | src/components/SimulationStats.ts:174 | each field the update carries wins, every other field keeps its value |
| Stats.MergeIdempotent | src/components/SimulationStats.ts:174 | merging the same update twice equals merging it once |
| Stats.MergeKeepsBalanced | src/components/SimulationStats.ts:174 | an update carrying each active/idle pair completely (with the right sum) or not at all keeps active + idle at 8/80/16 |
| Stats.ApplyAllSnoc | src/components/SimulationStats.ts:174 | folding one more update is one more merge |
| Stats.ApplyAllLastWins | src/components/SimulationStats.ts:174 | after a sequence of updates each field holds the value of the last update that carried it, or its starting value |
| Stats.ApplyAllKeepsBalanced | src/components/SimulationStats.ts:17-27 | a sequence of pair-complete updates keeps every class balanced |
| Stats.SimulationStats.constructor | src/components/SimulationStats.ts:15-27 | starts from the default stats with the counter at 0 |
| Stats.SimulationStats.UpdateStats | src/components/SimulationStats.ts:166-174 | the counter grows by exactly one and the stats become the merge of the old stats with the update |
| Stats.SimulationStats.UpdateStatsAll | src/components/SimulationStats.ts:166-174 | n calls grow the counter by n and leave the fold of the merges |
| Stats.TimeParts | src/components/SimulationStats.ts:38-40 | hours·3600 + minutes·60 + seconds equals the input, with minutes and seconds below 60 |
| Stats.MinutesAndSeconds | src/components/SimulationStats.ts:39-40 | the remainder below an hour splits into minutes below 60 and the seconds |
| Stats.TwoDigits | src/components/SimulationStats.ts:41 | `padStart(2, '0')`: at least two decimal digits that read back as the number |
| Stats.ClockSplits | src/components/SimulationStats.ts:41 | the formatted time splits on ':' into exactly its three padded groups |
| Stats.FormatTimeFields | src/components/SimulationStats.ts:37-42 | `formatTime` gives three ':'-separated fields of at least two digits that read back as hours, minutes and seconds, and so as the input seconds |
| ToggleGroup.Toggle | balanced-corridor-planner/src/components/ToggleGroup.tsx:10-12 | the key is in the result exactly when it was not in the input; every other key's membership is unchanged |
| ToggleGroup.TogglePlacesKey | balanced-corridor-planner/src/components/ToggleGroup.tsx:11 | an absent key is appended after the unchanged list; a present key loses every occurrence |
| ToggleGroup.ToggleKeepsOthers | balanced-corridor-planner/src/components/ToggleGroup.tsx:11 | with the key removed from both, the result and the input are the same sequence, so the other keys keep their relative order |
| ToggleGroup.ToggleTwiceAbsent | balanced-corridor-planner/src/components/ToggleGroup.tsx:11 | toggling an absent key twice gives the original list |
| ToggleGroup.ToggleTwicePresent | balanced-corridor-planner/src/components/ToggleGroup.tsx:11 | toggling a present key twice leaves one occurrence, moved to the end |
| CliRealtime.ActiveCount | cli_realtime.py:58-63 | `min(capacity, i % capacity + 1)` lies between 1 and the capacity |
| CliRealtime.ProgressPayload | cli_realtime.py:54-64 | completed + remaining = total with neither negative; active + idle = 8, 80 and 16, each active count at least 1 |
| CliRealtime.ProgressTimeIncreases | cli_realtime.py:57 | `currentTime` of a later record is larger, by exactly ten per record |
| CliRealtime.RunSimulationWithUpdates | cli_realtime.py:41-77 | one start event, then one progress event per record in order with its payload, then one complete event |
| CliRealtime.RunMain | cli_realtime.py:86-111 | exits with 1 before any broadcast exactly when the input is missing, unreadable or has no rows; otherwise broadcasts the full event sequence |
| WebSocketClient.ReconnectStep | src/services/SimulationWebSocket.ts:71-83 | at five attempts or more nothing happens; below five the count grows by exactly one and one `connect` is scheduled |
| WebSocketClient.RetriesBounded | src/services/SimulationWebSocket.ts:71-83 | n reconnect attempts in a row, with no open between them, schedule min(n, 5 − attempts) retries, so never more than five |
| WebSocketClient.DeliveriesAt | src/services/SimulationWebSocket.ts:45-51 | the k-th delivery of a parsed update goes to the k-th callback |
| WebSocketClient.ThrowingBounds | src/services/SimulationWebSocket.ts:46-50 | no error is logged exactly when no callback throws, and one per callback exactly when all of them throw |
| WebSocketClient.Dispatch | src/services/SimulationWebSocket.ts:45-51 | every callback is invoked with the update in order, whichever of them throw, and each throwing one adds one logged error |
| WebSocketClient.SimulationWebSocket.constructor | src/services/SimulationWebSocket.ts:14-23 | no socket, no callbacks, no attempts |
| WebSocketClient.SimulationWebSocket.AttemptReconnect | src/services/SimulationWebSocket.ts:71-83 | the attempt count and the scheduled retries follow `ReconnectStep`; nothing else changes |
| WebSocketClient.SimulationWebSocket.Connect | src/services/SimulationWebSocket.ts:25-30 | a fresh CONNECTING socket becomes `ws`; a constructor that throws logs an error and goes through `attemptReconnect` (lines 65-68) |
| WebSocketClient.SimulationWebSocket.RetryTimerFires | src/services/SimulationWebSocket.ts:80-82 | a scheduled retry is used up and `connect` runs |
| WebSocketClient.SimulationWebSocket.OnOpen | src/services/SimulationWebSocket.ts:31-37 | the attempt count is reset to 0 and a `{"type": "ping"}` is sent on the current socket, except that a current socket still connecting makes `send` throw and nothing is sent |
| WebSocketClient.SimulationWebSocket.OnClose | src/services/SimulationWebSocket.ts:61-64 | any socket's close, the current one or one already disconnected, makes a reconnect attempt |
| WebSocketClient.SimulationWebSocket.OnMessage | src/services/SimulationWebSocket.ts:39-55 | a message that fails to parse reaches no callback and logs one error; a parsed one reaches every callback in order, a throwing callback not stopping the rest |
| WebSocketClient.SimulationWebSocket.Subscribe | src/services/SimulationWebSocket.ts:85-87 | adds the callback unless it is already there, so a duplicate subscribe is one entry |
| WebSocketClient.SimulationWebSocket.Unsubscribe | src/services/SimulationWebSocket.ts:90-93 | removes exactly that callback and keeps the others in order |
| WebSocketClient.SimulationWebSocket.Disconnect | src/services/SimulationWebSocket.ts:96-103 | forgets the socket and clears every callback, leaving the attempt count as it was |
| WebSocketClient.SimulationWebSocket.IsConnected | src/services/SimulationWebSocket.ts:105-107 | true exactly when a socket exists and its state is OPEN |
| WebSocketServer.WrapUpdate | src/websocket_server.py:92-96 | the envelope carries exactly the type, the data and the clock reading |
| WebSocketServer.OnceEachExtend | src/websocket_server.py:38-40 | one send to a client not yet served extends "one send to each" to that client |
| WebSocketServer.Deliver | src/websocket_server.py:36-42 | one pass over the clients: exactly one send of the message to each open client, and the closed clients collected as disconnected |
| WebSocketServer.SimulationWebSocketServer.constructor | src/websocket_server.py:14-18 | no clients, nothing sent |
| WebSocketServer.SimulationWebSocketServer.Register | src/websocket_server.py:20-22 | adds the client |
| WebSocketServer.SimulationWebSocketServer.Unregister | src/websocket_server.py:25-27 | `discard`: removes the client, and an absent client changes nothing |
| WebSocketServer.SimulationWebSocketServer.Broadcast | src/websocket_server.py:30-46 | with no clients nothing is serialised or sent; otherwise one serialisation, the same text sent once to each open client, and only the clients whose send raised are removed |
| WebSocketServer.SimulationWebSocketServer.SendToAll | src/websocket_server.py:38-42 | every client is tried once; the disconnected set is the clients whose send raised |
| WebSocketServer.SimulationWebSocketServer.Prune | src/websocket_server.py:45-46 | removes exactly the disconnected clients |
| WebSocketServer.SimulationWebSocketServer.Handler | src/websocket_server.py:48-58 | answers each incoming message with `{"type": "pong"}` and always ends with the client unregistered |
| WebSocketServer.ServerRegistry.GetServer | src/websocket_server.py:81-86 | creates the instance on the first call and returns the same instance afterwards |
| WebSocketServer.ServerRegistry.GetServerTwice | src/websocket_server.py:81-86 | two calls return the same server |
| WebSocketServer.ServerRegistry.BroadcastUpdate | src/websocket_server.py:89-97 | broadcasts the serialised `{type, data, timestamp}` envelope on the shared server |
| WebSocketServer.ServerRegistry.constructor | src/websocket_server.py:78 | no server instance exists before the first `get_server` |
| PlannerFlags.Defaults | src/plan/job_planner.py:41-46 | exactly the four known flags, all off |
| PlannerFlags.TokenSetting | src/plan/job_planner.py:49-58 | a token switches only a known flag, and a blank token switches nothing |
| PlannerFlags.LaterTokensWin | src/plan/job_planner.py:49-58 | a flag switched by a later token takes that token's value whatever the earlier tokens said |
| PlannerFlags.ParseFeatures | src/plan/job_planner.py:41-60 | the flag dictionary holds the four flags and the override names; an override wins; every other flag has the value of the last token that switches it, or off |
| PlannerFlags.BlankEnvironment | src/plan/job_planner.py:47-48 | an unset or empty `JOB_PLANNER_FEATURES` switches nothing on |
| PlannerFlags.ApplyTokens | src/plan/job_planner.py:49-58 | the token loop leaves each flag at the value of the last token that switches it, or off |
| PlannerFlags.ApplyToken | src/plan/job_planner.py:50-58 | one token: stripped, skipped when blank, `!name` turns a known flag off, a bare known name turns it on, anything else is ignored |
| PlannerFlags.ApplyEffect | src/plan/job_planner.py:55-58 | applying a setting keeps the dictionary's names and changes only the named flag |
| PlannerFlags.StepSetting | src/plan/job_planner.py:49 | one more token updates the last setting of each flag by that token's own setting |
| YardOptions.EnumerateYardOptions | src/plan/job_planner.py:576-584 | the options are the set primary yard and then each set alternate not yet listed: no duplicates, no empty name, membership exactly "set and primary or alternate", the primary first when it is set |
| YardOptions.PickFeasibleYard | src/plan/job_planner.py:687-693 | the choice is the first option whose count is strictly below 700, or the first option when none is |
| YardOptions.YardSide | src/plan/job_planner.py:720-723 | a yard is west exactly when its name starts with A, B, C or D |
| YardOptions.CorridorSide | src/plan/job_planner.py:933-936 | no side without a coordinate; west exactly for columns up to 21 |
| YardOptions.AddAllCounts | src/plan/job_planner.py:294 | `Counter.update` adds to each key the number of its occurrences and adds the new names as keys |
| YardOptions.AddAllSnoc | src/plan/job_planner.py:296-298 | counting one more name is one increment of that name's count |
| YardOptions.Decayed | src/plan/job_planner.py:728-736 | after the decay a yard remains exactly when its count was above 1, and each remaining count is one lower |
| YardOptions.DecayedTimesValue | src/plan/job_planner.py:728-736 | after `n` decays of positive counts exactly the yards above `n` remain, each lowered by `n` |
| YardOptions.DecayForgets | src/plan/job_planner.py:728-736 | a record whose counts are at most `n` is empty after `n` decays |
| YardOptions.CorridorDecayed | src/plan/job_planner.py:924-931 | both sides keep their entries; a positive count drops by one, a zero or negative one stays |
| Paths.RowUp | src/plan/job_planner.py:769-772 | an ascending `range` along a row: its length and the cell at each index |
| Paths.RowDown | src/plan/job_planner.py:762-764 | a descending `range` along a row: its length and the cell at each index |
| Paths.ColUp | src/plan/job_planner.py:809 | an ascending `range` along a column: its length and the cell at each index |
| Paths.ColDown | src/plan/job_planner.py:766 | a descending `range` along a column: its length and the cell at each index |
| Paths.WalkAppend | src/plan/job_planner.py:758-775 | two walks joined at neighbouring ends form one walk |
| Paths.BufferToQC | src/plan/job_planner.py:758-775 | the route to a crane starts on the highway lane below the buffer and ends at the crane's in-coordinate |
| Paths.BufferToYard | src/plan/job_planner.py:801-821 | the route to a yard starts one cell above the buffer and ends at the yard's in-coordinate |
| Paths.YardToBuffer | src/plan/job_planner.py:845-859 | the route back from a yard starts at its out-coordinate and ends at the buffer |
| Paths.QCToBuffer | src/plan/job_planner.py:884-899 | the route back from a crane starts at its out-coordinate, steps onto the lane y = 4 and ends at the buffer |
| Paths.RowUpWalk | src/plan/job_planner.py:769-772 | an ascending row segment moves one cell at a time |
| Paths.RowDownWalk | src/plan/job_planner.py:762-764 | a descending row segment moves one cell at a time |
| Paths.ColUpWalk | src/plan/job_planner.py:809 | an ascending column segment moves one cell at a time |
| Paths.ColDownWalk | src/plan/job_planner.py:766 | a descending column segment moves one cell at a time |
| Paths.BufferToQCWalk | src/plan/job_planner.py:739-778 | from a buffer at a positive column every step up to the crane moves to a neighbouring cell, and the last step too when the crane's in-cell is on row 3 |
| Paths.BufferToQCLayout | src/plan/job_planner.py:758-775 | the route to a crane, cell by cell: (bx, 7), west along y = 7 to x = 1, then (1, 6), (1, 5), (1, 4), east along y = 4 from x = 2 to the crane's column, then the in-coordinate |
| Paths.BufferToYardWalk | src/plan/job_planner.py:780-824 | from a buffer on row 6 every step up to the yard moves to a neighbouring cell, and the last step too when the yard's in-cell is on row 13 |
| Paths.YardToBufferWalk | src/plan/job_planner.py:826-862 | leaving a yard at most at column 41, every step after the start moves to a neighbouring cell, up to the buffer when it lies on row 6 |
| Paths.QCToBufferWalk | src/plan/job_planner.py:864-902 | leaving a crane at most at column 42, every step after the start moves to a neighbouring cell, up to the buffer when it lies on row 6 |
| Capacity.AllOptions | src/plan/job_planner.py:663-667 | every option of every candidate is among the yards a move can target |
| Capacity.Universe | src/plan/job_planner.py:642-645 | a yard outside the base counts, the plan and the options has load 0 |
| Capacity.MoveLowersExcess | src/plan/job_planner.py:680-682 | moving one job from an over-full yard to a yard below capacity lowers the total overflow by exactly one |
| Capacity.MaxExists | src/plan/job_planner.py:659 | some over-full yard holds the largest excess, so `max` has an answer |
| Capacity.AltMoves | src/plan/job_planner.py:666-673 | one candidate gives at most one move per option |
| Capacity.Movable | src/plan/job_planner.py:662-673 | with no job in the yard there is no move |
| Capacity.AltMovesAt | src/plan/job_planner.py:666-673 | each move of one candidate targets one of its options other than the yard, below capacity, with the cost change as its delta |
| Capacity.MovableAt | src/plan/job_planner.py:662-673 | each move takes a job of the yard to one of its own options below capacity |
| Capacity.AltMovesComplete | src/plan/job_planner.py:666-673 | every option other than the yard that is below capacity gives a move |
| Capacity.MovableComplete | src/plan/job_planner.py:662-673 | every job of the yard with an option other than the yard below capacity gives a move to that option |
| Capacity.MoveLessTransitive | src/plan/job_planner.py:678 | the sort key `(delta, QC_name)` is ordered transitively |
| Capacity.MoveLessTotal | src/plan/job_planner.py:678 | two moves are ordered one way or the other unless their keys are equal |
| Capacity.FirstBest | src/plan/job_planner.py:678-679 | the move taken has the least key, and every move before it has a strictly greater key, as the first element after a stable sort |
| Capacity.CollectMoves | src/plan/job_planner.py:662-673 | the `movable_jobs` loop builds exactly the moves of the specification, in order |
| Capacity.CombinedCounts | src/plan/job_planner.py:642-645 | each yard's combined count is its base count plus the jobs the plan sends there |
| Capacity.CountOneMore | src/plan/job_planner.py:644-645 | counting one more planned job keeps the counts in step with the plan so far |
| Capacity.ShiftCounts | src/plan/job_planner.py:680-682 | the two counter updates of a move keep the counts in step with the changed plan |
| Capacity.LargestLoad | src/plan/job_planner.py:659 | the yard of largest count carries the largest load of all yards |
| Capacity.MoveKeepsRepairing | src/plan/job_planner.py:679-682 | a move keeps the counts in step and changes a job only to one of its own options |
| Capacity.FitsIffNoKey | src/plan/job_planner.py:647-656 | the overflow dictionary is empty exactly when no yard is over capacity |
| Capacity.EmptyPlanStuck | src/plan/job_planner.py:639-640 | with no planned job there is nothing to move |
| Capacity.RepairRound | src/plan/job_planner.py:658-683 | one round either finds the most over-full yard without a movable job and changes nothing, or makes a `RepairStep`: a yard over capacity with the largest load is chosen and the first move of least (delta, crane) key among its movable jobs is applied; the total overflow drops by one |
| Capacity.RepairStepMovesOne | src/plan/job_planner.py:658-683 | a repair step reassigns exactly one job, of a yard over capacity and as full as any, to another of that job's own options that is below capacity |
| Capacity.RepairMove | src/plan/job_planner.py:658-683 | one pass of the loop body keeps the loop state, extends the trace by its move, and either stops with the plan unchanged or strictly lowers the overflow |
| Capacity.RepairLoop | src/plan/job_planner.py:658-683 | the loop ends with no yard over capacity or the fullest one without a movable job; each consecutive pair of plans in its trace is one repair step |
| Capacity.EnforceCapacityLimit | src/plan/job_planner.py:633-685 | a plan that fits is returned as it is; the result is reached from the plan by a trace of repair steps, each moving one job out of a fullest over-full yard to one of its own options below capacity by the least (delta, crane) key; every job changed sits on one of its own options; the overflow drops by the number of moves; at the end no yard is over capacity or the fullest one has no movable job |
| Planner.FirstMin | src/plan/job_planner.py:405-414 | the strict-less scan from infinity: none exactly when every cost is infinite; otherwise an element of the list whose cost no element undercuts |
| Planner.FirstMinIsFirst | src/plan/job_planner.py:405-414 | the element chosen is the earliest cheapest: every element before it costs strictly more |
| Planner.BuildPath | src/plan/job_planner.py:739-902 | each cache key is served by the builder of its route, and no path is empty |
| Planner.LegTypes | src/plan/job_planner.py:133-205 | each half of a job is book, drive, work, drive |
| Planner.InstructionTypes | src/plan/job_planner.py:131-282 | a discharge job's eight instruction types visit the crane and then the yard, a loading job's the yard and then the crane |
| Planner.LoadingSwapsHalves | src/plan/job_planner.py:207-282 | a loading job does the discharge job's two halves in the other order |
| Planner.ReturnDrives | src/plan/job_planner.py:131-282 | every drive belongs to the job's HT, and the fourth and eighth instructions are the drives back from the first and second visit |
| Planner.DrivesReturnToBuffer | src/plan/job_planner.py:127-282 | both return drives end at the HT's buffer coordinate |
| Planner.HTsOf | src/plan/job_planner.py:119 | `selected_HT_names` lists the planned jobs' HTs in order |
| Planner.RoundYards | src/plan/job_planner.py:124-125 | the used yards are exactly the set yards of the planned jobs, and the discharge yards are among them |
| Planner.HTChoice | src/plan/job_planner.py:303-340 | the HT chosen is available, not already selected and has a coordinate; none exactly when every remaining cost is infinite |
| Planner.BestYard | src/plan/job_planner.py:405-414 | the yard chosen is one of the options |
| Planner.ChosenYard | src/plan/job_planner.py:393-403 | without a precomputed entry a set yard is the job's own yard or one of its alternates |
| Planner.HTsOfCons | src/plan/job_planner.py:119 | the HTs of a round with one more job in front |
| Planner.TakenAfter | src/plan/job_planner.py:119 | the HTs taken after a planned job and the rest of the round |
| Planner.RoundLength | src/plan/job_planner.py:97-118 | a round plans no more jobs than it is given |
| Planner.RoundPlansAt | src/plan/job_planner.py:97-119 | the `k`-th planned job is the `k`-th job planned with the HTs before it taken |
| Planner.RoundStops | src/plan/job_planner.py:117-118 | a round stops early only at a job for which no HT is found |
| Planner.RoundStep | src/plan/job_planner.py:97-119 | one more job planned extends the round by that job |
| Planner.RoundDone | src/plan/job_planner.py:117-118 | the round ends at a job no HT can take, or after the last job |
| Planner.RoundDistinctHTs | src/plan/job_planner.py:114-119 | a step that never repeats a taken HT gives a round whose HTs are pairwise distinct and distinct from those taken before |
| Planner.StepPlansJob | src/plan/job_planner.py:102-130 | one job: no plan exactly when no HT is found; otherwise a free available HT with a coordinate, the assigned yard and eight instructions whose return drives end at the HT's position |
| Planner.StepPicksFreeHT | src/plan/job_planner.py:322-324 | the step never picks an HT already selected this round |
| Planner.RoundHTsDistinct | src/plan/job_planner.py:92-119 | no HT gets two jobs in one planning round |
| Planner.PlannedSnoc | src/plan/job_planner.py:119-125 | one more planned job adds its HT, its set yard and, for a discharge job, its yard to the round's lists |
| Planner.MapSnoc | src/plan/job_planner.py:296-297 | mapping one more yard to its side |
| Planner.CountAll | src/plan/job_planner.py:289 | the `counter[name] += 1` loop is `Counter.update` of the names |
| Planner.CountSides | src/plan/job_planner.py:296-298 | the corridor loop counts each used yard once more for its side |
| Planner.JobPlanner.constructor | src/plan/job_planner.py:30-63 | the flags come from the environment string and then the overrides, and every counter and cache starts empty |
| Planner.JobPlanner.ApplyYardUsageDecay | src/plan/job_planner.py:728-736 | the usage record becomes its decayed value and nothing else changes |
| Planner.JobPlanner.ApplyCorridorHistoryDecay | src/plan/job_planner.py:924-931 | the corridor history becomes its decayed value and nothing else changes |
| Planner.JobPlanner.BuildPathWithCache | src/plan/job_planner.py:904-916 | the path is always the builder's path; with the cache off the builder runs every time; with it on a cached key is served without running it and a new key is stored |
| Planner.JobPlanner.BuildInstructions | src/plan/job_planner.py:127-282 | the instruction list of a job, with each path fetched through the cache |
| Planner.JobPlanner.SelectHT | src/plan/job_planner.py:303-340 | the loop's choice is the specification's first cheapest free HT |
| Planner.JobPlanner.SelectBestYard | src/plan/job_planner.py:405-414 | the loop's choice is the first cheapest option, or the first option when every cost is infinite |
| Planner.JobPlanner.SelectYard | src/plan/job_planner.py:393-403 | the precomputed plan's yard, else the best option, else the job's own yard |
| Planner.JobPlanner.PlanJob | src/plan/job_planner.py:99-130 | one pass of the job loop is the specification's step for that job |
| Planner.JobPlanner.RecordRoundUsage | src/plan/job_planner.py:292-298 | one decay and then the round's yards counted into the usage record, and by side into the corridor history when `dynamic_corridor_bias` is on |
| Planner.JobPlanner.FinishRound | src/plan/job_planner.py:285-298 | the discharge yards are counted into the allocation record, then the usage and corridor records are updated only if some yard was used |
| Planner.JobPlanner.StartRound | src/plan/job_planner.py:86-91 | the corridor history decays once when `dynamic_corridor_bias` is on, and the round's yard plan is recorded |
| Planner.JobPlanner.PlanJobs | src/plan/job_planner.py:92-290 | the job loop plans exactly the round `Round` describes and collects its used and discharge yards; the path cache only grows |
| Planner.JobPlanner.Plan | src/plan/job_planner.py:84-300 | `plan` as a whole: the planned jobs are the round, the allocation record grows by the round's discharge yards, and the usage and corridor records are updated as the round's yards dictate; the path cache only grows, but which keys it gains is not stated |
| IndexServer.Cap | server/index.js:110-112 | the capped log holds the newest entries and at most 1000 of them |
| IndexServer.CapDropsOldest | server/index.js:109-112 | an append to a full log drops exactly its oldest entry; an append with room keeps every entry |
| IndexServer.UploadReply | server/index.js:38-89 | success exactly for a CSV (by type or by name) of at most 10 MiB, stored as `input.csv` with its size; no file is a 400, a refused type a 500 with the filter's message |
| IndexServer.SimulationServer.constructor | server/index.js:52-59 | no process, not running, the clock reading at start and an empty log |
| IndexServer.SimulationServer.Start | server/index.js:92-136 | a held process refuses with 400 and changes nothing; a spawn that throws answers 500 and changes nothing; otherwise a new process is held, the flag is set and the time recorded; the log is kept |
| IndexServer.SimulationServer.Stdout | server/index.js:107-114 | the trimmed chunk is appended and the log capped at 1000 entries, nothing else changes |
| IndexServer.SimulationServer.Stderr | server/index.js:116-120 | the trimmed chunk is appended with an "ERROR: " prefix and no cap |
| IndexServer.SimulationServer.Close | server/index.js:122-126 | the handle and the flag are cleared whichever process closed |
| IndexServer.SimulationServer.Stop | server/index.js:139-156 | no handle is a 400; a kill that throws is a 500 and changes nothing; otherwise the held process is signalled and handle and flag are cleared at once |
| IndexServer.SimulationServer.Status | server/index.js:159-167 | the status answer reports the flag and the recorded time |
| IndexServer.SimulationServer.RecentLogs | server/index.js:170-175 | the logs answer is the newest entries, at most 100 of them |
| IndexServer.RecentLogsNewest | server/index.js:173 | the newest entry is always served last, and a log of at most 100 entries is served whole |
| IndexServer.SimulationServer.StopRestartLateClose | server/index.js:122-126 | a late `close` of a stopped process clears the handle of the process started after it |
| IntegratedServer.UploadReply | server/integrated-server.js:21-57 | a file over 10 MiB is refused by multer with Express's default 500 error page before the handler runs; no file is a 400 "No file"; a rename that throws is a 500 with its message; success exactly when a file within the limit is renamed |
| IntegratedServer.SimulationHost.constructor | server/integrated-server.js:37-38 | no process and the flag false |
| IntegratedServer.SimulationHost.Start | server/integrated-server.js:59-83 | running refuses first, then a missing `input.csv`, both changing nothing; a spawn that throws answers 500 with its message and leaves the flag false; otherwise the new process is held and the flag set |
| IntegratedServer.SimulationHost.Close | server/integrated-server.js:73-76 | both fields are reset whichever process closed |
| IntegratedServer.SimulationHost.Stop | server/integrated-server.js:85-92 | always success; a held process is killed, and both fields are reset |
| IntegratedServer.SimulationHost.Status | server/integrated-server.js:94-96 | the status answer is the flag |
| IntegratedServer.SimulationHost.StartTwice | server/integrated-server.js:59-83 | a second start while the first runs is refused, and a start refused for a missing input spawns nothing |
| ApiFeatures.KnownAreFlags | src/api/app.py:20-25 | the API's known feature names are exactly the planner's flag names |
| ApiFeatures.KnownAvoidSeparators | src/api/app.py:20-25 | no known name is "baseline" or contains '+' or ',' |
| ApiFeatures.KnownAreTokens | src/api/app.py:20-25 | every known name is non-blank, trimmed and does not start with '!' |
| ApiFeatures.NormaliseFeatures | src/api/app.py:65-71 | the loop returns the specification's normalised list |
| ApiFeatures.NormalisedIsDedup | src/api/app.py:65-71 | normalising is first-occurrence de-duplication of the cleaned names that are known |
| ApiFeatures.KeptIsDedup | src/api/app.py:67-70 | the loop from a duplicate-free start is de-duplication of the kept names after it |
| ApiFeatures.NormalisedSpec | src/api/app.py:65-71 | no name twice, exactly the cleaned request names that are known, in the order they first occur |
| ApiFeatures.KeptSpec | src/api/app.py:67-70 | the loop over cleaned names keeps each known name once, in first-occurrence order |
| ApiFeatures.InvalidFeaturesSorted | src/api/app.py:210 | the rejected names are sorted and each is listed once |
| ApiFeatures.InvalidFeaturesMembers | src/api/app.py:210 | the rejected names are exactly the cleaned request names that are not known, a blank one included |
| ApiFeatures.UnknownMembers | src/api/app.py:210 | sorting the de-duplicated unknown names keeps exactly the unknown names |
| ApiFeatures.ValidatedKeepsAll | src/api/app.py:210-214 | a request that passes validation loses only its repeated names in normalisation |
| ApiFeatures.ValidatedNames | src/api/app.py:210-214 | when every cleaned name is known, normalising is plain de-duplication |
| ApiFeatures.RunIdInjective | src/api/app.py:74-76 | two launches in the same second get the same run id exactly when they select the same features in the same order |
| ApiFeatures.SuffixInjective | src/api/app.py:75 | different feature lists give different run id suffixes |
| ApiFeatures.SuffixSplits | src/api/app.py:75 | splitting a suffix on '+' gives the features back, or "baseline" for none |
| ApiFeatures.EnvSelectsFeatures | src/api/app.py:226 | the planner started for a run switches on exactly the flags the run was launched with |
| ApiFeatures.KnownTokensSwitchOn | src/plan/job_planner.py:49-58 | a list of known names, read as tokens, switches on exactly the flags it names |
| ApiFeatures.SwitchOnStep | src/plan/job_planner.py:49-58 | one more known token keeps the flags switched on exactly those named |
| ApiFeatures.LastSwitchOn | src/plan/job_planner.py:57-58 | a final known token is the last setting of its flag and leaves the others as they were |
| ApiFeatures.KnownToken | src/plan/job_planner.py:57-58 | a known name as a token switches its own flag on |
| ApiApp.StatusText | src/api/app.py:39-50 | an unlisted code reads "OK", and no phrase is empty |
| ApiApp.StatusTextDistinct | src/api/app.py:40-49 | listed codes have phrases different from each other |
| ApiApp.FailureReason | src/api/app.py:242-243 | the message of a non-zero exit is never empty: the trimmed stderr or the fixed message |
| ApiApp.FinalStatusSpec | src/api/app.py:242-268 | a run completes exactly when it exits with 0 and archiving succeeds; otherwise it is "failed: " and the reason, a non-zero exit giving its stderr; a finished run is never queued, running or blank |
| ApiApp.Failed | src/api/app.py:268 | a failed status starts with "failed: " and is none of the other statuses |
| ApiApp.Archived | src/api/app.py:165-183 | the first loop gives at most one entry per directory |
| ApiApp.ArchivedShape | src/api/app.py:166-183 | each archived entry is built from its own directory's metadata and registry status |
| ApiApp.ArchivedIds | src/api/app.py:165-168 | the archived ids are exactly the directories with metadata |
| ApiApp.ArchivedNoDup | src/api/app.py:165-183 | distinct directories give distinct archived ids |
| ApiApp.ArchivedDescending | src/api/app.py:165 | directories in descending order give archived ids in descending order |
| ApiApp.ArchiveOrderDescending | src/api/app.py:165 | `sorted(..., reverse=True)` is descending and a permutation of the directories |
| ApiApp.ReverseDescending | src/api/app.py:165 | reversing an ascending list gives a descending one |
| ApiApp.PendingShape | src/api/app.py:191-204 | each entry of the second loop is bare, carries its in-progress status and has an id not listed before it |
| ApiApp.PendingCovers | src/api/app.py:191-204 | after the second loop every in-progress run is listed |
| ApiApp.PendingNoDup | src/api/app.py:191-204 | the second loop adds no id twice and none already listed |
| ApiApp.InProgressMembers | src/api/app.py:185-190 | every queued or running run of the registry is among the in-progress pairs, with its status |
| ApiApp.ListingSpec | src/api/app.py:162-206 | the archived runs come first in descending id order and are exactly the directories with metadata; every queued or running run is listed; no run is listed twice |
| ApiApp.ContentLengthReadsBack | src/api/app.py:143-146 | a length written as a decimal number reads back as itself |
| ApiApp.BodyBytes | src/api/app.py:147 | no bytes for a length of 0 or less; otherwise the first `length` bytes, fewer when the input ends first |
| ApiApp.NoBodyIsEmptyObject | src/api/app.py:147-149 | without a positive length or without input the body is `{}` |
| ApiApp.ReadsDeclaredLength | src/api/app.py:144-151 | bytes after the declared length are never read |
| ApiApp.ArchivePrefixParts | src/api/app.py:307-310 | a path under `/api/archive/` splits into at least four parts |
| ApiApp.ArchiveSplit | src/api/app.py:308 | the split of such a path is the three prefix parts and then the split of the rest |
| ApiApp.NeverInvalidArchive | src/api/app.py:307-310 | the "Invalid archive request." answer is unreachable |
| ApiApp.ArchivePathsRoute | src/api/app.py:307-330 | the output and logs URLs the listing hands out route to the file routes of that run |
| ApiApp.LeafRoute | src/api/app.py:308-312 | an archive file path splits into its five parts |
| ApiApp.OptionsAnyPath | src/api/app.py:287-291 | an OPTIONS request is answered before any path is looked at |
| ApiApp.FaultResponse | src/api/app.py:335-338 | an `HTTPError` keeps its status and message, any other exception answers 500 with "Internal error: " in front |
| ApiApp.ApiState.constructor | src/api/app.py:27-28 | the registry and the queue start empty |
| ApiApp.ApiState.SetRunStatus | src/api/app.py:79-81 | the run's status is set; a new id joins the end of the insertion order, an existing one keeps its place |
| ApiApp.ApiState.Launch | src/api/app.py:209-221 | unknown names answer 400 naming them; a run id with any status answers 409; both change nothing; otherwise the run is recorded as queued (a new id at the end of the status order), submitted under its id, and its id and status returned |
| ApiApp.ApiState.BeginRun | src/api/app.py:229 | the run is marked running; a new id goes to the end of the status order, a known one keeps its place |
| ApiApp.ApiState.FinishRun | src/api/app.py:242-268 | the run is marked with its final status; a new id goes to the end of the status order, a known one keeps its place |
| ApiApp.ApiState.RunNext | src/api/app.py:224-268 | the single worker runs the oldest submitted job with its features as `JOB_PLANNER_FEATURES` and records its final status, keeping the run's place in the status order |
| ApiApp.ApiState.ListArchives | src/api/app.py:162-206 | the two loops build the specification's listing |
| ApiApp.ApiState.ArchiveEntries | src/api/app.py:165-183 | the first loop builds the archived entries |
| ApiApp.ApiState.PendingEntries | src/api/app.py:185-204 | the second loop appends the bare in-progress entries |
| ApiApp.ApiState.Handle | src/api/app.py:283-341 | the answer of each route: 204 for OPTIONS, metrics or 404, the listing, each archive file or its 404, 404 for anything else; a launch answers and changes the registry, its order and the queue exactly as `LaunchStep` says; no other route changes the state |
| ApiApp.ApiState.HandleLaunch | src/api/app.py:300-306 | the answer and new state are those of `LaunchStep`: an unreadable body answers its fault, a non-object fails on `.get` with 500, a body without a `features` list 400, unknown names 400 naming them, a taken run id 409, and otherwise 202 with the run id while the run is recorded as queued and submitted; only the 202 changes the state |
| ApiApp.RelaunchRefused | src/api/app.py:216-221 | after an accepted launch its run id is taken, so the same request again answers 409 and changes nothing |

## Left out

- Spawning, killing and awaiting processes (`spawn`, `subprocess.run`) are not modelled. A spawn or kill is a success-or-throw parameter, and an exit is a `close` event or a run outcome, because the process itself is outside the program.
- The `ThreadPoolExecutor` of src/api/app.py is modelled as a first-in, first-out queue run one job at a time, and the `_status_lock` is left out. Concurrent interleavings are not modelled.
- Timers, sockets and asyncio (`setTimeout`, `asyncio.sleep`, `websockets.serve`, `start`/`stop` of the websocket server) are not modelled. The environment's events are method calls, and a send's failure is a parameter.
- File-system access is not modelled: `_archive_metadata`'s file discovery, `_metrics_from_output` (pandas), `shutil` copying, multer storage, `renameSync` and localStorage. They are given as values (`ApiApp.Disk`, existence flags), because they are I/O.
- HTTP glue (Express middleware, WSGI `start_response`, CORS headers, JSON serialisation) and the API clients are not modelled. Only the status code and body of each reply are.
- JSON decoding of request bodies, websocket messages and archive metadata is not modelled: it is a parameter, because its result is all the logic uses.
- The planner's float costs are not modelled: `_estimate_HT_assignment_cost`, `_yard_choice_cost`, `_score_yard_plan` and `_corridor_pressure_penalty`. They are uninterpreted costs that only order choices.
- The randomised yard search (`_optimize_yard_assignments`, `_random_assignment`, `_mutate_assignment`, `_diverse_seed_choice`) is not modelled. Its result is an input plan, because it depends on a random-number generator and float scores.
- `is_deadlock` and `get_non_moving_HT` of `JobPlanner`, and the HT and job trackers themselves, are left out. The trackers are inputs.
- `calculateEfficiency`, the progress percentage and all rendering (pages, canvases, the uploader and controls, the React components) are left out, because they are floating point or DOM work.
- simulation_runner.py, cli.py, run-simulation.js, save-csv.js and the Pyodide worker are left out, because they are prints, sleeps and I/O around code that is not part of this model.
- The index.js status fields `htPositions` and `terminalStats` are left out: that server never fills them.
- The `/api/health` and `/api/test` endpoints, and the integrated server's Vite start-up, are left out.
- Text handling is ASCII only. Strip, trim, lower-case and upper-case ignore Unicode whitespace and letters (and whitespace is the six characters of Text.IsSpace), and `int()` on a body length does not accept underscores or non-ASCII digits.
- A feature list whose elements are not strings is not modelled, because the source fails there with an `AttributeError`.
- Capacity.EnforceCapacityLimit: when several yards share the largest load, it picks any of them, where the source's `max()` takes the first in dictionary order.
- Capacity.EnforceCapacityLimit: the plan is a sequence aligned with the candidate jobs, not a dictionary keyed by job, so plan entries for jobs outside the candidates are not modelled.
- Planner.JobPlanner.FinishRound: the discharge-allocation counter (`_yard_di_allocation`), which the source increments after each job, is counted at the end of the round. The two agree because its only reader, `_optimize_yard_assignments`, runs before the loop.
- Planner.JobPlanner.PlanJob: a discharge job with no planned yard, no options and no `yard_name` gets `None` as its yard, and the source then fails with `AttributeError` on the missing sector's `in_coord`. Sector lookups in the model are total, so the model plans that job with a path to the coordinates of the yard named "".
- Text.IsSpace: only space, tab, newline, carriage return, vertical tab and form feed count as whitespace. Python's `strip()` and `int()` also treat `\x1c`-`\x1f` and Unicode spaces as whitespace; feature names and `CONTENT_LENGTH` with those characters are not modelled.
- YardOptions.PickFeasibleYard: it requires a non-empty option list. For an empty list the source raises `IndexError` on `options[0]`.
- Planner.BestYard: it requires a non-empty option list, which is the only way it is called.
- Planner.JobPlanner.SelectBestYard: it requires a non-empty option list, which is the only way it is called.
- Stats.FormatTime: it covers natural numbers of seconds only. Negative and fractional inputs are not modelled.
