# yt-dlp control panel: broadcaster, job slot and argument builder

A verified Dafny model of the sequential core of a small Flask control panel.
The panel starts one `yt-dlp` download at a time, streams the process's output
lines to any number of browser clients, and keeps a bounded log history for
clients that join late. The model has three parts:

- **Line broadcaster** (`broadcasting.dfy`, module `Broadcasting`). It holds
  the log history (at most 2000 lines, oldest dropped first) and the
  subscriber queues (capacity 1000 each). `broadcast` strips trailing newlines
  from a line, appends it to the history and puts it on every subscriber queue.
  A queue that is full is dropped from the subscriber set. A new stream's queue
  starts with the last 500 history lines, then is registered. The pure value
  `Hub` is the specification. The class `Broadcaster` has the `history`,
  `subscribers` and `queues` fields, and its methods update them in place with
  the same loops as the source. A run of `Event`s (a broadcast, or a stream
  opening, closing or reading) describes what other clients do meanwhile.
- **Single-slot job supervisor** (`supervision.dfy`, module `Supervision`). The
  `current_proc` record is `JobSlot`. A start is refused while a process is in
  the slot. A successful start broadcasts `# Starting: …` and fills the slot.
  The reader forwards each output line, broadcasts
  `# Finished with exit code N` and empties the slot. Stop answers `idle` or
  `stopping` and leaves the slot alone. Status is a read-only snapshot. The pure
  value `Panel` is the specification. The class `Supervisor` holds the slot's
  fields and shares a `Broadcaster`.
- **Argument builder** (`arguments.dfy`, module `Arguments`).
  `build_args_from_form` is the pure function `BuildArgs` from a form to either
  the argv list or the `"Missing URL"` error. The method `AppendToggles` runs
  the source's toggle loop and is proved to append what that function appends.

`text.dfy` (module `Text`) gives the Python string operations the core uses:
`str.strip()`, `str.rstrip("\n")`, `str(int)` and POSIX `os.path.join`. It
also has `' '.join`. `results.dfy` has the `Option`/`Result` values that stand
in for `None` and for raised exceptions.

Things the model takes as parameters:

- The process handle is an abstract `ProcId`.
- The outcome of `subprocess.Popen` is a parameter `launched`. `None` means
  Popen raised.
- `time.time()` is a parameter `now`.
- The exit code from `p.wait()` is a parameter `rc`.
- `shlex.quote` is a function parameter `quote`.
- The output lines the process prints are a parameter `output`.

## Model

| member | source | states |
|---|---|---|
| `Text.TrimStartSpec` | app.py:61 | the leading part `strip` removes is all whitespace, and the rest starts with a non-space |
| `Text.TrimEndSpec` | app.py:61 | the trailing part `strip` removes is all whitespace, and the rest ends with a non-space |
| `Text.StripSpec` | app.py:61 | `strip` keeps a slice of the input with no whitespace at either end, and drops only whitespace |
| `Text.StripBlank` | app.py:61-63 | a field strips to the empty string exactly when it is all whitespace, so the "Missing URL" test is an all-blank test |
| `Text.StripIdempotent` | app.py:61 | stripping twice gives the same as stripping once |
| `Text.StripNewlines` | app.py:27 | `rstrip("\n")` returns a prefix of the line, removes only newlines, and leaves no newline at the end |
| `Text.StripNewlinesIdempotent` | app.py:145 | the reader's `rstrip` followed by `broadcast`'s own `rstrip` gives the same as one `rstrip` |
| `Text.NatToString` | app.py:148 | the decimal text of a number is non-empty, all digits, and has no leading zero |
| `Text.NatToStringRoundTrip` | app.py:148 | reading the decimal text back gives the number |
| `Text.IntToString` | app.py:148 | `str(rc)` starts with '-' exactly for negative codes, followed by the digits of the magnitude |
| `Text.IntToStringInjective` | app.py:148 | different exit codes print differently |
| `Text.PathJoin` | app.py:123 | `os.path.join(base, t)` is `t` when `t` is absolute; otherwise it is `base + t` when `base` is empty or ends with '/', and `base + "/" + t` when it does not |
| `Broadcasting.LastN` | app.py:31 | `s[-n:]` is the last min(len(s), n) items of `s` |
| `Broadcasting.LastNAppend` | app.py:29-31 | truncating and then appending keeps the same lines as appending and then truncating |
| `Broadcasting.StripAll` | app.py:145 | each output line is stripped of its trailing newlines, in order |
| `Broadcasting.FillWithRoom` | app.py:45-49 | `put_nowait` into a queue with room for every line puts all of them, in order |
| `Broadcasting.FillQueue` | app.py:44-49 | the replay loop fills the queue as the put-until-full specification says |
| `Broadcasting.BroadcastAll` | app.py:26-39 | a run of broadcasts keeps every subscriber backed by a queue and creates or removes no queue |
| `Broadcasting.BroadcastHistory` | app.py:27-31 | after `broadcast` the history has at most 2000 lines and ends with the stripped line, and the lines before it are the newest of the old history, in order |
| `Broadcasting.BroadcastValid` | app.py:26-39 | `broadcast` keeps the history bound and the queue capacity |
| `Broadcasting.FanOutDelivery` | app.py:32-39 | the fan-out half of `broadcast`: a subscriber with room gets the line and stays, a full one is dropped, other queues are untouched |
| `Broadcasting.BroadcastDelivery` | app.py:32-39 | a subscriber with room gets the line at its back and stays subscribed; a full one is dropped with its queue unchanged; other queues are untouched |
| `Broadcasting.HistoryKeepsNewest` | app.py:26-31 | after any run of broadcasts the history is exactly the newest 2000 stripped lines, in order |
| `Broadcasting.SubscriberReceivesBurst` | app.py:32-39 | a subscriber with room for a burst receives all of it in order and stays subscribed |
| `Broadcasting.SubscribersAgree` | app.py:32-39 | two subscribers with room receive the same sequence of lines |
| `Broadcasting.UnsubscribedQueueUntouched` | app.py:33-39 | a queue that is no longer subscribed receives nothing |
| `Broadcasting.SubscribeReplay` | app.py:42-50 | a new stream's queue is exactly the last min(len(history), 500) lines in order; it is registered; nothing else changes |
| `Broadcasting.ReplayFits` | app.py:42-49 | the 500-line replay never fills the 1000-line queue |
| `Broadcasting.SubscribeValid` | app.py:42-50 | opening a stream keeps the broadcaster's bounds |
| `Broadcasting.SubscribeThenBurst` | app.py:42-50 | a stream opened and then sent up to 500 lines holds its replay followed by exactly those lines |
| `Broadcasting.StepValid` | app.py:26-58 | every broadcast, stream opening, closing or read keeps the broadcaster's bounds |
| `Broadcasting.Run` | app.py:26-58 | any run of broadcasts and stream openings, closings and reads keeps the broadcaster's bounds |
| `Broadcasting.OtherClientStep` | app.py:32-58 | one step by anyone but the stream of `q`: a broadcast puts its line at the back of `q`, anything else leaves `q` as it was, and `q` stays subscribed |
| `Broadcasting.BurstAmidOtherClients` | app.py:32-58 | a subscriber with room receives every line broadcast during a run, in order, whatever other streams open, close or read meanwhile |
| `Broadcasting.SubscribeThenRun` | app.py:42-58 | a stream opened and then sent up to 500 lines while other streams come and go holds its replay followed by exactly those lines |
| `Broadcasting.DisconnectRemoves` | app.py:57-58 | closing a stream removes its queue from `subscribers` and leaves every other stream and the history as they were |
| `Broadcasting.DisconnectIdempotent` | app.py:58 | `discard` twice is `discard` once |
| `Broadcasting.TakeOldest` | app.py:53 | `q.get()` yields the oldest queued line; on an empty queue it yields nothing, where the source waits |
| `Broadcasting.LineLostBetweenReplayAndRegister` | app.py:44-50 | as written, a line broadcast between the replay and `subscribers.add(q)` is recorded in the history but the stream's queue holds only the earlier replay; on an empty history the queue stays empty |
| `Broadcasting.LineDuplicatedBetweenAppendAndFanOut` | app.py:28-39 | as written, a stream opened between the history append and the fan-out ends with the line twice: from its replay and from the fan-out |
| `Broadcasting.BroadcastAfterSubscribe` | app.py:28-50 | with atomic steps, a line broadcast after a stream opens ends its queue, and the queue is a tail of the history |
| `Broadcasting.SubscribeAfterBroadcast` | app.py:28-50 | with atomic steps, a stream opened after a broadcast gets the line once, at the end of its replay |
| `Broadcasting.Broadcaster.constructor` | app.py:20-21 | the broadcaster starts with an empty history and no subscribers |
| `Broadcasting.Broadcaster.Broadcast` | app.py:26-39 | the in-place update of `history` and `subscribers` gives the state the `Hub` specification gives, and keeps its bounds |
| `Broadcasting.Broadcaster.Deliver` | app.py:32-37 | the `put_nowait` loop gives every subscriber with room the line and returns exactly the full ones |
| `Broadcasting.Broadcaster.Discard` | app.py:38-39 | the discard loop removes exactly the dead queues from `subscribers` |
| `Broadcasting.Broadcaster.Subscribe` | app.py:41-50 | opening a stream allocates a fresh queue, replays into it and registers it, as the specification says |
| `Broadcasting.Broadcaster.Disconnect` | app.py:57-58 | closing a stream removes it as the specification says |
| `Broadcasting.Broadcaster.Take` | app.py:53 | the stream takes the oldest line of its queue |
| `Supervision.JobSlot.StopReply` | app.py:183-191 | stop answers `idle` exactly when no process is in the slot |
| `Supervision.JobSlot.Report` | app.py:195-199 | status reports running exactly when a process is in the slot, with the stored args and start time |
| `Supervision.StartingLine` | app.py:132 | the announcement starts with `# Starting: ` |
| `Supervision.FinishedLine` | app.py:148 | the final line starts with `# Finished with exit code ` |
| `Supervision.FinishedLineKept` | app.py:148 | the finished line has no trailing newline, so the history stores it unchanged |
| `Supervision.FinishedLineDetermines` | app.py:148 | the finished line determines the exit code |
| `Supervision.StartingIsNotFinished` | app.py:132-148 | a starting line is never a finished line |
| `Supervision.Panel.Spawn` | app.py:128-141 | refused with `AlreadyRunning` exactly when the slot is occupied, and then nothing changes; otherwise the starting line is broadcast; a process Popen gave fills the slot with its args, raw flag and start time; a Popen failure leaves the slot empty |
| `Supervision.SpawnValid` | app.py:128-141 | a start keeps the broadcaster's bounds and a well-formed slot |
| `Supervision.BroadcastAllValid` | app.py:144-145 | forwarding any amount of output keeps the broadcaster's bounds |
| `Supervision.ReaderValid` | app.py:142-150 | the reader keeps the broadcaster's bounds and a well-formed slot |
| `Supervision.ReaderHistory` | app.py:142-150 | after the reader the history is the newest 2000 of the old history, the stripped output and the finished line |
| `Supervision.ReaderFinishesLast` | app.py:142-150 | after the reader the slot is empty, status says not running, and the history ends with the output lines followed by exactly one finished line |
| `Supervision.SecondSpawnRejected` | app.py:129-131 | a second start while the first job runs is refused and changes nothing |
| `Supervision.SpawnAfterReader` | app.py:129-150 | once the reader has finished, a new start succeeds |
| `Supervision.StopUntilFinished` | app.py:183-191 | stop answers `stopping` while the job runs, however much it prints, and `idle` after the finish step |
| `Supervision.StreamSeesWholeJob` | app.py:132-148 | a stream attached before the start receives the starting line, every output line in order, and the finished line |
| `Supervision.ThreeLineJob` | app.py:128-150 | a job printing A, B, C and exiting 0 runs while it works, and afterwards the history ends with A, B, C and `# Finished with exit code 0` |
| `Supervision.Supervisor.constructor` | app.py:18-19 | the slot starts empty |
| `Supervision.Supervisor.Spawn` | app.py:128-141 | `spawn_process` updates the slot and the broadcaster as `Panel.Spawn` says |
| `Supervision.Supervisor.Finish` | app.py:147-150 | the finish step broadcasts the exit code and empties the slot |
| `Supervision.Supervisor.Reader` | app.py:142-150 | the reader loop forwards each line in order, then runs the finish step |
| `Supervision.Supervisor.Stop` | app.py:181-191 | `api_stop` answers `idle` exactly on an empty slot and changes nothing |
| `Supervision.Supervisor.Status` | app.py:193-199 | `api_status` reports running exactly when a process is held, with its args and start time, and changes nothing |
| `Arguments.OptionPair` | app.py:66-72 | a flag and its value are added exactly when the value is not blank |
| `Arguments.BuildArgs` | app.py:60-126 | fails with "Missing URL" exactly when the stripped URL is blank; otherwise starts with `yt-dlp --newline`, ends with the URL, and has the options in source order between them |
| `Arguments.ToggleFlagsMembers` | app.py:106-118 | a toggle is kept exactly when it is in the input and in the allowed set |
| `Arguments.ToggleFlagsOrder` | app.py:116-118 | toggle filtering distributes over concatenation, so kept toggles keep their input order |
| `Arguments.ToggleFlagsExtremes` | app.py:116-118 | allowed-only toggles pass unchanged; unknown-only toggles add nothing |
| `Arguments.FormatSelection` | app.py:74-94 | preset mode adds exactly one `-f` pair chosen by kind and height; custom mode adds one only for a non-blank custom format |
| `Arguments.PresetFormatAudio` | app.py:83-84 | audio asks for `bestaudio/best` whatever the maximum height |
| `Arguments.PresetFormatUnbounded` | app.py:83-94 | with a blank maximum height no kind asks for a height bound |
| `Arguments.PresetFormatBounded` | app.py:85-92 | with a maximum height H both video kinds start with `bestvideo*[height<=H]` |
| `Arguments.SingleOutputTemplate` | app.py:66-123 | at most one `-o` pair; the destination default is used exactly when there is a destination and no template; its path is the directory followed by `%(uploader)s/%(title)s.%(ext)s`, with a '/' between them unless the directory already ends with one |
| `Arguments.AppendToggles` | app.py:116-118 | the toggle loop appends exactly the allowed toggles, in input order |

## Left out

- HTTP: Flask routing, JSON request parsing and responses, the `data: …` framing of server-sent events, and static files.
- OS process facilities: `subprocess.Popen`, `os.setsid`, `os.killpg`/SIGINT and `p.wait`. Their outcome is a parameter: `launched` for Popen, `rc` for the exit code.
- Supervision.Supervisor.Stop: the interrupt signal sent to the process group is not modelled, and neither is the `ProcessLookupError` it swallows. Only the reply is modelled, and the fact that the slot is unchanged.
- Threads and the locks `proc_lock`/`history_lock`: each operation is one atomic step. The interleavings that matter are stated under Findings.
- Broadcasting.Broadcaster.Take: the blocking `q.get()` gives `None` where the source would wait.
- `shlex.quote` is a function parameter. `shlex.split` and `api_run_raw` are not modelled beyond the `raw` flag of a start.
- `time.time()` is a parameter.
- The disk and mount endpoints (`api_lsblk`, `api_df`, `api_list_destinations`, `api_mount`, `api_umount`) and the unused `percent_regex`.
- Arguments.BuildArgs: form fields are text only. The model does not cover JSON numbers, `null` or lists in text fields. In the source, `str(x or "")` turns a numeric `0` for `max_height` or the sleep intervals into a blank. A `null` or non-string `url` makes `.strip()` raise.
- A subscriber dropped by `broadcast` keeps its queue until its stream disconnects. This matches the source, where the stream's generator still holds the queue.
- When Popen fails the slot stays empty, but the code has already broadcast the starting line. The model follows the code.

## Findings

| source | as written | input that shows it | evidently intended | confidence | as-written member | corrected member |
|---|---|---|---|---|---|---|
| app.py:44-50 | `sse_stream` fills its queue from the history under `history_lock`, then calls `subscribers.add(q)` after releasing the lock | empty history; a stream replays nothing, `broadcast("A")` runs, then the stream registers: the history is `["A"]` and the queue is empty | replay and registration in one critical section, so no line is lost | not executed; medium (needs that thread interleaving) | `Broadcasting.LineLostBetweenReplayAndRegister` | `Broadcasting.BroadcastAfterSubscribe` |
| app.py:28-39 | `broadcast` appends to the history under `history_lock`, then snapshots `subscribers` after releasing the lock | any history; `broadcast("A")` appends, a stream opens (replays a window ending in `"A"` and registers), then the fan-out puts `"A"` again: the queue ends `["A", "A"]` | the history append and the subscriber snapshot in one critical section, so no line is duplicated | not executed; medium (needs that thread interleaving) | `Broadcasting.LineDuplicatedBetweenAppendAndFanOut` | `Broadcasting.SubscribeAfterBroadcast` |
