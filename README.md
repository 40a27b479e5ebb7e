# TwitchRecorder recording supervisor, in Dafny

TwitchRecorder polls a list of Twitch channels. When a channel goes live it starts two things:
a capture of the stream into `temp/<name>.ts` and a chat subscription that appends one JSON line
per message to `temp/<name>.txt`. When the channel goes offline, or is deleted through the web
page, the recorder finalizes the session. It converts the capture to
`channels/<name>/streams/<ts>.mp4`, moves the chat log to `channels/<name>/streams/<ts>.txt`
and disposes the subscription. Two pieces of module state track this: the list `live` of
channels being recorded, and the map `recording` from channel to subscription.

This project models that supervisor and proves what it guarantees.

- `Paths.dfy` holds the file locations the recorder builds. It proves that they do not collide
  and that a session's two archives share one stem.
- `Storage.dfy` models the file system as a value: the directories that exist, and each file's
  contents as chunks (a chat-record line, or media data).
- `Chat.dfy` models `write_message_to_file`: each message appends exactly one record line.
- `Archive.dfy` models `convert_to_mp4` twice. `FinalizeAsWritten` follows the code, including
  two faults (see Findings). `Finalize` is the corrected version, and the supervisor uses it.
- `Supervisor.dfy` holds the supervisor state (`live`, `recording`, a handle counter, the disk,
  and a trace of calls into outside programs). It defines spec functions for one observation
  (`Step`), one poll iteration (`Sweep`), channel deletion (`Delete`) and the chat callback
  (`Deliver`), and proves lemmas about them. The class `Recorder` holds the same state in
  fields. Its methods `Observe`, `Tick` (a loop over the channel list), `DeleteChannel` and
  `OnMessage` are proved to compute exactly those functions, and they keep the invariant
  `Valid()`.

Calls into outside programs and services appear as `Effect`s in a ghost trace, in call order:
`StartCapture` (streamlink), `StartChat` and `Dispose` (the chat subscription), `Archived`
(conversion and archiving) and `Unregister` (deleting the registry row). Inputs replace
everything the code gets from the network, the database or the clock. An `Observation` carries
the channel name, whether it is live and the current time. `DeleteChannel` receives the request's
channel name and whether the registry lookup found it.

The invariant has two parts:

- `Tracked`: a channel is in `live` exactly when it is a key of `recording`, and `live` has no
  duplicates.
- `Accounted`: the trace has no orphaned subscription. Every opened handle is still active or has
  been disposed. No active handle has been disposed. Every disposal comes right after the
  finalize of its channel. No handle is disposed twice.

## Model

| member | source | states |
|---|---|---|
| Paths.TempPathsInjective | main.py:178-180 | Two different channels never share a raw capture path or a chat log path under `temp/`. |
| Paths.ArchivePathsInjective | main.py:54-56 | Two sessions of one channel finalized at different timestamps get different archive paths. |
| Paths.ArchivePathsShareStem | main.py:54-64 | The video and the chat archive both lie in `channels/<name>/streams/`. They share the stem `<ts>` and differ only in their extension. |
| Paths.SessionFilesDistinct | main.py:55-64 | Raw capture, chat log, archived video and archived chat log are four different files, whatever the names and timestamps. |
| Chat.WriteMessage | main.py:74-83 | Writing a message appends exactly one line, the record `{channel, sender, text, timestamp}`, after the unchanged earlier lines. The file is created if missing, and no other file changes. |
| Chat.WriteAllAppendsInOrder | main.py:67-83 | After messages are delivered one by one, the log holds its old contents, then one record per message in arrival order. No other file changes. |
| Chat.WriteAllRecords | main.py:74-83 | The line at position (old length + i) of the log is the record `{channel, sender, text, timestamp}` of the i-th message, stamped with its arrival time. |
| Archive.FinalizeArchives | main.py:53-64 | Corrected finalize: exactly the channel's folders, ending in the streams folder, are added. A raw capture stays in place and is copied stream for stream to `<ts>.mp4`, unless that file already exists. A chat log moves to `<ts>.txt`, and no chat log is left under `temp/`. An archive whose temporary file is missing, or a video archive already present, is left as it was. No other file changes. |
| Archive.FinalizeArtifacts | main.py:53-64 | The archived video exists exactly when a raw capture existed, and the archived chat log exactly when a chat log existed (or the archive was already there). |
| Archive.AsWrittenAgreesWhenPrepared | main.py:53-64 | When the folders exist and a chat log exists, the code's finalize and the corrected one give the same file system. |
| Archive.FirstSessionLosesVideo | main.py:56-62 | As written, when the streams folder is missing, no video is archived although a raw capture exists. The corrected finalize archives it. |
| Archive.SilentSessionRaises | main.py:56-64 | As written, finalizing a session with no chat log raises at the move. The conversion and the folder creation before it have already taken effect: when the streams folder existed and no `<ts>.mp4` was there, the video is on disk at the raise. The corrected finalize still archives the video. |
| Supervisor.TeardownAsWrittenAgrees | main.py:182-187 | When the channel's folders and its chat log exist, the teardown in the source's order carries on exactly as the corrected teardown. |
| Supervisor.SilentDeleteStrands | main.py:125-136 | As written, deleting a recorded channel that got no chat message fails after its registry row is deleted. The channel has left `live` but is still in `recording`, and its subscription is never disposed. The poll loop, in another thread, carries on with the two out of step. The corrected `Delete` redirects. |
| Supervisor.SilentTeardownStrands | main.py:182-187 | As written, the teardown of a session with no chat log ends the poll loop. The channel has left `live` but is still in `recording`, so the two no longer agree, and its subscription is never disposed. |
| Archive.FirstSessionExample | main.py:56-62 | A concrete first session of `alice`: the code archives her chat log but no video, and the corrected version archives the video. |
| Supervisor.RemoveFirstFacts | main.py:184 | `list.remove` keeps every other element and their order, and removes one element when the name is present. On a list without duplicates it leaves no copy of the name and creates no duplicate. |
| Supervisor.AppendKeepsOthers | main.py:176 | `live.append` keeps the other channels in their order and creates no duplicate for an absent name. |
| Supervisor.Initial | main.py:227-228 | The start-up state (`live = []`, `recording = {}`) satisfies the invariant. |
| Supervisor.StepGoesLive | main.py:174-181 | A live observation of an untracked channel appends it to `live`. It starts exactly one capture to `temp/<name>.ts` and then one subscription to `temp/<name>.txt` with a fresh handle, and stores that handle as `recording[name]`. The disk is unchanged. |
| Supervisor.StepGoesOffline | main.py:182-187 | An offline observation of a tracked channel removes it from `live` and `recording`. The trace gains exactly the finalize of that channel, then the disposal of the very handle stored for it, and the disk is the finalized one. |
| Supervisor.StepNoOp | main.py:174-187 | An observation changes nothing exactly when it is settled: live and already tracked, or offline and not recorded. Any other observation makes exactly two calls outside. |
| Supervisor.StepSettles | main.py:174-187 | After an observation, its channel is settled for it. |
| Supervisor.StepFrame | main.py:172-187 | An observation of one channel leaves every other channel's membership in `live`, its `recording` entry, and the order of the other channels in `live` unchanged. |
| Supervisor.StepPreservesInvariant | main.py:174-187 | Every observation preserves `Tracked` and `Accounted`. |
| Supervisor.GoLivePreserves | main.py:174-181 | Going live preserves the invariant. |
| Supervisor.TeardownPreserves | main.py:182-187 | Teardown (remove, finalize, pop and dispose) preserves the invariant. |
| Supervisor.SweepPreservesInvariant | main.py:171-187 | A whole poll iteration preserves the invariant. |
| Supervisor.SweepFrame | main.py:171-187 | A channel not in the iteration's list keeps its `live` membership and its `recording` entry. |
| Supervisor.SweepSettles | main.py:171-187 | After an iteration over consistent poll results, every live channel is tracked and every offline one is not recorded. |
| Supervisor.SweepOfSettled | main.py:171-187 | An iteration whose observations are all settled changes nothing. |
| Supervisor.SweepIdempotent | main.py:171-188 | Polling the same consistent results twice starts no second session and runs no second finalize. |
| Supervisor.DeleteOutcomes | main.py:125-136 | A missing or empty name gets the 400 reply and touches nothing. A failed registry lookup raises and touches nothing. A registered channel that is not in `live` has its registry row deleted and then fails at `live.remove`. A recorded channel has its row deleted, then is finalized, then its stored handle is disposed, and the request redirects. The channel is then in neither structure. Other channels keep their `recording` entries and their order in `live`, and `nextId` is unchanged. |
| Supervisor.DeletePreservesInvariant | main.py:125-136 | Every deletion request preserves the invariant. |
| Supervisor.DeliverAppends | main.py:67-83 | A message for a channel's active subscription appends exactly its record to that channel's chat log and changes nothing else: no folder, no other file, and no field of the supervisor. A message for any other handle changes nothing. |
| Supervisor.DisposedWritesNothing | main.py:186-187 | In any state that keeps the invariant, a message delivered to a subscription the trace has disposed changes nothing. |
| Supervisor.TraceGrows | main.py:125-187 | An observation, a chat delivery and a deletion request never undo a recorded call outside: the old trace is a prefix of the new one. |
| Supervisor.SweepExtendsTrace | main.py:171-187 | A whole poll iteration keeps the old trace as a prefix. |
| Supervisor.EndedSessionStaysSilent | main.py:171-187 | Once a session has ended, its old subscription writes nothing, in the state right after and after any later poll iterations. This holds even when the channel goes live again under a new subscription. |
| Supervisor.DeliverPreservesInvariant | main.py:67-83 | Chat delivery preserves the invariant. |
| Supervisor.DeliverAllWrites | main.py:67-83 | Messages delivered to an active subscription are written, in order, to its chat log. |
| Supervisor.SessionChatArchived | main.py:171-187 | Take a session that starts with no leftover chat log and ends at `t1`. When at least one message arrived, its archive `<t1>.txt` holds exactly one record per delivered message, in arrival order. In every case no chat log remains under `temp/`. |
| Supervisor.Recorder.constructor | main.py:227-228 | The recorder starts empty and valid. |
| Supervisor.Recorder.Observe | main.py:173-187 | The loop body for one channel performs `Step` on the fields and keeps `Valid()`. |
| Supervisor.Recorder.Tick | main.py:171-188 | One iteration of the poll loop performs `Sweep` over the channel list and keeps `Valid()`. |
| Supervisor.Recorder.DeleteChannel | main.py:125-136 | The deletion handler performs `Delete`, returns its reply and keeps `Valid()`. |
| Supervisor.Recorder.OnMessage | main.py:67-83 | The subscription callback performs `Deliver` and keeps `Valid()`. |

## Findings

| source | as written | input that shows it | evidently intended | confidence | as-written member | corrected member |
|---|---|---|---|---|---|---|
| main.py:56-62 | ffmpeg writes `channels/<name>/streams/<ts>.mp4` before `os.mkdir` creates that folder, so ffmpeg cannot open its output. | The first session of `alice`: `channels/alice` exists, `channels/alice/streams` does not, and `temp/alice.ts` exists. | Create the folder first, so that every session's video is archived. | not executed; high | Archive.FirstSessionLosesVideo | Archive.FinalizeArchives |
| main.py:64 | `shutil.move` of `temp/<name>.txt` raises FileNotFoundError when no chat message arrived, because the log is only created by the first write (main.py:82). The exception comes after `live.remove`, so the channel stays in `recording` but leaves `live`. In the poll loop it ends `main()`. In the deletion handler (main.py:130-132) the request fails after the registry row is deleted, and the poll loop carries on with the two out of step (`Supervisor.SilentDeleteStrands`). `Archive.SilentSessionRaises` shows the raise on the file system. | A session of `alice` with no chat message: `temp/alice.txt` does not exist. | Archive the video, and move the chat log only when there is one. | not executed; high | Supervisor.SilentTeardownStrands | Archive.FinalizeArchives |

## Left out

- The live-status query (`is_channel_live`) and token acquisition (`get_app_access_token`) are
  network calls. Their result is the `isLive` field of an `Observation`. The code has no retry
  or transient-error handling, so the model has none.
- The channel registry (MongoDB) is an outside service. The channel list is the input to `Tick`.
  The deletion handler's lookup result is the `registered` input. `delete_one` is the
  `Unregister` effect. The `in` test on the looked-up name is a substring test of the name
  against itself, so it always holds once the row is found. The model folds it into
  `registered`.
- The streamlink and ffmpeg processes and the `twitch.Chat` subscription are foreign calls. The
  model records them only as effects. The capture tool writes the raw file's contents outside
  the model. The conversion is a stream copy that writes nothing when its input or its output
  folder is missing. Process exit status, crashes and spawn failures are not modelled, because
  the code never observes them.
- The chat room name `#<name>`, the nickname and the OAuth token passed to the subscription are
  not modelled. A disposed subscription is assumed to deliver no further messages.
- `json.dumps`: a chat line is represented by its record value. JSON escaping and the `print`
  at main.py:75 are not modelled. Appending to a chat log assumes the `temp` folder exists.
- The clock (`datetime.now()`) and `time.sleep(60)` are replaced by timestamp parameters and by
  one `Tick` per iteration. The `@jit` decorators have no effect on behaviour.
- The Flask routes other than deletion (`add_channel`, `get_image`, `get_streams`, `home`) and
  `run_flask_app` are UI and I/O. The config loading in `start()` is left out too, including its
  call to `main` without the `nickname` argument.
- Concurrency: the Flask thread and the poll loop take no lock. The model runs `Observe`,
  `DeleteChannel` and `OnMessage` as sequential calls.
- Supervisor.Recorder.Observe: the supervisor finalizes with the corrected `Archive.Finalize`,
  so it does not model a poll loop that the exceptions of Findings end. `Archive.FinalizeAsWritten`
  models those exceptions on the file system, and `Supervisor.TeardownAsWritten` models the
  teardown they end. Neither is wired into `Step` or `Tick`.
- Supervisor.Step: `live.remove` raises ValueError when the name is missing, and the teardown
  branch is taken on `recording`. The invariant rules out the case where `live` and `recording`
  disagree, so `Step` does not model that exception. Under the source's finalize, that
  disagreement does arise. `Supervisor.SilentTeardownStrands` shows it in the poll loop, where
  the raise ends the loop. `Supervisor.SilentDeleteStrands` shows it in the deletion handler,
  after which the loop keeps running. The model does not follow the loop past that state.
- Supervisor.Delete: requires `Tracked`. The code's `recording.pop` would raise KeyError for a
  name in `live` but not in `recording`, and the invariant rules that out. `Delete` finalizes with
  the corrected `Archive.Finalize`, so it redirects where the source's deletion of a session
  without chat fails (see `Supervisor.SilentDeleteStrands`).
- Archive.Convert: when `<ts>.mp4` already exists, ffmpeg without `-y` asks on standard input
  whether to overwrite. The model takes that as writing nothing.
- Supervisor.SessionChatArchived: covers one session whose deliveries are not interleaved with
  other channels' observations. Other channels are covered separately by `StepFrame` and
  `DeliverAppends`.
- Capabilities the code does not have are not modelled: stopping the capture process (the code
  only disposes the chat subscription), retrying failed polls, detecting crashed captures, and a
  side-effect-free rejection when deleting an unrecorded channel (the code deletes the registry
  row before it fails).
