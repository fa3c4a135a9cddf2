# Audio logistics pipeline and build index, modelled in Dafny

This project models the core of a service that pulls the best audio track of
a video with an extractor process (`yt_dlp`), cuts the stream into
time-bounded "boxes" without re-encoding, and uploads each box to a
transcription provider (AssemblyAI or Deepgram) while the download is still
running. It also models the two system-report helpers that ship with that
service: the parser of the build-time directory index and the tool
comparison.

The pipeline is a factory.

- **Packager.** `run_packager` demuxes the extractor's output. It buffers
  packets until the buffer spans a trigger length, seals the longest prefix
  that stays under a target length into a box, and puts each box on an
  asynchronous conveyor. The last thing it puts there is one `None`.
- **Shipper.** `run_shipper` drains the conveyor until that `None` and
  starts one upload task per box.
- **Monitor.** `miner_log_monitor` turns the extractor's diagnostic lines
  into throttled status events.
- **Dispatcher.** `log_dispatch` writes every event to the client's log
  queue, as plain text and/or a JSON record depending on the mode.
- **Orchestrator.** `run_fly_process` wires these together. It also writes
  the cookie file, runs the heartbeat, and cleans up at the end.

There are three versions of the pipeline:

- `api/engine.py` is the production engine, with a balanced split policy
  (described below).
- `api/fly_engine.py` is an earlier engine with a fixed policy.
- `api/testfly.py` is a prototype. It logs plain lines and uses fixed
  configuration.

The balanced split policy works like this. With a known total duration, the
number of parts is the ceiling of the total over the requested split length.
Each part's target is the total divided by that number, and the trigger is
30 seconds more. Without a known total, the target is the split length and
the trigger adds a 10-minute tail.

Modules, one per part of the system:

- `Segmenter` (`segmenter.dfy`) covers `create_package`, the split policy
  and the demux/seal loop. It works on packets that carry a decode and
  presentation timestamp.
- `Packager` (`packager.dfy`) covers `run_packager` in its three versions:
  the `try`/`except`/`finally` structure, the conveyor and the teardown.
- `Dispatch` (`dispatch.dfy`) covers `log_dispatch`. The log queue and the
  caller's payload dictionary are classes, because the function mutates
  both.
- `Commands` (`commands.dfy`) covers the client list, the extractor-argument
  string, every argument vector, `printable_cmd`, `run_format_listing` and
  the cookie unescaping.
- `MinerLog` (`miner_log.dfy`) covers both `miner_log_monitor` loops.
- `Shipper` (`shipper.dfy`) covers `ship_cargo` and `run_shipper`.
- `Orchestrator` (`orchestrator.dfy`) covers `run_fly_process`. The host
  holds the files, the log queue and the heartbeat, which the job updates
  in place.
- `BuildIndex` (`build_index.dfy`) covers `load_build_fs_cache`, a class
  whose cache the loader fills line by line.
- `SysReport` (`sys_report.dfy`) covers `get_human_size` and
  `compare_tools`.
- `Text` (`text.dfy`) and `Wrappers` (`wrappers.dfy`) hold the string
  library the others share: `str.replace`, `strip`, `split` and `join`.

Inputs from the outside world are given as parameters. These include:

- what the extractor process and the container library do (a `Source`);
- the HTTP replies;
- which upload tasks have finished at each pick-up;
- the clock readings of the monitor;
- the lines of the index file.

The source's own structure shows that every failure is meant to reach the
clean-up. The `finally` at `api/engine.py:144-155` puts `None` on the
conveyor on every path through the packager's `try`, and
`api/engine.py:252-254` clean up after both branches of the job. A zero
split length with a known total, however, raises at `api/engine.py:97`,
before that `try`, so nothing is drained or torn down. The model follows
the code as written and records the consequence under "Findings".

## Model

| member | source | states |
|---|---|---|
| Segmenter.CreatePackage | api/engine.py:41-62 | the loop writes exactly the packets `Seal` specifies (the longest prefix whose time from the first packet is under the cap, rebased on the first packet) and reports the index of the last one written |
| Segmenter.Seal | api/engine.py:48-59 | the written packets are a prefix of the buffer; each lies under the cap from the first, the next one does not, and the cut-off is the last written index (0 when none is written) |
| Segmenter.SealStartsAtZero | api/engine.py:48-58 | a positive or infinite cap writes at least one packet, and the first packet written has decode and presentation time 0 |
| Segmenter.SealUnbounded | api/engine.py:137-141 | the final box, sealed with an infinite cap, holds the whole buffer rebased, and its cut-off is the last index |
| Segmenter.FitCount | api/engine.py:51-59 | the number of leading packets under the cap: all before it fit, the one at it does not |
| Segmenter.RebaseAll | api/engine.py:54-55 | rebasing keeps the number of packets |
| Segmenter.Ceil | api/engine.py:97 | `math.ceil`: the least integer not below the argument |
| Segmenter.SplitPlan | api/engine.py:91-102 | the policy has no plan (the division by zero) exactly when the total is known and the split length is 0; otherwise the trigger is past the target |
| Segmenter.FixedPlan | api/engine.py:91-93 | without a known total the target is the split length in seconds and the trigger 600 s more (2400 s for the default 30 minutes) |
| Segmenter.BalancedPlan | api/engine.py:96-101 | with a known total and a positive split, the part count is the fewest parts of the base length covering the total; the parts split the total exactly, none exceeds the base length, and the trigger is the target plus 30 s |
| Segmenter.CeilBounds | api/engine.py:97-99 | `math.ceil(total / base)` for positive values is at least 1, the fewest parts of length `base` covering the total, and `total / parts` multiplies back to the total without exceeding `base` |
| Segmenter.BalancedExample | api/engine.py:96-101 | 90 minutes at a 30-minute split gives 3 balanced parts of 1800 s and a 1830 s trigger |
| Segmenter.NegativeSplitStaysFixed | api/engine.py:96-98 | a negative split length gives no positive part count, so the fixed plan is kept |
| Segmenter.SealWithinTarget | api/engine.py:131 | a box sealed at the target starts at time 0, every packet lies under the target, and with a positive target the box holds its removed slice in full |
| Segmenter.StepInv | api/engine.py:123-135 | one iteration keeps the loop invariant: box ids 0, 1, 2, … equal `box_id`, each box starts at 0, lies under the target and holds a non-empty removed slice |
| Segmenter.RunInv | api/engine.py:121-135 | the invariant holds after any prefix of the demuxed packets |
| Segmenter.StepConserves | api/engine.py:124-134 | one iteration adds its packet, if it has a decode time, to the end of what the seals removed followed by the buffer |
| Segmenter.RunConserves | api/engine.py:121-135 | no packet is lost or duplicated: the removed slices followed by the buffer are exactly the packets with a decode time, in order |
| Segmenter.FaultAbsorbs | api/engine.py:142-143 | once an exception ends the `try`, later packets change nothing |
| Segmenter.StepSeals | api/engine.py:124-131 | an iteration seals a box exactly when it admits a packet whose time from the buffer head reaches the trigger and the box muxes; at most one box per packet |
| Segmenter.SealCarriesTrigger | api/engine.py:126-134 | when the trigger is past a target, the packet that triggers a seal is not written into that box and stays last in the buffer |
| Segmenter.SegmentSound | api/engine.py:121-141 | the whole loop plus the final box: contiguous ids from 0, boxes start at 0, all but the final box lie under the target, and without a fault the removed slices concatenate to exactly the timestamped packets |
| Segmenter.PackStream | api/engine.py:121-141 | the imperative loop, reassigning `buffer` and `box_id`, ends in the state `Segment` specifies |
| Segmenter.PackPacket | api/engine.py:123-135 | one pass of the demux loop: a packet without a decode time is skipped, otherwise buffered, and a box sealed at the trigger, giving the state `Step` specifies |
| Segmenter.FinalBox | api/engine.py:137-141 | after the loop: the boxes, log lines and fault `Finish` specifies, the final box sealed with no cap when anything is buffered |
| Segmenter.FinishSound | api/engine.py:137-141 | the final box keeps the invariant of the earlier boxes, takes the next id, starts at 0, holds the whole buffer rebased, and its slice is the buffer |
| Packager.CodecFormats | api/core.py:142 | opus→webm, aac→mp4, mp3→mp3, vorbis→ogg; any other codec is muxed as `audio/matroska` |
| Packager.Belt | api/engine.py:133-155 | the conveyor holds one entry per box plus the sentinel |
| Packager.BeltDelivered | api/engine.py:155 | boxes numbered 0, 1, 2, … followed by `None` form a delivered conveyor: numbered cargo then exactly one `None`, last |
| Packager.TryBoxesDelivered | api/engine.py:112-155 | whatever the `try` block puts on the conveyor, the `finally` block leaves it delivered |
| Packager.TryBlock | api/engine.py:112-141 | the boxes and the fault are those the specification functions give; no fault means the exit check, the open and the audio track all passed; the block logs no error |
| Packager.Settle | api/engine.py:142-155 | the conveyor is the boxes then `None`; one error line iff the `try` failed; the releases are those of `Releases`, in its order: the container iff it was opened, stdout, stderr, then terminate iff still running and kill only when terminate did not stop it |
| Packager.TearDown | api/engine.py:144-154 | the releases in the `finally` block's order: the container first iff it was opened, then stdout, then stderr, then terminate iff the process still runs, and kill last iff the wait after terminate failed |
| Packager.RunPackager | api/engine.py:64-155 | as written: no outcome exactly for a known total with split 0 or a process that cannot be started (both raise before the `try`); the lines logged before the spawn are returned on both paths: none for a zero split, else the balanced-split line iff the plan is balanced, then the factory start line; otherwise the log begins with those lines, the conveyor carries the segmenter's boxes then one `None`, and one error is logged iff the `try` failed |
| Packager.Announce | api/engine.py:96-104 | the lines `Announced` lists: the balanced-split line iff the plan is balanced, with its part count, then the factory start line for the URL; no error line |
| Packager.RunPackagerGuarded | api/engine.py:91-155 | corrected: the conveyor is always delivered; a zero split with a known total yields just `None`, that one error line and nothing to release; a process that cannot be started yields just `None`, nothing to release, and a log of exactly the announced lines then the spawn failure; otherwise the log begins with the announced lines |
| Packager.ZeroSplitLosesSentinel | api/engine.py:96-102 | any known total with split length 0 leaves the split policy without a plan |
| Packager.RunPackagerFly | api/fly_engine.py:68-159 | the fixed trigger of 2400 s and cap of 1800 s; no outcome exactly when the process cannot be started; on both paths the lines logged before the spawn are returned: the start line, then `[COMMAND]` with the printable form of the argument vector built from the request; otherwise the log begins with them, the conveyor is delivered, and one error is logged iff the `try` failed |
| Packager.FlyAnnounce | api/fly_engine.py:97-99 | the lines `FlyAnnounced` lists: the start line, then `[COMMAND]` with the printable form of the argument vector built from the request; no error line |
| Packager.RunPackagerPrototype | api/testfly.py:90-170 | no outcome exactly when the process cannot be started; on both paths the lines logged before the spawn are returned: the cookie line (written or failed) iff cookies were sent, then the start line; otherwise the log begins with them, there is no exit check, the teardown only kills, the conveyor is delivered, and one error is logged iff the `try` failed |
| Packager.PrototypeLog | api/testfly.py:94-167 | the log begins with the lines `PrototypeAnnounced` lists: the cookie line (written or failed) iff cookies were given, then the start line; exactly one error line iff the `try` failed |
| Dispatch.RecordPayload | api/core.py:160-161 | the record keeps every caller entry; a `message` is added from the text only when the text is non-empty and the caller set none; nothing else is added |
| Dispatch.Emitted | api/core.py:158-170 | no queue, no output; data mode emits one record for asset/error/keepalive only; debug mode emits the `[KIND] text` line iff there is text, then the record iff it is a record kind or has a non-empty payload |
| Dispatch.KeepaliveAndStatus | api/engine.py:221-224 | a heartbeat is exactly one keepalive record in either mode; a status line is nothing in data mode and one `[STATUS]` line in debug mode |
| Dispatch.EmittedAll | api/core.py:158-170 | the lines of a sequence of calls are those `Emitted` gives for each call, in call order: at most two per call, and nothing without a queue |
| Dispatch.DataModeFramed | api/core.py:158-166 | in data mode, calls of non-record kinds around a run of record-kind calls emit exactly one line per record-kind call |
| Dispatch.DataModeFramedAt | api/core.py:158-166 | in that framing, the k-th emitted line is the one `Emitted` gives for the k-th record-kind call, with its own clock reading |
| Dispatch.LogQueue.Put | api/core.py:165 | `put_nowait` appends one item |
| Dispatch.LogDispatch | api/fly_structs.py:34-60 | the queue grows by exactly the lines `Emitted` specifies; the caller's non-empty dictionary gains the message (the aliasing of `payload or {}`), while an empty or missing one is untouched |
| Commands.Clients | api/engine.py:69-70 | `web` is always present; the stripped pieces come first in order, and `web` is appended iff it is absent |
| Commands.ClientsOfList | api/engine.py:69-70 | a comma-joined list of clean names gives those names back, plus `web` at the end iff missing |
| Commands.PiecesOfList | api/engine.py:69 | splitting a comma-joined list of clean names at `,` and stripping each piece gives the names back |
| Commands.ExtractorString | api/engine.py:72-76 | empty iff there are no clients, no wait time and no token; with clients it starts `youtube:player_client=` |
| Commands.ExtractorRoundTrip | api/engine.py:72-76 | after `youtube:` the `;` pieces are exactly the parameters; the first splits on `,` back into the clients; `playback_wait` and `po_token` appear iff given, in that order |
| Commands.Extractor | api/engine.py:69-76 | since `web` is always among the clients, the extractor string is never empty and always starts with `youtube:player_client=` |
| Commands.FetchArgv | api/engine.py:78-86 | the fixed head, then `--no-playlist`, `--cookies`, `--extractor-args` and `--impersonate`, each exactly when it applies, at the offsets that follow, and the URL last |
| Commands.FlyFetchArgv | api/fly_engine.py:85-95 | the fixed head, `--cookies` iff the cookie file exists, the extractor arguments, the URL last |
| Commands.PrototypeArgv | api/testfly.py:104-123 | the fixed `yt-dlp` head with 8M chunks at 4M/s, the shared `/tmp/cookies.txt` iff cookie text was sent, the caller's extractor arguments or the `tv` default, and the URL last |
| Commands.ListingArgv | api/engine.py:159-172 | the listing head, `--no-playlist`, `--cookies`, the extractor arguments without `playback_wait`, and `--impersonate` exactly when they apply (the first and last only in api/engine.py), and the URL last |
| Commands.UnquotePrintable | api/fly_engine.py:97 | quoting one argument is undone by reading it back |
| Commands.PrintedArgs | api/fly_engine.py:97 | one printed form per argument, in order, each reading back to its argument |
| Commands.PrintableCmdRoundTrip | api/fly_engine.py:97 | when no argument holds a space, the printed command splits into one piece per argument, each reading back to it |
| Commands.Forwarded | api/engine.py:177-179 | at most one status event per output line, each non-empty and already stripped |
| Commands.ForwardedLine | api/engine.py:178-179 | a blank line forwards nothing; any other line forwards exactly its stripped text |
| Commands.ForwardOutput | api/engine.py:177-179 | the read loop emits exactly `Forwarded` of the lines read |
| Commands.RunFormatListing | api/engine.py:157-181 | the banner, then the space-joined command, then either one `[LIST ERROR]` event when the process cannot start, or the forwarded output |
| Commands.UnescapeCookiesSound | api/engine.py:233-235 | after unescaping, no backslash is followed by `n` or `t`; text without a backslash is written unchanged |
| MinerLog.ObserveKeeps | api/engine.py:26-38 | one line keeps the monitor's invariant (progress times more than 1 s apart, `last_progress_time` is the last one, every call a status or an error that is not a progress line) and adds at most one call |
| MinerLog.ObservedThrottled | api/engine.py:24-39 | over any stream the invariant holds and there are at most as many calls as lines |
| MinerLog.ProgressGate | api/engine.py:29-34 | a progress line goes out, with the pick in place of the tag, iff more than a second has passed, and only then does the clock move |
| MinerLog.MinerLogMonitor | api/engine.py:20-39 | the loop makes exactly the monitor's calls (none in data mode), at most one per line |
| MinerLog.RetagMarks | api/testfly.py:54-59 | only the first tag present among `[download]`, `[youtube]`, `[info]` is rewritten: none of it is left and its mark appears, while a later tag in that list is kept; an untagged line is unchanged |
| MinerLog.PrototypeMonitor | api/testfly.py:50-60 | one logged line per line read, in order, each the stripped retagged line |
| Shipper.UploadTarget | api/engine.py:185-191 | AssemblyAI gets its URL, the raw key and an octet stream; Deepgram gets its URL, a `Token` key and the box's MIME type; any other provider gets no URL and no headers |
| Shipper.DeepgramAssetId | api/engine.py:200 | the first truthy of `asset_id`, `asset` and `id`, else `unknown`; never empty |
| Shipper.AssetUrl | api/engine.py:200 | AssemblyAI's `upload_url` (empty when missing), or the Deepgram asset URL built from the asset id |
| Shipper.ShipCargo | api/engine.py:183-204 | exactly one event and the buffer is closed; status ≥ 400 gives an error with code, details and box and the `Upload Failed Box #i: status text` line; an exception gives an error with details and the `[SHIPPER ERROR]` line; otherwise an asset event whose payload is exactly index, asset URL, provider and size in MB, with the `Delivered Box #i \| size MB` line; asset iff the reply succeeded; for a provider without an endpoint (posted to the empty URL, so only the exception path is reachable) the event is an error |
| Shipper.PrototypeRef | api/testfly.py:190 | `upload_url` for AssemblyAI, else `asset_id` when truthy, else `asset`; none when missing |
| Shipper.PrototypeShipCargo | api/testfly.py:173-195 | one plain line per box and the buffer closed on every path, given exactly: `Upload Failed Box #i: status text`, `Error Box #i: message`, or `Delivered Box #i \| size MB \| Ref: ` and the reference, `None` when there is none |
| Shipper.PrototypeTarget | api/testfly.py:175-180 | AssemblyAI's target for AssemblyAI, Deepgram's for any other provider |
| Shipper.FirstEnd | api/engine.py:210-212 | the shipper stops at the first `None`: everything before it is cargo |
| Shipper.Picked | api/engine.py:210-215 | one picked box per entry before the first `None` |
| Shipper.PickedBelt | api/engine.py:155 | on a delivered conveyor the shipper picks up exactly the packager's boxes |
| Shipper.Pending | api/engine.py:216 | the tasks kept are exactly the active ones not yet done, and an increasing list of task ids stays increasing |
| Shipper.RunShipper | api/engine.py:206-219 | exactly one task per box before the first `None`, in order; the tasks gathered are exactly those never found done since their pick-up, in order; the partner line, one pick-up line per box, then the wait line naming how many tasks are gathered, present iff a box was picked up |
| Shipper.TakeBoxes | api/engine.py:209-216 | the loop takes exactly the boxes before the first `None` with one pick-up line each, and leaves active exactly the tasks never found done, in order, non-empty iff a box was taken |
| Shipper.PickUpStep | api/engine.py:214-216 | after a pick-up and the `done()` filter, the active list is the started tasks never found done, in order, and holds the task just started |
| BuildIndex.Extension | api/core.py:71-73 | `os.path.splitext(name)[1]`: empty or a suffix of the name that starts with `.`, has no other `.` and no `/` |
| BuildIndex.ExtensionOfSuffix | api/core.py:73 | a name made of a stem that does not start with a dot and `.suffix` (no slash anywhere, no dot in the suffix) has extension `.suffix` |
| BuildIndex.ExtensionOfDotfile | api/core.py:73 | a name whose only dot is its first character, such as `.bashrc`, has no extension |
| BuildIndex.MakeEntry | api/core.py:67-73 | the child path under `/` or its parent, size `-`, and the lower-cased extension for files only |
| BuildIndex.StepGrows | api/core.py:59-77 | one line never removes a directory nor changes entries already listed: lists only grow at the end |
| BuildIndex.StepSound | api/core.py:59-77 | one line keeps the cache sound: the stack names listed directories, every entry has size `-`, the extension rule holds, and every directory entry has its own list |
| BuildIndex.ScannedGrowsSound | api/core.py:50-77 | over any file the cache only grows and stays sound |
| BuildIndex.StepRow | api/core.py:59-77 | a depth-0 line resets the stack to its root and lists it; a deeper line with an empty stack fails; otherwise the stack is popped to that depth, the entry is appended under the directory on top, and a directory is pushed and listed |
| BuildIndex.PoppedTop | api/core.py:65-66 | the directory an indented line lands in is the one at its depth, or the innermost when the stack is shallower |
| BuildIndex.Pop | api/core.py:65 | the pop loop leaves the stack `Popped` specifies: at most `depth` entries, all from the old stack |
| BuildIndex.ParseNewline | api/core.py:52-57 | a bare newline is not skipped: it is a depth-0 line naming the root `/` |
| BuildIndex.ParseSpaces | api/core.py:52-53 | a line of spaces only is skipped |
| BuildIndex.ScannedFailed | api/core.py:65-78 | once a line fails, the rest of the file changes nothing |
| BuildIndex.BuildFsCache.Load | api/core.py:46-78 | a missing index leaves the cache as it was; otherwise the cache becomes what scanning the lines gives, and the load fails iff scanning fails |
| BuildIndex.BuildFsCache.Ingest | api/core.py:51-77 | one line read by the loop changes the cache and stack as `Absorb` specifies |
| BuildIndex.BuildFsCache.Attach | api/core.py:65-77 | the pop loop and append for a nested line give the cache and stack `Step` specifies |
| BuildIndex.BuildFsCache.TouchKey | api/core.py:62 | a key missing from the cache gets an empty list; existing lists are untouched |
| BuildIndex.BuildFsCache.AppendEntry | api/core.py:69-73 | the entry is appended to its parent's list, created empty when missing; nothing else changes |
| SysReport.Rank | api/core.py:82-85 | the number of divisions: each earlier value was at least 1024, and the last is under 1024 or the units ran out |
| SysReport.RankUnique | api/core.py:82-85 | at most one number of divisions satisfies that |
| SysReport.HumanSize | api/core.py:80-85 | text passes through; bytes become the value over 1024^k with the k-th unit, under 1024 below TB, and at least 1 above B |
| SysReport.StatusDecides | api/core.py:117-121 | each of the five statuses holds iff its condition on the two paths; the api/core.py and api/sys_utils.py tables differ only for a tool missing at run time |
| SysReport.RowFor | api/core.py:114-122 | the row names the tool, shows `-` for a missing build path, and has the status of the two paths |
| SysReport.ToolList | api/core.py:112 | the recorded tools when the record is non-empty, else the default five |
| SysReport.CompareTools | api/core.py:106-123 | one row per listed tool, in order, each the row `RowFor` specifies; with a record, every row names a recorded tool |
| SysReport.Rows | api/core.py:114-122 | one row per tool, in order, each the row `RowFor` specifies |
| SysReport.RowOf | api/core.py:114-122 | one pass of the loop gives the row `RowFor` specifies |
| Orchestrator.Shipments | api/engine.py:193-203 | one event per upload task; asset iff the reply succeeded, error otherwise; only errors for a provider without an endpoint |
| Orchestrator.DataModeShipments | api/engine.py:238-250 | in data mode the packaging branch's calls (start line, the shipper's status lines, one upload event per task, the closing line) emit exactly one record per task, in task order, of that upload's kind: asset iff its reply succeeded |
| Orchestrator.Host.Open | api/engine.py:232-240 | the cookie file holds the unescaped text unless the write failed; the command sees the file iff it exists; the start line is queued and the heartbeat runs |
| Orchestrator.Host.Put | api/engine.py:239 | the events are queued in order; files and heartbeat untouched |
| Orchestrator.Host.Close | api/engine.py:250-254 | the closing line then `None` are queued, the heartbeat is cancelled, and the cookie file is removed |
| Orchestrator.ListFormats | api/engine.py:243-244 | the listing's events are queued; the command line is the second |
| Orchestrator.Deliver | api/engine.py:247-249 | the shipper starts exactly the packager's boxes, and its events and the upload events are queued |
| Orchestrator.ListAndClose | api/engine.py:243-254 | the listing branch: events, `DONE`, `None`; the stream from the start line has ended |
| Orchestrator.ShipAndClose | api/engine.py:246-254 | the packaging branch: the boxes shipped are the conveyor's, numbered from 0; then `ALL SHIPMENTS COMPLETE`, `None` |
| Orchestrator.BeltBoxes | api/engine.py:155 | a delivered conveyor is the belt of the boxes the shipper picks, numbered from 0 |
| Orchestrator.RunFlyProcess | api/engine.py:226-254 | as written: the job escapes exactly for a known total with split 0 or a process that cannot be started, leaving the heartbeat running, the cookie file present and no `None`; the packager's lines logged before its spawn are returned on every path and begin its log; otherwise the heartbeat is cancelled, the cookie file removed, the shipper ships exactly the packager's boxes, and the packaging branch's stream is the start line, the shipper's events, one upload event per box, `ALL SHIPMENTS COMPLETE` and `None` |
| Orchestrator.PackAndShip | api/engine.py:246-254 | the packaging branch: the packager's announced lines; when it escapes, only the shipper's partner line is queued and nothing else changes; otherwise the shipper ships exactly the packager's boxes, numbered from 0, then `ALL SHIPMENTS COMPLETE`, `None`, the heartbeat is cancelled and the cookie file removed |
| Orchestrator.RunFlyProcessGuarded | api/engine.py:226-254 | corrected: on every path the stream ends with one `None`, the heartbeat is cancelled and the cookie file removed; the packaging branch's stream is the start line, the shipper's events, one upload event per box, `ALL SHIPMENTS COMPLETE` and `None`; a zero split with a known total or a failed spawn ships nothing and reports one packager error |
| Orchestrator.PrototypeFlyProcess | api/testfly.py:215-229 | when the process cannot be started, the stream is the start line and the shipper's partner line only, with no end line and no `None`; the packager's cookie and start lines are returned on every path and begin its log; otherwise (`PrototypeShipped`) the start line, the shipper's lines, one `ship_cargo` line per task in task order, `ALL SHIPMENTS COMPLETE`, then `None` last, and the shipper ships exactly the packager's boxes, numbered from 0 |
| Orchestrator.PrototypeShipping | api/testfly.py:222-229 | over a delivered conveyor the prototype's stream satisfies `PrototypeShipped` |
| Orchestrator.PrototypeStream | api/testfly.py:220-229 | the start line, each shipper call's text, one `PrototypeShipCargo` line per task, `ALL SHIPMENTS COMPLETE`, then `None`; every line but the last is present |

## Left out

- Process spawning, pipes, PyAV decoding and muxing, and HTTP are inputs: a
  `Source` saying whether the process starts and what packets and faults
  follow, a reply or exception per upload, and the
  output lines of the listing process. Byte sizes, `round(..., 2)`, and the
  bytes of the muxed box are not modelled.
- Concurrency is not modelled. The packager thread, the monitor thread, the
  heartbeat task and the upload tasks all run in parallel in the source.
  Which tasks have finished at each pick-up is an input, and upload events
  are listed in task order, not completion order. In the source an upload
  event can reach the queue between two pick-up lines of the shipper; the
  model queues all the shipper's lines first, then the upload events.
- The log queue holds the calls of `log_dispatch` and the final `None`;
  `Dispatch.Emitted` gives their lines. The packager's and the monitor's
  lines are reported in their own results, not interleaved with the
  orchestrator's queue. Heartbeat keepalives (one every 5 s) are not put on
  the queue. `Dispatch.KeepaliveAndStatus` states what each one emits.
- Floats are exact reals. `float(...)` rounding, the `:.0f`, `:.1f` and
  `:.2f` formatting, and the `⚖️ Balanced Split` text are not modelled. The
  size label of a box is given as text.
- JSON encoding is not modelled. Records are kept as (kind, timestamp,
  payload), and `time.time()` is an input.
- Newline suffixes on queued lines (`+ "\n"`) are left out.
- UTF-8 decoding with `errors="ignore"` is left out: lines are given as
  already-decoded text.
- Text.Lower, Text.Upper: only ASCII letters are mapped; Python's
  `lower()` and `upper()` also map other Unicode letters (and can change
  the length of a string). Stripping uses Python's full whitespace class.
- The concurrency of the upload side is constrained, not modelled: no
  task is found done at its own pick-up (there is no `await` between
  `create_task` and the filter), and a provider other than AssemblyAI and
  Deepgram posts to the empty URL, which the HTTP client refuses, so its
  uploads only take the exception path.
- `get_size_str`, `get_runtime_env_info`, `get_python_inodes` and
  `setup_environment` of api/core.py and api/sys_utils.py are environment
  probes over the file system and subprocesses. They are not modelled.
- The per-job cookie file name (`uuid4`) is an input. The prototype's shared
  `/tmp/cookies.txt` appears only in its argument vector. Its write is
  modelled as the cookie log line, and it is never removed.
- SysReport.CompareTools: the order of the recorded tools (the key order of
  the JSON object) is an input. The requires says the order lists exactly
  the recorded tools, as `dict.keys()` does. A non-string path in the JSON
  is not modelled.
- SysReport.HumanSize: returns the value and the unit before `:.2f`
  formatting.
- BuildIndex.BuildFsCache.Load: the `print` of the exception message is
  left out. A failure is reported as a flag, and the entries added before it
  are kept, as in the source. The only failure modelled is the `IndexError`
  of an indented line with an empty stack; a read or strict UTF-8 decoding
  error part-way through the file (it is opened with `encoding='utf-8'`)
  also stops the parse and keeps the entries already added, and is not
  modelled.
- Orchestrator.RunFlyProcess, Orchestrator.PrototypeFlyProcess: when the
  job escapes, the shipper is modelled as having logged only its partner
  line before the exception reaches the `await`. Which exception escapes
  (the division by zero or the spawn's `OSError`) is not modelled.
- MinerLog.MinerLogMonitor: the `ValueError` of a closed pipe ends the loop
  like the end of the stream. The readings are the lines read before it.

## Findings

| source | as written | input that shows it | evidently intended | confidence | as-written member | corrected member |
|---|---|---|---|---|---|---|
| api/engine.py:96-102 | the balanced split divides the total by `split_duration * 60` before the `try` at line 112 | `total_duration > 0` with `split_duration = 0`: `ZeroDivisionError` escapes `run_packager`, so no `None` reaches the conveyor. It then escapes `run_fly_process` at line 248, so the heartbeat is never cancelled, the cookie file is not removed, and the log stream never gets its `None` | a zero split reports a packager error and the pipeline still closes: the conveyor gets its `None`, the heartbeat stops, the cookie file is removed, and the stream ends | not executed | Packager.RunPackager, Packager.ZeroSplitLosesSentinel, Orchestrator.RunFlyProcess | Packager.RunPackagerGuarded, Orchestrator.RunFlyProcessGuarded |
| api/engine.py:106 | `subprocess.Popen` runs before the `try` at line 112 (likewise api/fly_engine.py:101 before line 109 and api/testfly.py:128 before line 134; those two are modelled as written only, and the corrected members are for api/engine.py) | a process that cannot be started, for instance `yt-dlp` missing from `PATH` in api/testfly.py: the `OSError` escapes `run_packager` without reaching the `finally`, so no `None` reaches the conveyor and `run_fly_process` escapes at its `await` as in the row above | a failed start reports a packager error and the pipeline still closes | not executed | Packager.RunPackager, Orchestrator.RunFlyProcess, Orchestrator.PrototypeFlyProcess | Packager.RunPackagerGuarded, Orchestrator.RunFlyProcessGuarded |
