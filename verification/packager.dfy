/** `run_packager` as it stands in api/engine.py, api/fly_engine.py and
    api/testfly.py: the part before the `try` (split policy, start-up
    logging), the `try` block (exit check, opening the pipe, picking the
    audio track, the demux loop of `Segmenter`) and the `finally` block
    (closing and stopping the process, then the `None` sentinel).

    The extraction process and the container library are inputs: a
    `Source` says what they do in one run. */
module Packager {
  import opened Wrappers
  import opened Segmenter
  import Commands

  /** How the outside world behaves during one run. */
  datatype Source = Source(
    spawns: bool,            // `subprocess.Popen` starts the extractor (it raises otherwise)
    exitedEarly: bool,       // `process.poll()` is already not None when the try starts
    opens: bool,             // `av.open(process.stdout)` succeeds
    hasAudio: bool,          // the container has an audio track
    codec: string,           // its codec name
    timeBase: TimeBase,      // its time base
    packets: seq<Packet>,    // what `demux` yields
    demuxFault: bool,        // `demux` raises after yielding them
    muxFault: Option<nat>,   // `create_package` raises while sealing this box
    aliveAtTeardown: bool,   // the process is still running in `finally`
    stopsOnTerminate: bool)  // `wait(timeout=3)` returns after `terminate()`

  /** `CODEC_MAP` (api/core.py, api/fly_structs.py, api/testfly.py). */
  const CodecMap: map<string, string> := map["opus" := "webm", "aac" := "mp4", "mp3" := "mp3", "vorbis" := "ogg"]

  /** `CODEC_MAP.get(codec, "matroska")`. */
  function OutputFormat(codec: string): string {
    if codec in CodecMap then CodecMap[codec] else "matroska"
  }

  /** `f"audio/{out_fmt}"`. */
  function MimeType(codec: string): string {
    "audio/" + OutputFormat(codec)
  }

  lemma CodecFormats(codec: string)
    ensures OutputFormat("opus") == "webm" && OutputFormat("aac") == "mp4"
    ensures OutputFormat("mp3") == "mp3" && OutputFormat("vorbis") == "ogg"
    ensures codec !in {"opus", "aac", "mp3", "vorbis"} ==> MimeType(codec) == "audio/matroska"
  {
  }

  /** A status or error line of the packager. */
  datatype Log =
    | BalancedSplit(parts: nat)
    | FactoryStart(url: string)
    | Starting(url: string)
    | CommandLine(line: string)
    | CookiesWritten
    | CookieWriteFailed
    | Connected(codec: string, format: string)
    | Progress(note: Note)
    | PackagerError(fault: Fault)

  /** The steps of the `finally` block before the sentinel. */
  datatype Teardown = CloseContainer | CloseStdout | CloseStderr | Terminate | Kill

  /** One run as the rest of the system sees it: what went on the conveyor,
      what was logged, and how the process was stopped. */
  datatype Outcome = Outcome(belt: seq<Option<Cargo>>, log: seq<Log>, teardown: seq<Teardown>)

  /** The `try` block gets as far as the demux loop. */
  predicate Connects(src: Source, checkExit: bool) {
    !(checkExit && src.exitedEarly) && src.opens && src.hasAudio
  }

  function Packing(src: Source, threshold: real, target: real): Segmenter.Packing {
    Segmenter.Packing(src.timeBase, threshold, target, MimeType(src.codec), src.muxFault)
  }

  /** The exception, if any, that ends the `try` block. */
  function TryFault(src: Source, checkExit: bool, threshold: real, target: real): Option<Fault> {
    if checkExit && src.exitedEarly then Some(ExitedEarly)
    else if !src.opens then Some(OpenFailed)
    else if !src.hasAudio then Some(NoAudioTrack)
    else Segment(src.packets, src.demuxFault, Packing(src, threshold, target)).fault
  }

  /** The cargo the `try` block puts on the conveyor. */
  function TryBoxes(src: Source, checkExit: bool, threshold: real, target: real): seq<Cargo> {
    if Connects(src, checkExit) then Segment(src.packets, src.demuxFault, Packing(src, threshold, target)).boxes
    else []
  }

  /** The conveyor as the shipper sees it: each cargo, then `None`. */
  function Belt(boxes: seq<Cargo>): (belt: seq<Option<Cargo>>)
    ensures |belt| == |boxes| + 1
  {
    seq(|boxes|, k requires 0 <= k < |boxes| => Some(boxes[k])) + [None]
  }

  /** The conveyor invariant: cargo 0, 1, 2, ... then exactly one `None`,
      last. */
  predicate Delivered(belt: seq<Option<Cargo>>) {
    && |belt| >= 1
    && belt[|belt| - 1].None?
    && forall k :: 0 <= k < |belt| - 1 ==> belt[k].Some? && belt[k].value.index == k
  }

  function Errors(log: seq<Log>): nat {
    if log == [] then 0
    else Errors(log[..|log| - 1]) + (if log[|log| - 1].PackagerError? then 1 else 0)
  }

  lemma ErrorsAppend(a: seq<Log>, b: seq<Log>)
    ensures Errors(a + b) == Errors(a) + Errors(b)
    decreases |b|
  {
    if b == [] {
      assert a + b == a;
    } else {
      assert (a + b)[..|a + b| - 1] == a + b[..|b| - 1];
      ErrorsAppend(a, b[..|b| - 1]);
    }
  }

  lemma ErrorsNone(log: seq<Log>)
    requires forall i :: 0 <= i < |log| ==> !log[i].PackagerError?
    ensures Errors(log) == 0
  {
    if log != [] {
      ErrorsNone(log[..|log| - 1]);
    }
  }

  function Progresses(notes: seq<Note>): (log: seq<Log>)
    ensures Errors(log) == 0
  {
    if notes == [] then [] else
      var log := Progresses(notes[..|notes| - 1]) + [Progress(notes[|notes| - 1])];
      assert log[..|log| - 1] == Progresses(notes[..|notes| - 1]);
      log
  }

  /** The cargo that the segmenter puts on the conveyor makes it a
      delivered belt once the sentinel follows. */
  lemma BeltDelivered(boxes: seq<Cargo>)
    requires forall k :: 0 <= k < |boxes| ==> boxes[k].index == k
    ensures Delivered(Belt(boxes))
  {
  }

  lemma TryBoxesDelivered(src: Source, checkExit: bool, threshold: real, target: real)
    ensures Delivered(Belt(TryBoxes(src, checkExit, threshold, target)))
  {
    SegmentSound(src.packets, src.demuxFault, Packing(src, threshold, target));
    BeltDelivered(TryBoxes(src, checkExit, threshold, target));
  }

  /** The `try` block shared by the three versions, up to the `except`:
      the exit check (not in api/testfly.py), opening the pipe, the audio
      track, the demux loop and the final box. */
  method TryBlock(src: Source, checkExit: bool, threshold: real, target: real)
    returns (boxes: seq<Cargo>, log: seq<Log>, fault: Option<Fault>)
    ensures boxes == TryBoxes(src, checkExit, threshold, target)
    ensures fault == TryFault(src, checkExit, threshold, target)
    ensures fault.None? ==> Connects(src, checkExit)
    ensures Errors(log) == 0
  {
    boxes, log, fault := [], [], None;
    if checkExit && src.exitedEarly {
      fault := Some(ExitedEarly);
      return;
    }
    if !src.opens {
      fault := Some(OpenFailed);
      return;
    }
    if !src.hasAudio {
      fault := Some(NoAudioTrack);
      return;
    }
    var outFmt := OutputFormat(src.codec);
    log := [Connected(src.codec, outFmt)];
    var buffer, boxId, notes;
    buffer, boxId, boxes, notes, fault := PackStream(src.packets, src.demuxFault, Packing(src, threshold, target));
    log := log + Progresses(notes);
    ErrorsAppend([Connected(src.codec, outFmt)], Progresses(notes));
  }

  /** The `except` and `finally` blocks of api/engine.py and
      api/fly_engine.py: log the fault once, close the container if it was
      opened, close both pipes, terminate (and kill if it does not stop) a
      process still running, then put the sentinel. */
  method Settle(src: Source, boxes: seq<Cargo>, log: seq<Log>, fault: Option<Fault>)
    returns (o: Outcome)
    requires Errors(log) == 0
    ensures o.belt == Belt(boxes)
    ensures o.log == log + (if fault.Some? then [PackagerError(fault.value)] else [])
    ensures Errors(o.log) == (if fault.Some? then 1 else 0)
    ensures CloseStdout in o.teardown && CloseStderr in o.teardown
    ensures CloseContainer in o.teardown <==> !src.exitedEarly && src.opens
    ensures Terminate in o.teardown <==> !src.exitedEarly && src.aliveAtTeardown
    ensures Kill in o.teardown <==> !src.exitedEarly && src.aliveAtTeardown && !src.stopsOnTerminate
    ensures o.teardown[0] == (if !src.exitedEarly && src.opens then CloseContainer else CloseStdout)
    ensures o.teardown == Releases(src)
  {
    var finalLog := log;
    if fault.Some? {
      finalLog := log + [PackagerError(fault.value)];
      ErrorsAppend(log, [PackagerError(fault.value)]);
    }
    var teardown := TearDown(src);
    o := Outcome(Belt(boxes), finalLog, teardown);
  }

  /** The order of the `finally` block: the container, stdout, stderr,
      then `terminate()`, and `kill()` only once `wait(timeout=3)` has
      failed. */
  function Releases(src: Source): seq<Teardown> {
    (if !src.exitedEarly && src.opens then [CloseContainer] else [])
    + [CloseStdout, CloseStderr]
    + (if !src.exitedEarly && src.aliveAtTeardown
       then [Terminate] + (if !src.stopsOnTerminate then [Kill] else [])
       else [])
  }

  /** The `finally` block's releases: the container if it was opened, both
      pipes always, and the process if it is still running, killed when
      terminating does not stop it. */
  method TearDown(src: Source) returns (teardown: seq<Teardown>)
    ensures CloseStdout in teardown && CloseStderr in teardown
    ensures CloseContainer in teardown <==> !src.exitedEarly && src.opens
    ensures Terminate in teardown <==> !src.exitedEarly && src.aliveAtTeardown
    ensures Kill in teardown <==> !src.exitedEarly && src.aliveAtTeardown && !src.stopsOnTerminate
    ensures teardown[0] == (if !src.exitedEarly && src.opens then CloseContainer else CloseStdout)
    ensures teardown == Releases(src)
  {
    var release: seq<Teardown> := [CloseStdout, CloseStderr];
    if !src.exitedEarly && src.aliveAtTeardown {
      release := release + [Terminate];
      if !src.stopsOnTerminate {
        release := release + [Kill];
      }
    }
    teardown := release;
    if !src.exitedEarly && src.opens {
      teardown := [CloseContainer] + release;
    }
  }

  /** `run_packager` of api/engine.py. The split policy and the spawn of
      the extractor both run before the `try`: a zero split length with a
      known total, or a process that cannot be started, raises out of the
      function (`None` here), and nothing at all reaches the conveyor; the
      lines announced before the spawn have been logged all the same.
      Otherwise the conveyor gets the segmenter's cargo and exactly one
      `None` last, the log begins with the announced lines, and one error
      line is logged iff the `try` failed. */
  method RunPackager(totalDuration: real, splitDuration: int, url: string, src: Source)
    returns (r: Option<Outcome>, announced: seq<Log>)
    ensures r.None? <==> (totalDuration > 0.0 && splitDuration == 0) || !src.spawns
    ensures SplitPlan(totalDuration, splitDuration).None? ==> announced == []
    ensures SplitPlan(totalDuration, splitDuration).Some? ==>
      announced == Announced(SplitPlan(totalDuration, splitDuration).value, url)
    ensures r.Some? ==> Begins(r.value.log, announced)
    ensures r.Some? ==>
      var plan := SplitPlan(totalDuration, splitDuration).value;
      && r.value.belt == Belt(TryBoxes(src, true, plan.threshold, plan.target))
      && Delivered(r.value.belt)
      && Errors(r.value.log) == (if TryFault(src, true, plan.threshold, plan.target).Some? then 1 else 0)
  {
    var split := SplitPlan(totalDuration, splitDuration);
    if split.None? {
      return None, [];
    }
    var plan := split.value;
    announced := Announce(plan, url);
    if !src.spawns {
      return None, announced;
    }
    var boxes, tryLog, fault := TryBlock(src, true, plan.threshold, plan.target);
    ErrorsAppend(announced, tryLog);
    var o := Settle(src, boxes, announced + tryLog, fault);
    BeginsAppend(announced, tryLog, if fault.Some? then [PackagerError(fault.value)] else []);
    TryBoxesDelivered(src, true, plan.threshold, plan.target);
    r := Some(o);
  }

  /** `log` starts with the lines `head`. */
  predicate Begins(log: seq<Log>, head: seq<Log>) {
    |head| <= |log| && log[..|head|] == head
  }

  lemma BeginsAppend(head: seq<Log>, a: seq<Log>, b: seq<Log>)
    ensures Begins(head + a + b, head)
  {
    assert (head + a + b)[..|head|] == head;
  }

  /** The lines api/engine.py logs before it starts the process. */
  function Announced(plan: Plan, url: string): seq<Log> {
    (if plan.mode.Balanced? then [BalancedSplit(plan.mode.parts)] else []) + [FactoryStart(url)]
  }

  /** The lines api/engine.py logs before it starts the process: the
      balanced split when the plan has one, then the start line. */
  method Announce(plan: Plan, url: string) returns (log: seq<Log>)
    ensures log == Announced(plan, url)
    ensures Errors(log) == 0
    ensures |log| == (if plan.mode.Balanced? then 2 else 1)
    ensures log[|log| - 1] == FactoryStart(url)
    ensures plan.mode.Balanced? ==> log[0] == BalancedSplit(plan.mode.parts)
  {
    log := [];
    if plan.mode.Balanced? {
      log := log + [BalancedSplit(plan.mode.parts)];
    }
    log := log + [FactoryStart(url)];
    ErrorsNone(log);
  }

  /** The same `run_packager` with the split policy and the spawn moved
      inside the `try`, and `process` set to `None` before it: a zero split
      length with a known total, or a process that cannot be started, is
      then one error line with nothing to release, and the conveyor still
      receives its single `None`. */
  method RunPackagerGuarded(totalDuration: real, splitDuration: int, url: string, src: Source)
    returns (o: Outcome)
    ensures Delivered(o.belt)
    ensures SplitPlan(totalDuration, splitDuration).None? ==>
      o.belt == [None] && o.log == [PackagerError(ZeroSplit)] && o.teardown == []
    ensures SplitPlan(totalDuration, splitDuration).Some? && !src.spawns ==>
      && o.belt == [None] && Errors(o.log) == 1 && o.teardown == []
      && o.log[|o.log| - 1] == PackagerError(SpawnFailed)
      && o.log == Announced(SplitPlan(totalDuration, splitDuration).value, url) + [PackagerError(SpawnFailed)]
    ensures SplitPlan(totalDuration, splitDuration).Some? && src.spawns ==>
      var plan := SplitPlan(totalDuration, splitDuration).value;
      && Begins(o.log, Announced(plan, url))
      && o.belt == Belt(TryBoxes(src, true, plan.threshold, plan.target))
      && Errors(o.log) == (if TryFault(src, true, plan.threshold, plan.target).Some? then 1 else 0)
  {
    var split := SplitPlan(totalDuration, splitDuration);
    if split.None? {
      o := Outcome([None], [PackagerError(ZeroSplit)], []);
      return;
    }
    if !src.spawns {
      var log := Announce(split.value, url);
      ErrorsAppend(log, [PackagerError(SpawnFailed)]);
      o := Outcome([None], log + [PackagerError(SpawnFailed)], []);
      return;
    }
    var r, announced := RunPackager(totalDuration, splitDuration, url, src);
    o := r.value;
  }

  /** The escape in api/engine.py: any known total with a zero split
      length leaves the split policy without a plan, so `RunPackager`
      returns `None` and the conveyor never sees its sentinel. */
  lemma ZeroSplitLosesSentinel(total: real)
    requires total > 0.0
    ensures SplitPlan(total, 0).None?
  {
  }

  /** `run_packager` of api/fly_engine.py: the trigger is always
      `packaging_threshold` (2400 s) and the cap `CHUNK_DURATION` (1800 s),
      whatever the job asks for; the start line and then the printable
      form of the fetch command it builds from the request are logged
      before the process starts. A process that cannot be started raises
      out of the function after those two lines (`None` here), and nothing
      reaches the conveyor. */
  method RunPackagerFly(python: string, request: Commands.Request, src: Source)
    returns (r: Option<Outcome>, announced: seq<Log>)
    ensures Defaults.PackagingThreshold() as real == 2400.0 && Defaults.chunkDuration as real == 1800.0
    ensures r.None? <==> !src.spawns
    ensures announced == FlyAnnounced(python, request)
    ensures r.Some? ==> Begins(r.value.log, announced)
    ensures r.Some? ==>
      && r.value.belt == Belt(TryBoxes(src, true, 2400.0, 1800.0))
      && Delivered(r.value.belt)
      && Errors(r.value.log) == (if TryFault(src, true, 2400.0, 1800.0).Some? then 1 else 0)
      && |r.value.log| >= 2 && r.value.log[0] == Starting(request.url)
      && r.value.log[1] == CommandLine(Commands.PrintableCmd(Commands.FlyFetchArgv(python, request)))
  {
    var threshold := Defaults.PackagingThreshold() as real;
    var target := Defaults.chunkDuration as real;
    assert threshold == 2400.0 && target == 1800.0;
    announced := FlyAnnounce(python, request);
    if !src.spawns {
      return None, announced;
    }
    var boxes, tryLog, fault := TryBlock(src, true, threshold, target);
    ErrorsAppend(announced, tryLog);
    var o := Settle(src, boxes, announced + tryLog, fault);
    BeginsAppend(announced, tryLog, if fault.Some? then [PackagerError(fault.value)] else []);
    TryBoxesDelivered(src, true, threshold, target);
    r := Some(o);
  }

  /** The lines api/fly_engine.py logs before it starts the process. */
  function FlyAnnounced(python: string, request: Commands.Request): seq<Log> {
    [Starting(request.url), CommandLine(Commands.PrintableCmd(Commands.FlyFetchArgv(python, request)))]
  }

  /** The two lines api/fly_engine.py logs before it starts the process:
      the start line and the printable form of the command it built. */
  method FlyAnnounce(python: string, request: Commands.Request) returns (log: seq<Log>)
    ensures log == FlyAnnounced(python, request)
    ensures |log| == 2 && log[0] == Starting(request.url)
    ensures log[1] == CommandLine(Commands.PrintableCmd(Commands.FlyFetchArgv(python, request)))
    ensures Errors(log) == 0
  {
    var cmd := Commands.FlyFetchArgv(python, request);
    log := [Starting(request.url), CommandLine(Commands.PrintableCmd(cmd))];
    ErrorsNone(log);
  }

  /** `run_packager` of api/testfly.py: cookies are written first when
      given, there is no exit check, and the `finally` block only kills the
      process before putting the sentinel. A process that cannot be
      started raises out of the function (`None` here) after the cookie
      and start lines, and nothing reaches the conveyor. */
  method RunPackagerPrototype(url: string, cookies: string, cookieWriteFails: bool, src: Source)
    returns (r: Option<Outcome>, announced: seq<Log>)
    ensures r.None? <==> !src.spawns
    ensures announced == PrototypeAnnounced(url, cookies, cookieWriteFails)
    ensures r.Some? ==> Begins(r.value.log, announced)
    ensures r.Some? ==>
      && r.value.belt == Belt(TryBoxes(src, false, 2400.0, 1800.0))
      && Delivered(r.value.belt)
      && Errors(r.value.log) == (if TryFault(src, false, 2400.0, 1800.0).Some? then 1 else 0)
      && r.value.teardown == [Kill]
      && |r.value.log| > 0
      && (cookies == "" ==> r.value.log[0] == Starting(url))
      && (cookies != "" ==> r.value.log[0] == (if cookieWriteFails then CookieWriteFailed else CookiesWritten))
  {
    announced := PrototypeAnnounced(url, cookies, cookieWriteFails);
    if !src.spawns {
      return None, announced;
    }
    var threshold := Defaults.PackagingThreshold() as real;
    var target := Defaults.chunkDuration as real;
    assert threshold == 2400.0 && target == 1800.0;
    var boxes, tryLog, fault := TryBlock(src, false, threshold, target);
    var log := PrototypeLog(url, cookies, cookieWriteFails, tryLog, fault);
    r := Some(Outcome(Belt(boxes), log, [Kill]));
    TryBoxesDelivered(src, false, threshold, target);
  }

  /** The lines api/testfly.py logs before it starts the process: the
      cookie line when cookies were given, then the start line. */
  function PrototypeAnnounced(url: string, cookies: string, cookieWriteFails: bool): seq<Log> {
    (if cookies == "" then [] else [if cookieWriteFails then CookieWriteFailed else CookiesWritten]) + [Starting(url)]
  }

  /** The prototype's log: the cookie line when cookies were given, the
      start line, the `try` block's lines, and the error line when it
      failed. */
  method PrototypeLog(url: string, cookies: string, cookieWriteFails: bool, tryLog: seq<Log>, fault: Option<Fault>)
    returns (log: seq<Log>)
    requires Errors(tryLog) == 0
    ensures Errors(log) == (if fault.Some? then 1 else 0)
    ensures |log| > 0
    ensures cookies == "" ==> log[0] == Starting(url)
    ensures cookies != "" ==> log[0] == (if cookieWriteFails then CookieWriteFailed else CookiesWritten)
    ensures Begins(log, PrototypeAnnounced(url, cookies, cookieWriteFails))
  {
    log := [];
    if cookies != "" {
      log := log + [if cookieWriteFails then CookieWriteFailed else CookiesWritten];
    }
    log := log + [Starting(url)];
    ErrorsNone(log);
    ghost var announced := log;
    assert announced == PrototypeAnnounced(url, cookies, cookieWriteFails);
    ErrorsAppend(log, tryLog);
    log := log + tryLog;
    var failure: seq<Log> := [];
    if fault.Some? {
      failure := [PackagerError(fault.value)];
    }
    ErrorsAppend(log, failure);
    log := log + failure;
    BeginsAppend(announced, tryLog, failure);
    assert log[0] == announced[0];
  }
}
