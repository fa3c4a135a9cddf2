/** `run_fly_process`, the job that ties the pipeline together: it writes
    the cookie text to a per-job file, announces the start, starts the
    heartbeat, then either lists the formats or runs the packager and the
    shipper over one conveyor, announces the end, cancels the heartbeat,
    removes the cookie file and ends the log stream with `None`.

    The log queue is kept as the `log_dispatch` calls made on it in order
    (`Some(call)`, whose lines `Dispatch.Emitted` gives) and the final
    `None`. The packager's own lines are reported in its outcome rather
    than interleaved with the shipper's. */
module Orchestrator {
  import opened Wrappers
  import opened Text
  import opened Dispatch
  import Segmenter
  import Packager
  import Shipper
  import Commands

  const StartedLine := "--- \U{1F3ED} LOGISTICS SYSTEM STARTED ---"
  const DoneLine := "--- \U{2705} DONE ---"
  const CompleteLine := "--- \U{2705} ALL SHIPMENTS COMPLETE ---"

  /** What the upload side sees, by task number: the tasks found done at
      each pick-up, and each task's reply, size and printed size. */
  datatype Uplink = Uplink(
    finished: nat -> set<nat>,
    post: nat -> Shipper.Post,
    sizeMb: nat -> real,
    sizeLabel: nat -> string)

  /** What the upload side can report for `provider`: no task is found
      done at its own pick-up, and every reply is one a POST for that
      provider can give. */
  ghost predicate Feasible(provider: string, u: Uplink) {
    Shipper.Causal(u.finished) && forall k: nat :: Shipper.Reachable(provider, u.post(k))
  }

  /** The event of each upload task, in task order (the order in which
      the tasks finish is not modelled). */
  function Shipments(provider: string, u: Uplink, tasks: seq<Segmenter.Cargo>): (calls: seq<Call>)
    requires forall k :: 0 <= k < |tasks| ==> Shipper.Reachable(provider, u.post(k))
    ensures |calls| == |tasks|
    ensures forall k :: 0 <= k < |tasks| ==>
      (calls[k].kind == "asset" <==> u.post(k).Replied? && u.post(k).status < 400)
    ensures forall k :: 0 <= k < |tasks| ==> calls[k].kind == "asset" || calls[k].kind == "error"
    ensures provider != "assemblyai" && provider != "deepgram" ==>
      forall k :: 0 <= k < |tasks| ==> calls[k].kind == "error"
  {
    seq(|tasks|, k requires 0 <= k < |tasks| =>
      Shipper.ShipCargo(provider, tasks[k].index, u.sizeMb(k), u.sizeLabel(k), u.post(k)).calls[0])
  }

  /** What a `data`-mode client receives from the packaging branch's
      calls on the job's queue (the start line, the shipper's status lines,
      the upload events and the completion line): no text at all, and
      exactly one record per upload task, in task order, an `asset` record
      iff that upload's reply succeeded and an `error` record otherwise,
      carrying the event's payload. */
  lemma DataModeShipments(provider: string, u: Uplink, calls: seq<Call>, tasks: seq<Segmenter.Cargo>, now: seq<real>)
    requires forall k :: 0 <= k < |tasks| ==> Shipper.Reachable(provider, u.post(k))
    requires forall k :: 0 <= k < |calls| ==> calls[k].kind == "status"
    requires |now| == 2 + |calls| + |tasks|
    ensures
      var ships := Shipments(provider, u, tasks);
      var lines := EmittedAll(true, "data", [StatusCall(StartedLine)] + calls + ships + [StatusCall(CompleteLine)], now);
      && |lines| == |tasks|
      && forall k :: 0 <= k < |tasks| ==>
           && [lines[k]] == Emitted(true, "data", ships[k], now[1 + |calls| + k])
           && lines[k].Record? && lines[k].kind == ships[k].kind
           && (lines[k].kind == "asset" <==> u.post(k).Replied? && u.post(k).status < 400)
  {
    var ships := Shipments(provider, u, tasks);
    DataModeCount(calls, ships, now);
    forall k | 0 <= k < |tasks|
      ensures [EmittedAll(true, "data", [StatusCall(StartedLine)] + calls + ships + [StatusCall(CompleteLine)], now)[k]]
              == Emitted(true, "data", ships[k], now[1 + |calls| + k])
      ensures EmittedAll(true, "data", [StatusCall(StartedLine)] + calls + ships + [StatusCall(CompleteLine)], now)[k].Record?
      ensures EmittedAll(true, "data", [StatusCall(StartedLine)] + calls + ships + [StatusCall(CompleteLine)], now)[k].kind
              == ships[k].kind
    {
      DataModeShipment(calls, ships, now, k);
    }
  }

  /** The packaging branch's calls give one line per upload event in
      data mode. */
  lemma DataModeCount(calls: seq<Call>, ships: seq<Call>, now: seq<real>)
    requires |now| == 2 + |calls| + |ships|
    requires forall k :: 0 <= k < |calls| ==> calls[k].kind == "status"
    requires forall k :: 0 <= k < |ships| ==> ships[k].kind in RecordKinds
    ensures |EmittedAll(true, "data", [StatusCall(StartedLine)] + calls + ships + [StatusCall(CompleteLine)], now)| == |ships|
  {
    var head := [StatusCall(StartedLine)] + calls;
    assert forall k :: 0 <= k < |head| ==> head[k].kind == "status";
    DataModeFramed(head, ships, [StatusCall(CompleteLine)], now);
  }

  /** One upload event among the packaging branch's status lines, in data
      mode. */
  lemma DataModeShipment(calls: seq<Call>, ships: seq<Call>, now: seq<real>, k: nat)
    requires |now| == 2 + |calls| + |ships| && k < |ships|
    requires forall k :: 0 <= k < |calls| ==> calls[k].kind == "status"
    requires forall k :: 0 <= k < |ships| ==> ships[k].kind in RecordKinds
    ensures k < |EmittedAll(true, "data", [StatusCall(StartedLine)] + calls + ships + [StatusCall(CompleteLine)], now)|
    ensures [EmittedAll(true, "data", [StatusCall(StartedLine)] + calls + ships + [StatusCall(CompleteLine)], now)[k]]
            == Emitted(true, "data", ships[k], now[1 + |calls| + k])
    ensures EmittedAll(true, "data", [StatusCall(StartedLine)] + calls + ships + [StatusCall(CompleteLine)], now)[k].Record?
    ensures EmittedAll(true, "data", [StatusCall(StartedLine)] + calls + ships + [StatusCall(CompleteLine)], now)[k].kind
            == ships[k].kind
  {
    var head := [StatusCall(StartedLine)] + calls;
    assert forall k :: 0 <= k < |head| ==> head[k].kind == "status";
    DataModeFramedAt(head, ships, [StatusCall(CompleteLine)], now, k);
    DataModeOne(ships[k], now[|head| + k]);
  }

  /** The stream was closed: exactly one `None`, last. */
  predicate Ended(items: seq<Option<Call>>) {
    && |items| >= 1
    && items[|items| - 1].None?
    && forall k :: 0 <= k < |items| - 1 ==> items[k].Some?
  }

  /** The cookie file after the job has written it: the unescaped text
      when there was text and the write worked. */
  function CookiesWritten(files: map<string, string>, cookieFile: string, cookies: string, writeFails: bool): map<string, string> {
    if cookies != "" && !writeFails then files[cookieFile := Commands.UnescapeCookies(cookies)] else files
  }

  /** The part of the world the job touches: the temporary files, the log
      queue and the heartbeat task. */
  class Host {
    var files: map<string, string>
    var queue: seq<Option<Call>>
    var heartbeat: bool

    constructor (files: map<string, string>)
      ensures this.files == files && queue == [] && !heartbeat
    {
      this.files := files;
      queue := [];
      heartbeat := false;
    }

    /** The cookie file is written when there is cookie text (a failed
        write is ignored), the start is announced and the heartbeat
        started. */
    method Open(cookieFile: string, cookies: string, writeFails: bool) returns (cookieFileExists: bool)
      modifies this
      ensures files == CookiesWritten(old(files), cookieFile, cookies, writeFails)
      ensures cookieFileExists <==> cookieFile in files
      ensures queue == old(queue) + [Some(StatusCall(StartedLine))]
      ensures heartbeat
    {
      if cookies != "" && !writeFails {
        files := files[cookieFile := Commands.UnescapeCookies(cookies)];
      }
      queue := queue + [Some(StatusCall(StartedLine))];
      heartbeat := true;
      cookieFileExists := cookieFile in files;
    }

    /** `log_dispatch` for each call, in order. */
    method Put(calls: seq<Call>)
      modifies this
      ensures queue == old(queue) + Queued(calls)
      ensures files == old(files) && heartbeat == old(heartbeat)
    {
      queue := queue + Queued(calls);
    }

    /** The end is announced, the heartbeat cancelled, the cookie file
        removed if it exists, and `None` put last. */
    method Close(cookieFile: string, closing: string)
      modifies this
      ensures queue == old(queue) + [Some(StatusCall(closing)), None]
      ensures !heartbeat
      ensures files == old(files) - {cookieFile}
    {
      queue := queue + [Some(StatusCall(closing))];
      heartbeat := false;
      if cookieFile in files {
        files := files - {cookieFile};
      }
      queue := queue + [None];
    }
  }

  /** What the job did besides its log: the request the command was built
      from, and the listing's events or the packager's and shipper's
      results. */
  datatype Run = Run(
    request: Commands.Request,
    listing: seq<Call>,
    packaged: Option<Packager.Outcome>,
    drain: Option<Shipper.Drain>)

  /** The job's inputs other than the host and the split policy. */
  datatype Job = Job(
    cookieFile: string,   // `/tmp/cookies_<8 hex digits>.txt`
    cookies: string,
    cookieWriteFails: bool,
    provider: string,
    onlyListFormats: bool,
    python: string,
    request: Commands.Request,
    spawnError: Option<string>,
    listingOutput: seq<string>,
    src: Packager.Source,
    uplink: Uplink)

  /** The format listing branch, between the start and the end lines. */
  method ListFormats(host: Host, job: Job, request: Commands.Request) returns (calls: seq<Call>)
    modifies host
    ensures |calls| >= 2
    ensures calls[0] == StatusCall(Commands.ListingBanner)
    ensures calls[1] == StatusCall("[COMMAND] " + Join(Commands.ListingArgv(job.python, request, true), " "))
    ensures host.queue == old(host.queue) + Queued(calls)
    ensures host.files == old(host.files) && host.heartbeat == old(host.heartbeat)
  {
    calls := Commands.RunFormatListing(job.python, request, true, job.spawnError, job.listingOutput);
    host.Put(calls);
  }

  /** The shipper over a delivered belt, and the events of its tasks. */
  method Deliver(host: Host, job: Job, belt: seq<Option<Segmenter.Cargo>>, boxes: seq<Segmenter.Cargo>)
    returns (d: Shipper.Drain)
    requires belt == Packager.Belt(boxes)
    requires forall k :: 0 <= k < |boxes| ==> boxes[k].index == k
    requires Feasible(Lower(job.provider), job.uplink)
    modifies host
    ensures d.tasks == boxes
    ensures host.queue == old(host.queue) + Queued(d.calls + Shipments(Lower(job.provider), job.uplink, d.tasks))
    ensures host.files == old(host.files) && host.heartbeat == old(host.heartbeat)
  {
    d := Shipper.RunShipper(Lower(job.provider), belt, job.uplink.finished);
    Shipper.PickedBelt(boxes);
    host.Put(d.calls + Shipments(Lower(job.provider), job.uplink, d.tasks));
  }

  lemma EndedAfter(middle: seq<Call>, closing: string)
    ensures Ended([Some(StatusCall(StartedLine))] + Queued(middle) + [Some(StatusCall(closing)), None])
  {
    var items := [Some(StatusCall(StartedLine))] + Queued(middle) + [Some(StatusCall(closing)), None];
    assert forall k :: 0 <= k < |middle| ==> items[k + 1] == Some(middle[k]);
  }

  /** The listing branch to the end: the listing's events, the done line,
      and the clean-up. */
  method ListAndClose(host: Host, job: Job, request: Commands.Request, ghost start: nat)
    returns (calls: seq<Call>)
    requires start <= |host.queue| && host.queue[start..] == [Some(StatusCall(StartedLine))]
    modifies host
    ensures |calls| >= 2
    ensures calls[1] == StatusCall("[COMMAND] " + Join(Commands.ListingArgv(job.python, request, true), " "))
    ensures host.queue == old(host.queue) + Queued(calls) + [Some(StatusCall(DoneLine)), None]
    ensures start <= |host.queue| && Ended(host.queue[start..])
    ensures !host.heartbeat && host.files == old(host.files) - {job.cookieFile}
  {
    ghost var q0 := host.queue;
    calls := ListFormats(host, job, request);
    host.Close(job.cookieFile, DoneLine);
    EndedAfter(calls, DoneLine);
    SliceAfter(q0, start, Queued(calls));
    SliceAfter(q0 + Queued(calls), start, [Some(StatusCall(DoneLine)), None]);
  }

  /** What follows a slice of the queue when more is put behind it. */
  lemma SliceAfter(q: seq<Option<Call>>, start: nat, rest: seq<Option<Call>>)
    requires start <= |q|
    ensures (q + rest)[start..] == q[start..] + rest
  {
  }

  /** The packaging branch to the end, once the packager has delivered its
      belt: the shipper and its tasks, the completion line, and the
      clean-up. */
  method ShipAndClose(host: Host, job: Job, belt: seq<Option<Segmenter.Cargo>>, ghost start: nat)
    returns (d: Shipper.Drain)
    requires Packager.Delivered(belt)
    requires start <= |host.queue| && host.queue[start..] == [Some(StatusCall(StartedLine))]
    requires Feasible(Lower(job.provider), job.uplink)
    modifies host
    ensures d.tasks == Shipper.Picked(belt) && |belt| == |d.tasks| + 1
    ensures forall k :: 0 <= k < |d.tasks| ==> d.tasks[k].index == k
    ensures host.queue == old(host.queue) + Queued(d.calls + Shipments(Lower(job.provider), job.uplink, d.tasks))
                          + [Some(StatusCall(CompleteLine)), None]
    ensures start <= |host.queue| && Ended(host.queue[start..])
    ensures !host.heartbeat && host.files == old(host.files) - {job.cookieFile}
  {
    var boxes := Shipper.Picked(belt);
    BeltBoxes(belt);
    ghost var qi := host.queue;
    d := Deliver(host, job, belt, boxes);
    ghost var middle := d.calls + Shipments(Lower(job.provider), job.uplink, d.tasks);
    ghost var q0 := host.queue;
    SliceAfter(qi, start, Queued(middle));
    host.Close(job.cookieFile, CompleteLine);
    EndedAfter(middle, CompleteLine);
    ghost var rest := [Some(StatusCall(CompleteLine)), None];
    assert host.queue == q0 + rest;
    SliceAfter(q0, start, rest);
  }

  /** The shipper reads at least as far as the boxes go. */
  lemma {:induction false} FirstEndAtLeast(belt: seq<Option<Segmenter.Cargo>>, n: nat)
    requires n <= |belt| && forall k :: 0 <= k < n ==> belt[k].Some?
    ensures Shipper.FirstEnd(belt) >= n
    decreases n
  {
    if n > 0 {
      FirstEndAtLeast(belt[1..], n - 1);
    }
  }

  /** A delivered belt is the belt of the boxes the shipper picks off it. */
  lemma BeltBoxes(belt: seq<Option<Segmenter.Cargo>>)
    requires Packager.Delivered(belt)
    ensures belt == Packager.Belt(Shipper.Picked(belt))
    ensures forall k :: 0 <= k < |Shipper.Picked(belt)| ==> Shipper.Picked(belt)[k].index == k
    ensures |Shipper.Picked(belt)| == |belt| - 1
  {
    var n := |belt| - 1;
    FirstEndAtLeast(belt, n);
    var boxes := Shipper.Picked(belt);
    var b := Packager.Belt(boxes);
    assert |b| == |belt|;
    forall k | 0 <= k < |belt| ensures b[k] == belt[k] {
      if k < n {
        assert boxes[k] == belt[k].value;
      }
    }
  }

  /** `run_fly_process` of api/engine.py as written. The split policy of
      `run_packager` raises out of the worker for a known total and a zero
      split length, and so does the spawn of a process that cannot be
      started; the exception leaves the job at the `await`, after the
      shipper has announced its partner: the heartbeat keeps running, the
      cookie file stays, and the stream never gets its `None`. On every
      other path the stream is the start line, the branch's events, the end
      line and one `None`; the heartbeat is cancelled and the cookie file
      gone. The shipper ships exactly the packager's boxes, numbered from
      0, and the fetch or listing command gets the cookie file iff it was
      written. `announced` is what the packager logged before its spawn,
      escape or not; its outcome's log begins with those lines. */
  method RunFlyProcess(host: Host, job: Job, totalDuration: real, splitDuration: int)
    returns (run: Option<Run>, announced: seq<Packager.Log>)
    requires Feasible(Lower(job.provider), job.uplink)
    modifies host
    ensures |host.queue| > |old(host.queue)| && host.queue[|old(host.queue)|] == Some(StatusCall(StartedLine))
    ensures run.None? <==> !job.onlyListFormats && ((totalDuration > 0.0 && splitDuration == 0) || !job.src.spawns)
    ensures announced ==
      (if job.onlyListFormats || Segmenter.SplitPlan(totalDuration, splitDuration).None? then []
       else Packager.Announced(Segmenter.SplitPlan(totalDuration, splitDuration).value, job.request.url))
    ensures run.Some? && run.value.packaged.Some? ==> Packager.Begins(run.value.packaged.value.log, announced)
    ensures run.None? ==>
      && host.queue == old(host.queue) + [Some(StatusCall(StartedLine)),
                                          Some(StatusCall("[SHIPPER] \U{1F69A} Logistics Partner: " + Upper(Lower(job.provider))))]
      && host.heartbeat
      && host.files == CookiesWritten(old(host.files), job.cookieFile, job.cookies, job.cookieWriteFails)
    ensures run.Some? ==>
      && Ended(host.queue[|old(host.queue)|..])
      && !host.heartbeat
      && host.files == old(host.files) - {job.cookieFile}
      && run.value.request.cookieFileExists == (job.cookieFile in CookiesWritten(old(host.files), job.cookieFile, job.cookies, job.cookieWriteFails))
    ensures run.Some? && job.onlyListFormats ==>
      && host.queue == old(host.queue) + [Some(StatusCall(StartedLine))] + Queued(run.value.listing) + [Some(StatusCall(DoneLine)), None]
      && |run.value.listing| >= 2
      && run.value.listing[1] == StatusCall("[COMMAND] " + Join(Commands.ListingArgv(job.python, run.value.request, true), " "))
    ensures run.Some? && !job.onlyListFormats ==>
      && run.value.packaged.Some? && run.value.drain.Some?
      && Packager.Delivered(run.value.packaged.value.belt)
      && run.value.drain.value.tasks == Shipper.Picked(run.value.packaged.value.belt)
      && |run.value.packaged.value.belt| == |run.value.drain.value.tasks| + 1
      && (forall k :: 0 <= k < |run.value.drain.value.tasks| ==> run.value.drain.value.tasks[k].index == k)
      && host.queue[|host.queue| - 2] == Some(StatusCall(CompleteLine))
      && host.queue == old(host.queue) + [Some(StatusCall(StartedLine))]
                       + Queued(run.value.drain.value.calls + Shipments(Lower(job.provider), job.uplink, run.value.drain.value.tasks))
                       + [Some(StatusCall(CompleteLine)), None]
  {
    var present := host.Open(job.cookieFile, job.cookies, job.cookieWriteFails);
    var request := job.request.(cookieFile := job.cookieFile, cookieFileExists := present);
    ghost var start := |old(host.queue)|;
    assert host.queue[start..] == [Some(StatusCall(StartedLine))];
    if job.onlyListFormats {
      var calls := ListAndClose(host, job, request, start);
      return Some(Run(request, calls, None, None)), [];
    }
    var packed, d;
    packed, announced, d := PackAndShip(host, job, request.url, totalDuration, splitDuration, start);
    if packed.None? {
      return None, announced;
    }
    run := Some(Run(request, [], packed, d));
  }

  /** The packaging branch of `run_fly_process` as written: the packager
      in the worker and the shipper beside it. When the packager escapes,
      the shipper has only announced its partner and nothing else
      happens; otherwise the boxes are shipped and the job closes. */
  method PackAndShip(host: Host, job: Job, url: string, totalDuration: real, splitDuration: int, ghost start: nat)
    returns (packed: Option<Packager.Outcome>, announced: seq<Packager.Log>, d: Option<Shipper.Drain>)
    requires start <= |host.queue| && host.queue[start..] == [Some(StatusCall(StartedLine))]
    requires Feasible(Lower(job.provider), job.uplink)
    modifies host
    ensures packed.None? <==> (totalDuration > 0.0 && splitDuration == 0) || !job.src.spawns
    ensures d.Some? <==> packed.Some?
    ensures announced ==
      (if Segmenter.SplitPlan(totalDuration, splitDuration).None? then []
       else Packager.Announced(Segmenter.SplitPlan(totalDuration, splitDuration).value, url))
    ensures packed.Some? ==> Packager.Begins(packed.value.log, announced)
    ensures packed.None? ==>
      && host.queue == old(host.queue) + [Some(StatusCall("[SHIPPER] \U{1F69A} Logistics Partner: " + Upper(Lower(job.provider))))]
      && host.heartbeat == old(host.heartbeat) && host.files == old(host.files)
    ensures packed.Some? ==>
      && Packager.Delivered(packed.value.belt)
      && d.value.tasks == Shipper.Picked(packed.value.belt)
      && |packed.value.belt| == |d.value.tasks| + 1
      && (forall k :: 0 <= k < |d.value.tasks| ==> d.value.tasks[k].index == k)
      && host.queue == old(host.queue) + Queued(d.value.calls + Shipments(Lower(job.provider), job.uplink, d.value.tasks))
                       + [Some(StatusCall(CompleteLine)), None]
      && start <= |host.queue| && Ended(host.queue[start..])
      && !host.heartbeat && host.files == old(host.files) - {job.cookieFile}
  {
    packed, announced := Packager.RunPackager(totalDuration, splitDuration, url, job.src);
    if packed.None? {
      host.Put([StatusCall("[SHIPPER] \U{1F69A} Logistics Partner: " + Upper(Lower(job.provider)))]);
      return packed, announced, None;
    }
    var drain := ShipAndClose(host, job, packed.value.belt, start);
    d := Some(drain);
  }

  /** The same job with the split policy inside the packager's `try`: the
      stream always ends with one `None`, the heartbeat is cancelled and
      the cookie file removed; a zero split length with a known total, or
      a process that cannot be started, ships nothing and reports one
      packager error. */
  method RunFlyProcessGuarded(host: Host, job: Job, totalDuration: real, splitDuration: int)
    returns (run: Run)
    requires Feasible(Lower(job.provider), job.uplink)
    modifies host
    ensures |host.queue| > |old(host.queue)| && host.queue[|old(host.queue)|] == Some(StatusCall(StartedLine))
    ensures Ended(host.queue[|old(host.queue)|..])
    ensures !host.heartbeat
    ensures host.files == old(host.files) - {job.cookieFile}
    ensures !job.onlyListFormats ==>
      && run.packaged.Some? && run.drain.Some?
      && Packager.Delivered(run.packaged.value.belt)
      && run.drain.value.tasks == Shipper.Picked(run.packaged.value.belt)
      && host.queue[|host.queue| - 2] == Some(StatusCall(CompleteLine))
      && host.queue == old(host.queue) + [Some(StatusCall(StartedLine))]
                       + Queued(run.drain.value.calls + Shipments(Lower(job.provider), job.uplink, run.drain.value.tasks))
                       + [Some(StatusCall(CompleteLine)), None]
    ensures !job.onlyListFormats && ((totalDuration > 0.0 && splitDuration == 0) || !job.src.spawns) ==>
      && run.drain.Some? && run.drain.value.tasks == [] && run.packaged.Some?
      && Packager.Errors(run.packaged.value.log) == 1
  {
    var present := host.Open(job.cookieFile, job.cookies, job.cookieWriteFails);
    var request := job.request.(cookieFile := job.cookieFile, cookieFileExists := present);
    ghost var start := |old(host.queue)|;
    assert host.queue[start..] == [Some(StatusCall(StartedLine))];
    if job.onlyListFormats {
      var calls := ListAndClose(host, job, request, start);
      return Run(request, calls, None, None);
    }
    var o := Packager.RunPackagerGuarded(totalDuration, splitDuration, request.url, job.src);
    var d := ShipAndClose(host, job, o.belt, start);
    run := Run(request, [], Some(o), Some(d));
  }

  // ---------------------------------------------------------------------
  // api/testfly.py
  // ---------------------------------------------------------------------

  /** `run_fly_process` of api/testfly.py: plain log lines, no heartbeat,
      no cookie clean-up; the start line, the shipper's lines, then one
      line per upload task in task order, the end line and `None`. The
      shipper ships exactly the packager's boxes. A process that cannot be
      started raises out of the packager and then out of the job at the
      `await`: the shipper has only announced its partner, and the stream
      never gets its end line or its `None`. Either way the packager has
      logged its cookie and start lines (`announced`). */
  method PrototypeFlyProcess(url: string, cookies: string, cookieWriteFails: bool, src: Packager.Source, uplink: Uplink)
    returns (lines: seq<Option<string>>, o: Option<Packager.Outcome>, announced: seq<Packager.Log>, d: Shipper.Drain)
    requires Shipper.Causal(uplink.finished)
    ensures o.None? <==> !src.spawns
    ensures announced == Packager.PrototypeAnnounced(url, cookies, cookieWriteFails)
    ensures o.Some? ==> Packager.Begins(o.value.log, announced)
    ensures o.None? ==>
      && d == Shipper.Drain([StatusCall("[SHIPPER] \U{1F69A} Logistics Partner: " + Upper(Shipper.PrototypeProvider))], [], [])
      && lines == [Some(StartedLine), d.calls[0].text]
    ensures o.Some? ==> PrototypeShipped(lines, o.value.belt, d, uplink)
  {
    o, announced := Packager.RunPackagerPrototype(url, cookies, cookieWriteFails, src);
    if o.None? {
      var partner := StatusCall("[SHIPPER] \U{1F69A} Logistics Partner: " + Upper(Shipper.PrototypeProvider));
      d := Shipper.Drain([partner], [], []);
      lines := [Some(StartedLine), partner.text];
      return;
    }
    lines, d := PrototypeShipping(o.value.belt, uplink);
  }

  /** The prototype's stream over a delivered belt: the start line, the
      shipper's lines, one `ship_cargo` line per task in task order, the
      end line and `None` last; the shipper ships exactly the belt's
      boxes, numbered from 0. */
  predicate PrototypeShipped(lines: seq<Option<string>>, belt: seq<Option<Segmenter.Cargo>>, d: Shipper.Drain, uplink: Uplink) {
    && |lines| == 3 + |d.calls| + |d.tasks|
    && lines[0] == Some(StartedLine)
    && (forall k :: 0 <= k < |d.calls| ==> lines[1 + k] == d.calls[k].text)
    && (forall k :: 0 <= k < |d.tasks| ==>
          lines[1 + |d.calls| + k]
          == Some(Shipper.PrototypeShipCargo(Shipper.PrototypeProvider, d.tasks[k].index, uplink.sizeLabel(k), uplink.post(k)).line))
    && lines[|lines| - 2] == Some(CompleteLine)
    && lines[|lines| - 1] == None
    && (forall k :: 0 <= k < |lines| - 1 ==> lines[k].Some?)
    && Packager.Delivered(belt)
    && d.tasks == Shipper.Picked(belt) && |belt| == |d.tasks| + 1
    && (forall k :: 0 <= k < |d.tasks| ==> d.tasks[k].index == k)
  }

  /** The prototype's stream once the packager has delivered its belt. */
  method PrototypeShipping(belt: seq<Option<Segmenter.Cargo>>, uplink: Uplink)
    returns (lines: seq<Option<string>>, d: Shipper.Drain)
    requires Packager.Delivered(belt)
    requires Shipper.Causal(uplink.finished)
    ensures PrototypeShipped(lines, belt, d, uplink)
  {
    BeltBoxes(belt);
    d := Shipper.RunShipper(Shipper.PrototypeProvider, belt, uplink.finished);
    lines := PrototypeStream(d.calls, d.tasks, uplink);
  }

  /** The prototype's stream around the shipper's calls and its tasks:
      the start line, the calls' texts, one line per task, the end line,
      and `None` last. */
  function PrototypeStream(calls: seq<Call>, tasks: seq<Segmenter.Cargo>, uplink: Uplink): (lines: seq<Option<string>>)
    requires forall k :: 0 <= k < |calls| ==> calls[k].text.Some?
    ensures |lines| == 3 + |calls| + |tasks|
    ensures lines[0] == Some(StartedLine)
    ensures forall k :: 0 <= k < |calls| ==> lines[1 + k] == calls[k].text
    ensures forall k :: 0 <= k < |tasks| ==>
      lines[1 + |calls| + k]
      == Some(Shipper.PrototypeShipCargo(Shipper.PrototypeProvider, tasks[k].index, uplink.sizeLabel(k), uplink.post(k)).line)
    ensures lines[|lines| - 2] == Some(CompleteLine)
    ensures lines[|lines| - 1] == None
    ensures forall k :: 0 <= k < |lines| - 1 ==> lines[k].Some?
  {
    var said := Texts(calls);
    var shipped := PrototypeReports(tasks, uplink);
    Layout(Some(StartedLine), said, shipped, [Some(CompleteLine), None]);
    SomeBeforeLast(Some(StartedLine), said, shipped, Some(CompleteLine));
    [Some(StartedLine)] + said + shipped + [Some(CompleteLine), None]
  }

  /** The text of each call, as the prototype logs it. */
  function Texts(calls: seq<Call>): (lines: seq<Option<string>>)
    ensures |lines| == |calls|
    ensures forall k :: 0 <= k < |calls| ==> lines[k] == calls[k].text
  {
    seq(|calls|, k requires 0 <= k < |calls| => calls[k].text)
  }

  /** The line of each upload task of api/testfly.py, in task order. */
  function PrototypeReports(tasks: seq<Segmenter.Cargo>, uplink: Uplink): (lines: seq<Option<string>>)
    ensures |lines| == |tasks|
    ensures forall k :: 0 <= k < |tasks| ==> lines[k].Some?
    ensures forall k :: 0 <= k < |tasks| ==>
      lines[k] == Some(Shipper.PrototypeShipCargo(Shipper.PrototypeProvider, tasks[k].index, uplink.sizeLabel(k), uplink.post(k)).line)
  {
    seq(|tasks|, k requires 0 <= k < |tasks| =>
      Some(Shipper.PrototypeShipCargo(Shipper.PrototypeProvider, tasks[k].index, uplink.sizeLabel(k), uplink.post(k)).line))
  }

  /** Where each part of `[a] + m1 + m2 + z` sits. */
  lemma Layout<T>(a: T, m1: seq<T>, m2: seq<T>, z: seq<T>)
    ensures |[a] + m1 + m2 + z| == 1 + |m1| + |m2| + |z|
    ensures forall k :: 0 <= k < |m1| ==> ([a] + m1 + m2 + z)[1 + k] == m1[k]
    ensures forall k :: 0 <= k < |m2| ==> ([a] + m1 + m2 + z)[1 + |m1| + k] == m2[k]
    ensures forall k :: 0 <= k < |z| ==> ([a] + m1 + m2 + z)[1 + |m1| + |m2| + k] == z[k]
  {
  }

  /** A stream of lines closed by one `None` holds a line everywhere
      before it. */
  lemma SomeBeforeLast<T>(a: Option<T>, m1: seq<Option<T>>, m2: seq<Option<T>>, z: Option<T>)
    requires a.Some? && z.Some?
    requires forall k :: 0 <= k < |m1| ==> m1[k].Some?
    requires forall k :: 0 <= k < |m2| ==> m2[k].Some?
    ensures forall k :: 0 <= k < |m1| + |m2| + 2 ==> ([a] + m1 + m2 + [z, None])[k].Some?
  {
    Layout(a, m1, m2, [z, None]);
    forall k | 0 <= k < |m1| + |m2| + 2 ensures ([a] + m1 + m2 + [z, None])[k].Some? {
      if 0 < k <= |m1| {
        assert ([a] + m1 + m2 + [z, None])[1 + (k - 1)] == m1[k - 1];
      } else if |m1| < k <= |m1| + |m2| {
        assert ([a] + m1 + m2 + [z, None])[1 + |m1| + (k - 1 - |m1|)] == m2[k - 1 - |m1|];
      }
    }
  }
}
