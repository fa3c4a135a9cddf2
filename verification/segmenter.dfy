/** The segmenter ("packager") of the audio pipeline: the cut-threshold
    policy, `create_package` (cut the longest in-range prefix of the packet
    buffer and rebase it to time 0) and the buffer loop of `run_packager`
    (append packets that carry a decode timestamp, seal a box when the
    buffered span reaches the threshold, carry the rest over, seal a last
    box with no cap at end of stream).

    The muxer is "the list of rebased packets written"; elapsed time is an
    exact `real` (the source multiplies a float by a `Fraction`). */
module Segmenter {
  import opened Wrappers

  /** A demuxed packet: the decode timestamp may be missing. */
  datatype Packet = Packet(dts: Option<int>, pts: int)

  /** A packet admitted to the buffer: its decode timestamp is known. */
  datatype Timed = Timed(dts: int, pts: int)

  /** The stream's `time_base`, a positive rational. */
  type TimeBase = r: real | r > 0.0 witness 1.0

  /** The `max_dur` argument of `create_package`: a finite cap, or
      `float("inf")` for the final box. */
  datatype Cap = Within(limit: real) | Unbounded

  /** `(pkt.dts - base_dts) * time_base`. */
  function RelTime(p: Timed, base: Timed, tb: TimeBase): real {
    (p.dts - base.dts) as real * tb
  }

  /** `rel_time < max_dur`. */
  predicate Fits(rel: real, cap: Cap) {
    match cap
    case Unbounded => true
    case Within(limit) => rel < limit
  }

  /** `pkt.dts -= base_dts; pkt.pts -= base_pts`. */
  function Rebase(p: Timed, base: Timed): Timed {
    Timed(p.dts - base.dts, p.pts - base.pts)
  }

  /** Every packet of `xs` rebased on the first one. */
  function RebaseAll(xs: seq<Timed>): (r: seq<Timed>)
    ensures |r| == |xs|
  {
    seq(|xs|, k requires 0 <= k < |xs| => Rebase(xs[k], xs[0]))
  }

  /** The length of the longest prefix of `buf` whose packets all fit the
      cap, measured from `base`. */
  function FitCount(buf: seq<Timed>, base: Timed, tb: TimeBase, cap: Cap): (n: nat)
    ensures n <= |buf|
    ensures forall k :: 0 <= k < n ==> Fits(RelTime(buf[k], base, tb), cap)
    ensures n < |buf| ==> !Fits(RelTime(buf[n], base, tb), cap)
    decreases |buf|
  {
    if |buf| == 0 || !Fits(RelTime(buf[0], base, tb), cap) then 0
    else 1 + FitCount(buf[1..], base, tb, cap)
  }

  /** What `create_package` returns, apart from the byte size: the packets
      written to the new container and `cutoff_idx`. */
  datatype Package = Package(written: seq<Timed>, cutoff: nat)

  /** The specification of `create_package`: the longest prefix whose time
      relative to the first packet is below the cap is written, rebased on
      the first packet; `cutoff` is the index of the last packet written,
      or 0 when none is. */
  function Seal(buf: seq<Timed>, tb: TimeBase, cap: Cap): (pkg: Package)
    requires |buf| > 0
    ensures |pkg.written| <= |buf| && pkg.cutoff < |buf|
    ensures forall k :: 0 <= k < |pkg.written| ==>
      pkg.written[k] == Rebase(buf[k], buf[0]) && Fits(RelTime(buf[k], buf[0], tb), cap)
    ensures |pkg.written| < |buf| ==> !Fits(RelTime(buf[|pkg.written|], buf[0], tb), cap)
    ensures pkg.cutoff == if pkg.written == [] then 0 else |pkg.written| - 1
  {
    var n := FitCount(buf, buf[0], tb, cap);
    Package(seq(n, k requires 0 <= k < n => Rebase(buf[k], buf[0])), if n == 0 then 0 else n - 1)
  }

  /** The first packet written, if any, has decode and presentation
      timestamps 0; with a positive cap something is always written. */
  lemma SealStartsAtZero(buf: seq<Timed>, tb: TimeBase, cap: Cap)
    requires |buf| > 0
    ensures (cap.Unbounded? || cap.limit > 0.0) ==> Seal(buf, tb, cap).written != []
    ensures Seal(buf, tb, cap).written != [] ==> Seal(buf, tb, cap).written[0] == Timed(0, 0)
  {
    var pkg := Seal(buf, tb, cap);
    assert RelTime(buf[0], buf[0], tb) == 0.0;
  }

  /** With the infinite cap of the final box every buffered packet is
      written and the cutoff is the last index. */
  lemma SealUnbounded(buf: seq<Timed>, tb: TimeBase)
    requires |buf| > 0
    ensures Seal(buf, tb, Unbounded) == Package(RebaseAll(buf), |buf| - 1)
  {
    var pkg := Seal(buf, tb, Unbounded);
    assert |pkg.written| == |buf|;
  }

  /** `create_package` (api/engine.py, api/fly_engine.py, api/testfly.py):
      walks the buffer, writes each packet rebased on the first one while it
      is within `max_dur`, and stops at the first one that is not. */
  method CreatePackage(packets: seq<Timed>, tb: TimeBase, maxDur: Cap)
    returns (written: seq<Timed>, cutoff: nat)
    requires |packets| > 0
    ensures Package(written, cutoff) == Seal(packets, tb, maxDur)
  {
    var base := packets[0];
    written := [];
    cutoff := 0;
    var i := 0;
    while i < |packets|
      invariant 0 <= i <= |packets|
      invariant |written| == i
      invariant forall k :: 0 <= k < i ==>
        written[k] == Rebase(packets[k], base) && Fits(RelTime(packets[k], base, tb), maxDur)
      invariant cutoff == if i == 0 then 0 else i - 1
    {
      if !Fits(RelTime(packets[i], base, tb), maxDur) {
        break;
      }
      written := written + [Rebase(packets[i], base)];
      cutoff := i;
      i := i + 1;
    }
    var n := FitCount(packets, base, tb, maxDur);
    assert i == n;
  }

  // ---------------------------------------------------------------------
  // Cut-threshold policy
  // ---------------------------------------------------------------------

  /** The frozen `Config` dataclass: target chunk length and tail buffer. */
  datatype Config = Config(chunkDuration: int, bufferTail: int) {
    /** `packaging_threshold`: cut only once the target plus the tail is
        buffered. */
    function PackagingThreshold(): int {
      chunkDuration + bufferTail
    }
  }

  /** `CONFIG` of api/fly_structs.py and api/testfly.py; api/core.py keeps
      only the tail, with the same value. */
  const Defaults: Config := Config(1800, 600)

  /** The slack added to the balanced target. */
  const BalancedSlack: real := 30.0

  /** `math.ceil` on an exact real. */
  function Ceil(x: real): (r: int)
    ensures r as real - 1.0 < x <= r as real
  {
    -((-x).Floor)
  }

  datatype Mode = Fixed | Balanced(parts: nat)

  /** The cut cap (`target_split`) and the seal trigger (`threshold`). */
  datatype Plan = Plan(target: real, threshold: real, mode: Mode)

  /** The dual-mode split of api/engine.py: fixed (`split_duration` minutes
      plus the tail) unless a positive total duration is known, in which
      case the total is divided into `ceil(total / base)` equal parts.
      `None` is the `ZeroDivisionError` that a zero `split_duration` raises
      when a total is known. */
  function SplitPlan(totalDuration: real, splitDuration: int): (r: Option<Plan>)
    ensures r.None? <==> totalDuration > 0.0 && splitDuration == 0
    ensures r.Some? ==> r.value.threshold > r.value.target
  {
    var base := splitDuration * 60;
    var fixed := Plan(base as real, (base + Defaults.bufferTail) as real, Fixed);
    if totalDuration <= 0.0 then Some(fixed)
    else if base == 0 then None
    else
      var parts := Ceil(totalDuration / base as real);
      if parts > 0 then
        var target := totalDuration / parts as real;
        Some(Plan(target, target + BalancedSlack, Balanced(parts)))
      else Some(fixed)
  }

  /** Fixed mode: the cap is the split length in seconds and the trigger
      adds the 600-second tail; 30 minutes gives 1800 and 2400. */
  lemma FixedPlan(totalDuration: real, splitDuration: int)
    requires totalDuration <= 0.0
    ensures SplitPlan(totalDuration, splitDuration)
      == Some(Plan((splitDuration * 60) as real, (splitDuration * 60 + 600) as real, Fixed))
    ensures SplitPlan(totalDuration, 30) == Some(Plan(1800.0, 2400.0, Fixed))
  {
  }

  /** Balanced mode: the parts are the fewest whose base length covers the
      total, they split it exactly, none is longer than the base, and the
      trigger is 30 seconds past the target. */
  lemma BalancedPlan(totalDuration: real, splitDuration: int)
    requires totalDuration > 0.0 && splitDuration > 0
    ensures var r := SplitPlan(totalDuration, splitDuration);
      var base := (splitDuration * 60) as real;
      && r.Some? && r.value.mode.Balanced?
      && var parts := r.value.mode.parts;
      && parts >= 1
      && parts as real * r.value.target == totalDuration
      && r.value.target <= base
      && (parts - 1) as real * base < totalDuration <= parts as real * base
      && r.value.threshold == r.value.target + 30.0
  {
    var base := (splitDuration * 60) as real;
    var parts := Ceil(totalDuration / base);
    CeilBounds(totalDuration, base, parts);
    assert SplitPlan(totalDuration, splitDuration).value.mode.parts == parts;
  }

  /** The least whole count of `base`-long parts that covers `total`. */
  lemma CeilBounds(total: real, base: real, parts: int)
    requires total > 0.0 && base > 0.0 && parts == Ceil(total / base)
    ensures parts >= 1
    ensures (parts - 1) as real * base < total <= parts as real * base
    ensures parts as real * (total / parts as real) == total
    ensures total / parts as real <= base
  {
    var q := total / base;
    assert q > 0.0;
    assert q * base == total;
    assert parts >= 1;
    ScaleBelow((parts - 1) as real, q, base, total);
    ScaleAtLeast(q, parts as real, base, total);
    DivAtMost(total, parts as real, base);
    DivCancels(total, parts as real);
  }

  lemma ScaleBelow(a: real, b: real, c: real, t: real)
    requires a < b && c > 0.0 && b * c == t
    ensures a * c < t
  {
  }

  lemma ScaleAtLeast(a: real, b: real, c: real, t: real)
    requires a <= b && c > 0.0 && a * c == t
    ensures t <= b * c
  {
  }

  lemma DivCancels(t: real, d: real)
    requires d > 0.0
    ensures d * (t / d) == t
  {
  }

  lemma DivAtMost(t: real, d: real, c: real)
    requires d > 0.0 && t <= d * c
    ensures t / d <= c
  {
  }

  /** The worked example: 90 minutes at 30 gives 3 parts of 1800 s and a
      1830 s trigger. */
  lemma BalancedExample()
    ensures SplitPlan(5400.0, 30) == Some(Plan(1800.0, 1830.0, Balanced(3)))
  {
    assert 5400.0 / 1800.0 == 3.0;
    assert Ceil(3.0) == 3;
  }

  /** A negative split length yields no positive part count, so the fixed
      plan is kept even with a known total. */
  lemma NegativeSplitStaysFixed(totalDuration: real, splitDuration: int)
    requires totalDuration > 0.0 && splitDuration < 0
    ensures SplitPlan(totalDuration, splitDuration)
      == Some(Plan((splitDuration * 60) as real, (splitDuration * 60 + 600) as real, Fixed))
  {
    var base := (splitDuration * 60) as real;
    assert totalDuration / base < 0.0;
  }

  // ---------------------------------------------------------------------
  // The buffer loop of run_packager
  // ---------------------------------------------------------------------

  /** One sealed box on the conveyor: its index, MIME type and the packets
      written to its container (byte buffer and size are left out). */
  datatype Cargo = Cargo(index: nat, mimeType: string, packets: seq<Timed>)

  /** Why the `try` block of `run_packager` ended early. */
  datatype Fault =
    | ExitedEarly     // `process.poll()` already returned
    | OpenFailed      // `av.open` on the pipe raised
    | NoAudioTrack    // `streams.audio[0]` raised
    | DemuxFailed     // `demux` raised after the packets it yielded
    | MuxFailed(box: nat)  // `create_package` raised while sealing this box
    | ZeroSplit       // the split policy divided by a zero split length
    | SpawnFailed     // `subprocess.Popen` raised (inside the corrected `try` only)

  /** The status lines the loop logs. */
  datatype Note = BinFull(box: nat) | StreamEnded

  /** Everything the loop depends on: the stream's time base, the seal
      trigger, the cut cap, the MIME type, and which box (if any) fails to
      mux. */
  datatype Packing = Packing(timeBase: TimeBase, threshold: real, target: real,
                             mimeType: string, muxFault: Option<nat>)

  /** The loop's state: `buffer`, `box_id`, the cargo put on the conveyor,
      the notes logged, the fault that ended it; `removed` records what
      each seal took out of the buffer. */
  datatype PackState = PackState(buffer: seq<Timed>, boxId: nat, boxes: seq<Cargo>,
                                 removed: seq<seq<Timed>>, notes: seq<Note>,
                                 fault: Option<Fault>)

  const Start: PackState := PackState([], 0, [], [], [], None)

  /** The packets of `ps` that carry a decode timestamp, in order. */
  function Admitted(ps: seq<Packet>): seq<Timed> {
    if ps == [] then []
    else
      var p := ps[|ps| - 1];
      Admitted(ps[..|ps| - 1]) + (if p.dts.Some? then [Timed(p.dts.value, p.pts)] else [])
  }

  function Flatten(xss: seq<seq<Timed>>): seq<Timed> {
    if xss == [] then [] else Flatten(xss[..|xss| - 1]) + xss[|xss| - 1]
  }

  /** One iteration of the demux loop. */
  function Step(s: PackState, p: Packet, pk: Packing): PackState {
    if s.fault.Some? || p.dts.None? then s
    else
      var buffer := s.buffer + [Timed(p.dts.value, p.pts)];
      if RelTime(buffer[|buffer| - 1], buffer[0], pk.timeBase) < pk.threshold then
        s.(buffer := buffer)
      else if pk.muxFault == Some(s.boxId) then
        s.(buffer := buffer, notes := s.notes + [BinFull(s.boxId)], fault := Some(MuxFailed(s.boxId)))
      else
        var pkg := Seal(buffer, pk.timeBase, Within(pk.target));
        PackState(buffer[pkg.cutoff + 1..], s.boxId + 1,
                  s.boxes + [Cargo(s.boxId, pk.mimeType, pkg.written)],
                  s.removed + [buffer[..pkg.cutoff + 1]],
                  s.notes + [BinFull(s.boxId)], None)
  }

  /** The loop over a prefix of the demuxed packets. */
  function Run(s: PackState, ps: seq<Packet>, pk: Packing): PackState {
    if ps == [] then s else Step(Run(s, ps[..|ps| - 1], pk), ps[|ps| - 1], pk)
  }

  /** After the loop: a demux error, or the final box sealed with no cap. */
  function Finish(s: PackState, demuxFault: bool, pk: Packing): PackState {
    if s.fault.Some? then s
    else if demuxFault then s.(fault := Some(DemuxFailed))
    else if s.buffer == [] then s
    else if pk.muxFault == Some(s.boxId) then
      s.(notes := s.notes + [StreamEnded], fault := Some(MuxFailed(s.boxId)))
    else
      var pkg := Seal(s.buffer, pk.timeBase, Unbounded);
      s.(boxes := s.boxes + [Cargo(s.boxId, pk.mimeType, pkg.written)],
         removed := s.removed + [s.buffer],
         notes := s.notes + [StreamEnded])
  }

  /** The whole demux-and-seal part of the `try` block. */
  function Segment(ps: seq<Packet>, demuxFault: bool, pk: Packing): PackState {
    Finish(Run(Start, ps, pk), demuxFault, pk)
  }

  predicate StartsAtZero(xs: seq<Timed>) {
    xs == [] || xs[0] == Timed(0, 0)
  }

  /** Every packet of the box lies less than `target` after its start. */
  predicate WithinTarget(xs: seq<Timed>, tb: TimeBase, target: real) {
    forall j :: 0 <= j < |xs| ==> xs[j].dts as real * tb < target
  }

  /** What the loop keeps true: box ids are 0, 1, 2, ... and `box_id` is
      the next one; every box starts at time 0 and spans less than the
      target; each seal removed a non-empty slice, written in full when the
      target is positive. */
  predicate Inv(s: PackState, pk: Packing) {
    && s.boxId == |s.boxes| == |s.removed|
    && (forall k :: 0 <= k < |s.boxes| ==> s.boxes[k].index == k && s.boxes[k].mimeType == pk.mimeType)
    && (forall k :: 0 <= k < |s.boxes| ==> s.removed[k] != [])
    && (forall k :: 0 <= k < |s.boxes| ==> StartsAtZero(s.boxes[k].packets))
    && (forall k :: 0 <= k < |s.boxes| ==> WithinTarget(s.boxes[k].packets, pk.timeBase, pk.target))
    && (pk.target > 0.0 ==> forall k :: 0 <= k < |s.boxes| ==> s.boxes[k].packets == RebaseAll(s.removed[k]))
  }

  lemma SealWithinTarget(buf: seq<Timed>, pk: Packing)
    requires |buf| > 0
    ensures var pkg := Seal(buf, pk.timeBase, Within(pk.target));
      && StartsAtZero(pkg.written)
      && WithinTarget(pkg.written, pk.timeBase, pk.target)
      && (pk.target > 0.0 ==> pkg.written == RebaseAll(buf[..pkg.cutoff + 1]))
  {
    var pkg := Seal(buf, pk.timeBase, Within(pk.target));
    SealStartsAtZero(buf, pk.timeBase, Within(pk.target));
    forall j | 0 <= j < |pkg.written|
      ensures pkg.written[j].dts as real * pk.timeBase < pk.target
    {
      assert pkg.written[j].dts as real == (buf[j].dts - buf[0].dts) as real;
    }
  }

  lemma {:induction false} StepInv(s: PackState, p: Packet, pk: Packing)
    requires Inv(s, pk)
    ensures Inv(Step(s, p, pk), pk)
  {
    if s.fault.None? && p.dts.Some? {
      var buffer := s.buffer + [Timed(p.dts.value, p.pts)];
      if RelTime(buffer[|buffer| - 1], buffer[0], pk.timeBase) >= pk.threshold && pk.muxFault != Some(s.boxId) {
        SealWithinTarget(buffer, pk);
      }
    }
  }

  lemma {:induction false} RunInv(s: PackState, ps: seq<Packet>, pk: Packing)
    requires Inv(s, pk)
    ensures Inv(Run(s, ps, pk), pk)
    decreases |ps|
  {
    if ps != [] {
      RunInv(s, ps[..|ps| - 1], pk);
      StepInv(Run(s, ps[..|ps| - 1], pk), ps[|ps| - 1], pk);
    }
  }

  lemma FlattenSnoc(xss: seq<seq<Timed>>, x: seq<Timed>)
    ensures Flatten(xss + [x]) == Flatten(xss) + x
  {
    assert (xss + [x])[..|xss|] == xss;
  }

  /** One step adds its packet, if admitted, to the end of what the seals
      removed followed by the buffer. */
  lemma StepConserves(s: PackState, p: Packet, pk: Packing)
    requires s.fault.None? && Step(s, p, pk).fault.None?
    ensures var t := Step(s, p, pk);
      Flatten(t.removed) + t.buffer == Flatten(s.removed) + s.buffer + Admitted([p])
  {
    var t := Step(s, p, pk);
    var before := Flatten(s.removed) + s.buffer;
    assert [p][..0] == [];
    if p.dts.None? {
      assert Admitted([p]) == [];
      assert t == s;
      assert before + [] == before;
    } else {
      var x := Timed(p.dts.value, p.pts);
      assert Admitted([p]) == [x];
      var buffer := s.buffer + [x];
      assert before + [x] == Flatten(s.removed) + buffer;
      if RelTime(buffer[|buffer| - 1], buffer[0], pk.timeBase) >= pk.threshold {
        var n := Seal(buffer, pk.timeBase, Within(pk.target)).cutoff + 1;
        assert t.removed == s.removed + [buffer[..n]] && t.buffer == buffer[n..];
        CutConserves(s.removed, buffer, n);
      } else {
        assert t.removed == s.removed && t.buffer == buffer;
      }
    }
  }

  /** Moving a prefix of the buffer into the removed slices keeps their
      concatenation with the buffer. */
  lemma CutConserves(removed: seq<seq<Timed>>, buffer: seq<Timed>, n: nat)
    requires n <= |buffer|
    ensures Flatten(removed + [buffer[..n]]) + buffer[n..] == Flatten(removed) + buffer
  {
    FlattenSnoc(removed, buffer[..n]);
    assert buffer[..n] + buffer[n..] == buffer;
  }

  lemma AdmittedSnoc(ps: seq<Packet>, p: Packet)
    ensures Admitted(ps + [p]) == Admitted(ps) + Admitted([p])
  {
    assert (ps + [p])[..|ps|] == ps;
    assert [p][..0] == [];
  }

  /** Nothing is lost or duplicated: what the seals removed, followed by the
      buffer, is exactly the admitted packets, until a fault stops the loop. */
  lemma {:induction false} RunConserves(ps: seq<Packet>, pk: Packing)
    ensures var r := Run(Start, ps, pk);
      r.fault.None? ==> Flatten(r.removed) + r.buffer == Admitted(ps)
    decreases |ps|
  {
    if ps != [] {
      var init := ps[..|ps| - 1];
      var p := ps[|ps| - 1];
      var s := Run(Start, init, pk);
      RunConserves(init, pk);
      if s.fault.None? && Step(s, p, pk).fault.None? {
        StepConserves(s, p, pk);
        AdmittedSnoc(init, p);
        assert init + [p] == ps;
      } else if s.fault.Some? {
        assert Run(Start, ps, pk) == s;
      }
    }
  }

  /** A fault ends the loop: later packets change nothing. */
  lemma {:induction false} FaultAbsorbs(s: PackState, ps: seq<Packet>, pk: Packing)
    requires s.fault.Some?
    ensures Run(s, ps, pk) == s
    decreases |ps|
  {
    if ps != [] {
      FaultAbsorbs(s, ps[..|ps| - 1], pk);
    }
  }

  lemma RunSplit(s: PackState, ps: seq<Packet>, i: nat, pk: Packing)
    requires i < |ps|
    ensures Run(s, ps[..i + 1], pk) == Step(Run(s, ps[..i], pk), ps[i], pk)
  {
    assert ps[..i + 1][..i] == ps[..i];
  }

  /** A step seals a box exactly when it admits a packet whose time from the
      head of the buffer reaches the threshold and that box muxes. */
  lemma StepSeals(s: PackState, p: Packet, pk: Packing)
    requires s.fault.None?
    ensures var t := Step(s, p, pk);
      |t.boxes| == |s.boxes| + 1 <==>
        && p.dts.Some?
        && var buffer := s.buffer + [Timed(p.dts.value, p.pts)];
        && RelTime(buffer[|buffer| - 1], buffer[0], pk.timeBase) >= pk.threshold
        && pk.muxFault != Some(s.boxId)
    ensures |Step(s, p, pk).boxes| <= |s.boxes| + 1
  {
  }

  /** The packet that triggers a seal is never written into the box it
      seals: it stays in the buffer, last, when the trigger exceeds the
      target and is positive. */
  lemma SealCarriesTrigger(s: PackState, p: Packet, pk: Packing)
    requires s.fault.None? && p.dts.Some?
    requires pk.threshold > pk.target && pk.threshold > 0.0
    requires |Step(s, p, pk).boxes| == |s.boxes| + 1
    ensures var t := Step(s, p, pk);
      |t.buffer| > 0 && t.buffer[|t.buffer| - 1] == Timed(p.dts.value, p.pts)
  {
    var buffer := s.buffer + [Timed(p.dts.value, p.pts)];
    var pkg := Seal(buffer, pk.timeBase, Within(pk.target));
    var last := |buffer| - 1;
    assert RelTime(buffer[last], buffer[0], pk.timeBase) >= pk.threshold;
    assert last > 0 by {
      assert RelTime(buffer[0], buffer[0], pk.timeBase) == 0.0;
    }
    assert !Fits(RelTime(buffer[last], buffer[0], pk.timeBase), Within(pk.target));
    assert |pkg.written| < |buffer|;
  }

  /** The outcome of the loop and the final box: contiguous ids from 0,
      every box starting at time 0, every box but a final one shorter than
      the target; and, when nothing failed, the removed slices concatenate
      to exactly the packets that carry a decode timestamp. With a positive
      target each box holds its slice in full, rebased. */
  lemma {:induction false} SegmentSound(ps: seq<Packet>, demuxFault: bool, pk: Packing)
    ensures var r := Segment(ps, demuxFault, pk);
      && |r.boxes| == |r.removed|
      && (forall k :: 0 <= k < |r.boxes| ==> r.boxes[k].index == k && r.boxes[k].mimeType == pk.mimeType)
      && (forall k :: 0 <= k < |r.boxes| ==> StartsAtZero(r.boxes[k].packets))
      && (forall k :: 0 <= k < |Run(Start, ps, pk).boxes| ==>
            WithinTarget(r.boxes[k].packets, pk.timeBase, pk.target))
      && (r.fault.None? ==> Flatten(r.removed) == Admitted(ps))
      && (pk.target > 0.0 ==>
            forall k :: 0 <= k < |r.boxes| ==> r.boxes[k].packets == RebaseAll(r.removed[k]))
  {
    RunInv(Start, ps, pk);
    RunConserves(ps, pk);
    FinishSound(Run(Start, ps, pk), demuxFault, pk);
  }

  /** The final box keeps the loop's invariant for the earlier boxes, gets
      the next id and starts at time 0, holds the whole buffer rebased, and
      its slice is the buffer. */
  lemma FinishSound(s: PackState, demuxFault: bool, pk: Packing)
    requires Inv(s, pk)
    ensures var r := Finish(s, demuxFault, pk);
      && |r.boxes| == |r.removed|
      && (forall k :: 0 <= k < |r.boxes| ==> r.boxes[k].index == k && r.boxes[k].mimeType == pk.mimeType)
      && (forall k :: 0 <= k < |r.boxes| ==> StartsAtZero(r.boxes[k].packets))
      && (forall k :: 0 <= k < |s.boxes| ==> WithinTarget(r.boxes[k].packets, pk.timeBase, pk.target))
      && (r.fault.None? ==> s.fault.None? && Flatten(r.removed) == Flatten(s.removed) + s.buffer)
      && (pk.target > 0.0 ==> forall k :: 0 <= k < |r.boxes| ==> r.boxes[k].packets == RebaseAll(r.removed[k]))
  {
    if s.fault.None? && !demuxFault && s.buffer != [] && pk.muxFault != Some(s.boxId) {
      SealUnbounded(s.buffer, pk.timeBase);
      SealStartsAtZero(s.buffer, pk.timeBase, Unbounded);
      FlattenSnoc(s.removed, s.buffer);
    } else if s.fault.None? && !demuxFault && s.buffer == [] {
      assert Flatten(s.removed) + s.buffer == Flatten(s.removed);
    }
  }

  /** The demux loop and the final box of `run_packager`: `buffer` and
      `box_id` are reassigned as in the source, and the result is the
      state `Segment` specifies. */
  method PackStream(packets: seq<Packet>, demuxFault: bool, pk: Packing)
    returns (buffer: seq<Timed>, boxId: nat, boxes: seq<Cargo>, notes: seq<Note>, fault: Option<Fault>)
    ensures var r := Segment(packets, demuxFault, pk);
      buffer == r.buffer && boxId == r.boxId && boxes == r.boxes && notes == r.notes && fault == r.fault
  {
    buffer, boxId, boxes, notes, fault := [], 0, [], [], None;
    ghost var removed: seq<seq<Timed>> := [];
    var i := 0;
    while i < |packets| && fault.None?
      invariant 0 <= i <= |packets|
      invariant PackState(buffer, boxId, boxes, removed, notes, fault) == Run(Start, packets[..i], pk)
    {
      RunSplit(Start, packets, i, pk);
      buffer, boxId, boxes, removed, notes, fault := PackPacket(buffer, boxId, boxes, removed, notes, packets[i], pk);
      i := i + 1;
    }
    if fault.Some? {
      FaultAbsorbs(Run(Start, packets[..i], pk), packets[i..], pk);
      RunAppend(Start, packets[..i], packets[i..], pk);
      assert packets[..i] + packets[i..] == packets;
      return;
    }
    assert packets[..i] == packets;
    boxes, notes, fault := FinalBox(buffer, boxId, boxes, removed, notes, demuxFault, pk);
  }

  /** One pass of the demux loop: the packet is skipped without a decode
      timestamp, otherwise buffered, and a box is sealed once the buffer
      reaches the threshold. */
  method PackPacket(buffer0: seq<Timed>, boxId0: nat, boxes0: seq<Cargo>, ghost removed0: seq<seq<Timed>>,
                    notes0: seq<Note>, packet: Packet, pk: Packing)
    returns (buffer: seq<Timed>, boxId: nat, boxes: seq<Cargo>, ghost removed: seq<seq<Timed>>,
             notes: seq<Note>, fault: Option<Fault>)
    ensures PackState(buffer, boxId, boxes, removed, notes, fault) ==
      Step(PackState(buffer0, boxId0, boxes0, removed0, notes0, None), packet, pk)
  {
    buffer, boxId, boxes, removed, notes, fault := buffer0, boxId0, boxes0, removed0, notes0, None;
    if packet.dts.None? {
      return;
    }
    buffer := buffer + [Timed(packet.dts.value, packet.pts)];
    var currDur := RelTime(buffer[|buffer| - 1], buffer[0], pk.timeBase);
    if currDur >= pk.threshold {
      notes := notes + [BinFull(boxId)];
      if pk.muxFault == Some(boxId) {
        fault := Some(MuxFailed(boxId));
      } else {
        var written, cutoff := CreatePackage(buffer, pk.timeBase, Within(pk.target));
        boxes := boxes + [Cargo(boxId, pk.mimeType, written)];
        removed := removed + [buffer[..cutoff + 1]];
        buffer := buffer[cutoff + 1..];
        boxId := boxId + 1;
      }
    }
  }

  /** After the loop: a demux error, or the final box sealed with no cap
      when anything is still buffered. */
  method FinalBox(buffer: seq<Timed>, boxId: nat, boxes0: seq<Cargo>, ghost removed: seq<seq<Timed>>,
                  notes0: seq<Note>, demuxFault: bool, pk: Packing)
    returns (boxes: seq<Cargo>, notes: seq<Note>, fault: Option<Fault>)
    ensures var r := Finish(PackState(buffer, boxId, boxes0, removed, notes0, None), demuxFault, pk);
      boxes == r.boxes && notes == r.notes && fault == r.fault
  {
    boxes, notes, fault := boxes0, notes0, None;
    if demuxFault {
      fault := Some(DemuxFailed);
    } else if buffer != [] {
      notes := notes + [StreamEnded];
      if pk.muxFault == Some(boxId) {
        fault := Some(MuxFailed(boxId));
      } else {
        var written, _ := CreatePackage(buffer, pk.timeBase, Unbounded);
        boxes := boxes + [Cargo(boxId, pk.mimeType, written)];
      }
    }
  }

  lemma {:induction false} RunAppend(s: PackState, xs: seq<Packet>, ys: seq<Packet>, pk: Packing)
    ensures Run(s, xs + ys, pk) == Run(Run(s, xs, pk), ys, pk)
    decreases |ys|
  {
    if ys == [] {
      assert xs + ys == xs;
    } else {
      var zs := xs + ys;
      assert zs[..|zs| - 1] == xs + ys[..|ys| - 1];
      RunAppend(s, xs, ys[..|ys| - 1], pk);
    }
  }
}
