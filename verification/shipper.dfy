/** The shipper: `ship_cargo`, which uploads one box and reports the
    outcome, and `run_shipper`, which drains the conveyor until its `None`
    and starts one upload per box (api/engine.py, api/testfly.py). The
    HTTP exchange is an input: the reply's status, error text and decoded
    body, or the exception raised on the way. */
module Shipper {
  import opened Wrappers
  import opened Text
  import opened Dispatch
  import Segmenter
  import Packager

  // ---------------------------------------------------------------------
  // ship_cargo
  // ---------------------------------------------------------------------

  const AssemblyAiUrl := "https://api.assemblyai.com/v2/upload"
  const DeepgramUrl := "https://manage.deepgram.com/storage/assets"
  const DeepgramAssetBase := "https://manage.deepgram.com/storage/assets/"

  /** Where a box is posted and with which headers. */
  datatype Target = Target(url: string, headers: map<string, string>)

  /** The provider's endpoint and headers in api/engine.py. AssemblyAI
      takes the raw key and an octet stream, Deepgram a `Token` key and the
      box's MIME type; any other provider gets no URL and no headers. */
  function UploadTarget(provider: string, deepgramKey: string, assemblyAiKey: string, mimeType: string): (t: Target)
    ensures provider == "assemblyai" ==>
      t.url == AssemblyAiUrl && "Authorization" in t.headers && "Content-Type" in t.headers
      && t.headers["Authorization"] == assemblyAiKey
      && t.headers["Content-Type"] == "application/octet-stream"
    ensures provider == "deepgram" ==>
      t.url == DeepgramUrl && "Authorization" in t.headers && "Content-Type" in t.headers
      && t.headers["Authorization"] == "Token " + deepgramKey
      && t.headers["Content-Type"] == mimeType
    ensures provider != "assemblyai" && provider != "deepgram" ==> t == Target("", map[])
    ensures t.headers.Keys == {} || t.headers.Keys == {"Authorization", "Content-Type"}
  {
    if provider == "assemblyai" then
      Target(AssemblyAiUrl, map["Authorization" := assemblyAiKey, "Content-Type" := "application/octet-stream"])
    else if provider == "deepgram" then
      Target(DeepgramUrl, map["Authorization" := "Token " + deepgramKey, "Content-Type" := mimeType])
    else Target("", map[])
  }

  /** What the POST gave: a reply (status, the text read on failure, the
      JSON body read on success) or the exception raised by the request or
      by decoding the body. */
  datatype Post = Replied(status: int, errorText: string, body: map<string, string>) | Raised(message: string)

  /** `body.get(key)` is truthy. */
  predicate Truthy(body: map<string, string>, key: string) {
    key in body && body[key] != ""
  }

  /** `body.get('asset_id') or body.get('asset') or body.get('id') or 'unknown'`. */
  function DeepgramAssetId(body: map<string, string>): (id: string)
    ensures id != ""
    ensures Truthy(body, "asset_id") ==> id == body["asset_id"]
    ensures !Truthy(body, "asset_id") && Truthy(body, "asset") ==> id == body["asset"]
    ensures !Truthy(body, "asset_id") && !Truthy(body, "asset") && Truthy(body, "id") ==> id == body["id"]
    ensures !Truthy(body, "asset_id") && !Truthy(body, "asset") && !Truthy(body, "id") ==> id == "unknown"
  {
    if Truthy(body, "asset_id") then body["asset_id"]
    else if Truthy(body, "asset") then body["asset"]
    else if Truthy(body, "id") then body["id"]
    else "unknown"
  }

  /** The asset reference of a successful upload: AssemblyAI's
      `upload_url` (or empty), otherwise a Deepgram asset URL. */
  function AssetUrl(provider: string, body: map<string, string>): (url: string)
    ensures provider == "assemblyai" ==> url == (if "upload_url" in body then body["upload_url"] else "")
    ensures provider != "assemblyai" ==>
      StartsWith(url, DeepgramAssetBase) && url[|DeepgramAssetBase|..] == DeepgramAssetId(body)
  {
    if provider == "assemblyai" then (if "upload_url" in body then body["upload_url"] else "")
    else DeepgramAssetBase + DeepgramAssetId(body)
  }

  /** The outcome of one upload: the events logged and whether the box's
      buffer was closed. */
  datatype Shipment = Shipment(calls: seq<Call>, closed: bool)

  /** Whether `post` is what a POST for `provider` can give. A provider
      other than AssemblyAI and Deepgram gets the empty URL from
      `UploadTarget`, which the HTTP client refuses before any reply: only
      the exception path is reached. */
  predicate Reachable(provider: string, post: Post) {
    provider != "assemblyai" && provider != "deepgram" ==> post.Raised?
  }

  /** `ship_cargo` of api/engine.py, for a box of size `sizeMb` whose
      printed form is `sizeLabel`. Exactly one event: an error for a status
      of 400 or more (code, details and box, no asset) or for an exception,
      an asset event otherwise; the buffer is closed on every path. */
  function ShipCargo(provider: string, index: nat, sizeMb: real, sizeLabel: string, post: Post): (s: Shipment)
    requires Reachable(provider, post)
    ensures s.closed && |s.calls| == 1
    ensures post.Raised? ==>
      s.calls[0] == Call("error", Some(map["details" := Str(post.message)]), Some("[SHIPPER ERROR] " + post.message))
    ensures post.Replied? && post.status >= 400 ==>
      s.calls[0].kind == "error" && s.calls[0].payload.Some?
      && s.calls[0].payload.value == map["error_code" := Num(post.status), "details" := Str(post.errorText), "box" := Num(index)]
      && s.calls[0].text == Some("[SHIPPER] \U{274C} Upload Failed Box #" + IntText(index) + ": " + IntText(post.status) + " " + post.errorText)
    ensures post.Replied? && post.status < 400 ==>
      s.calls[0].kind == "asset" && s.calls[0].payload.Some?
      && "asset" in s.calls[0].payload.value
      && s.calls[0].payload.value["asset"] == Str(AssetUrl(provider, post.body))
      && "index" in s.calls[0].payload.value && s.calls[0].payload.value["index"] == Num(index)
      && s.calls[0].payload.value == map["index" := Num(index), "asset" := Str(AssetUrl(provider, post.body)),
                                         "provider" := Str(provider), "size_mb" := Real(sizeMb)]
      && s.calls[0].text == Some("[SHIPPER] \U{2705} Delivered Box #" + IntText(index) + " | " + sizeLabel + "MB")
    ensures s.calls[0].kind == "asset" <==> post.Replied? && post.status < 400
    ensures provider != "assemblyai" && provider != "deepgram" ==> s.calls[0].kind == "error"
  {
    match post
    case Raised(message) =>
      Shipment([Call("error", Some(map["details" := Str(message)]), Some("[SHIPPER ERROR] " + message))], true)
    case Replied(status, errorText, body) =>
      if status >= 400 then
        Shipment([Call("error",
                       Some(map["error_code" := Num(status), "details" := Str(errorText), "box" := Num(index)]),
                       Some("[SHIPPER] \U{274C} Upload Failed Box #" + IntText(index) + ": " + IntText(status) + " " + errorText))],
                 true)
      else
        Shipment([Call("asset",
                       Some(map["index" := Num(index), "asset" := Str(AssetUrl(provider, body)),
                                "provider" := Str(provider), "size_mb" := Real(sizeMb)]),
                       Some("[SHIPPER] \U{2705} Delivered Box #" + IntText(index) + " | " + sizeLabel + "MB"))],
                 true)
  }

  /** `CONFIG.PROVIDER` of api/testfly.py. */
  const PrototypeProvider := "assemblyai"

  /** The reference api/testfly.py prints: `upload_url` for AssemblyAI,
      otherwise `asset_id or asset`; `None` when there is none. */
  function PrototypeRef(provider: string, body: map<string, string>): (r: Option<string>)
    ensures provider == "assemblyai" ==> r == (if "upload_url" in body then Some(body["upload_url"]) else None)
    ensures provider != "assemblyai" ==>
      r == (if Truthy(body, "asset_id") then Some(body["asset_id"])
            else if "asset" in body then Some(body["asset"]) else None)
  {
    if provider == "assemblyai" then (if "upload_url" in body then Some(body["upload_url"]) else None)
    else if Truthy(body, "asset_id") then Some(body["asset_id"])
    else if "asset" in body then Some(body["asset"])
    else None
  }

  /** The outcome of one upload in api/testfly.py: the plain line logged
      and whether the box's buffer was closed. */
  datatype Report = Report(line: string, closed: bool)

  /** `ship_cargo` of api/testfly.py: any provider but AssemblyAI takes the
      Deepgram branch, and each outcome is one plain log line naming the
      box; a delivery ends with the reference the reply gave, `None` when
      it gave none. The buffer is closed on every path. */
  function PrototypeShipCargo(provider: string, index: nat, sizeLabel: string, post: Post): (r: Report)
    ensures r.closed
    ensures post.Replied? && post.status >= 400 ==>
      StartsWith(r.line, "[SHIPPER] \U{274C} Upload Failed Box #" + IntText(index))
      && EndsWith(r.line, ": " + IntText(post.status) + " " + post.errorText)
    ensures post.Replied? && post.status < 400 ==>
      StartsWith(r.line, "[SHIPPER] \U{2705} Delivered Box #" + IntText(index))
      && EndsWith(r.line, "MB | Ref: " + PrototypeRef(provider, post.body).GetOr("None"))
    ensures post.Raised? ==>
      StartsWith(r.line, "[SHIPPER] \U{26A0}\U{FE0F} Error Box #" + IntText(index))
      && EndsWith(r.line, ": " + post.message)
    ensures post.Raised? ==> r.line == "[SHIPPER] \U{26A0}\U{FE0F} Error Box #" + IntText(index) + ": " + post.message
    ensures post.Replied? && post.status >= 400 ==>
      r.line == "[SHIPPER] \U{274C} Upload Failed Box #" + IntText(index) + ": " + IntText(post.status) + " " + post.errorText
    ensures post.Replied? && post.status < 400 ==>
      r.line == "[SHIPPER] \U{2705} Delivered Box #" + IntText(index) + " | " + sizeLabel
                + "MB | Ref: " + PrototypeRef(provider, post.body).GetOr("None")
  {
    match post
    case Raised(message) =>
      var head := "[SHIPPER] \U{26A0}\U{FE0F} Error Box #" + IntText(index);
      var tail := ": " + message;
      assert (head + tail)[|head|..] == tail;
      Report(head + tail, true)
    case Replied(status, errorText, body) =>
      if status >= 400 then
        var head := "[SHIPPER] \U{274C} Upload Failed Box #" + IntText(index);
        var tail := ": " + IntText(status) + " " + errorText;
        assert (head + tail)[|head|..] == tail;
        Report(head + tail, true)
      else
        var head := "[SHIPPER] \U{2705} Delivered Box #" + IntText(index);
        var tail := "MB | Ref: " + PrototypeRef(provider, body).GetOr("None");
        var line := head + " | " + sizeLabel + tail;
        assert line[|head + " | " + sizeLabel|..] == tail;
        assert line[..|head|] == head;
        Report(line, true)
  }

  /** The prototype's target: AssemblyAI for its configured provider,
      Deepgram for anything else. */
  function PrototypeTarget(provider: string, deepgramKey: string, assemblyAiKey: string, mimeType: string): (t: Target)
    ensures t.url == (if provider == "assemblyai" then AssemblyAiUrl else DeepgramUrl)
    ensures provider != "assemblyai" ==> t == UploadTarget("deepgram", deepgramKey, assemblyAiKey, mimeType)
    ensures provider == "assemblyai" ==> t == UploadTarget(provider, deepgramKey, assemblyAiKey, mimeType)
  {
    if provider == "assemblyai" then UploadTarget("assemblyai", deepgramKey, assemblyAiKey, mimeType)
    else UploadTarget("deepgram", deepgramKey, assemblyAiKey, mimeType)
  }

  // ---------------------------------------------------------------------
  // run_shipper
  // ---------------------------------------------------------------------

  /** Where the shipper stops: the first `None`, or the end of what was
      put when there is none (the real shipper would wait there). */
  function FirstEnd(belt: seq<Option<Segmenter.Cargo>>): (n: nat)
    ensures n <= |belt|
    ensures forall k :: 0 <= k < n ==> belt[k].Some?
    ensures n < |belt| ==> belt[n].None?
  {
    if belt == [] || belt[0].None? then 0 else 1 + FirstEnd(belt[1..])
  }

  /** The boxes taken off the conveyor, in order. */
  function Picked(belt: seq<Option<Segmenter.Cargo>>): (boxes: seq<Segmenter.Cargo>)
    ensures |boxes| == FirstEnd(belt)
  {
    seq(FirstEnd(belt), k requires 0 <= k < FirstEnd(belt) => belt[k].value)
  }

  /** The shipper takes exactly the packager's boxes off a belt the
      packager delivered. */
  lemma {:induction false} PickedBelt(boxes: seq<Segmenter.Cargo>)
    ensures FirstEnd(Packager.Belt(boxes)) == |boxes|
    ensures Picked(Packager.Belt(boxes)) == boxes
    decreases |boxes|
  {
    var belt := Packager.Belt(boxes);
    if boxes != [] {
      assert belt[1..] == Packager.Belt(boxes[1..]);
      PickedBelt(boxes[1..]);
    }
  }

  /** Task ids in strictly increasing order. */
  predicate Increasing(ids: seq<nat>) {
    forall a, b :: 0 <= a < b < |ids| ==> ids[a] < ids[b]
  }

  /** A box before the first `None` is the next one picked. */
  lemma PickedNext(belt: seq<Option<Segmenter.Cargo>>, i: nat)
    requires i <= FirstEnd(belt) && i < |belt| && belt[i].Some?
    ensures i < FirstEnd(belt)
    ensures Picked(belt)[..i + 1] == Picked(belt)[..i] + [belt[i].value]
  {
    var n := FirstEnd(belt);
    assert n != i by {
      assert n < |belt| ==> belt[n].None?;
    }
    SliceSnoc(Picked(belt), i);
  }

  lemma SliceSnoc<T>(p: seq<T>, i: nat)
    requires i < |p|
    ensures p[..i + 1] == p[..i] + [p[i]]
  {
  }

  /** `[x for x in active if not x.done()]`: the active tasks not done,
      kept in their order. */
  function Pending(active: seq<nat>, done: set<nat>): (r: seq<nat>)
    ensures |r| <= |active|
    ensures forall t :: t in r <==> t in active && t !in done
    ensures Increasing(active) ==> Increasing(r)
  {
    if active == [] then []
    else
      var p := Pending(active[..|active| - 1], done);
      OrderedSnoc(active, p);
      p + (if active[|active| - 1] in done then [] else [active[|active| - 1]])
  }

  /** Keeping the last of an increasing list after a kept part of the
      rest keeps the order. */
  lemma OrderedSnoc(active: seq<nat>, p: seq<nat>)
    requires active != []
    requires forall t :: t in p ==> t in active[..|active| - 1]
    requires Increasing(active[..|active| - 1]) ==> Increasing(p)
    ensures Increasing(active) ==> Increasing(p) && Increasing(p + [active[|active| - 1]])
  {
    if Increasing(active) {
      var prefix := active[..|active| - 1];
      assert Increasing(prefix);
      forall t | t in p ensures t < active[|active| - 1] {
        var k :| 0 <= k < |prefix| && prefix[k] == t;
      }
      IncreasingSnoc(p, active[|active| - 1]);
    }
  }

  lemma IncreasingSnoc(p: seq<nat>, x: nat)
    requires Increasing(p) && forall t :: t in p ==> t < x
    ensures Increasing(p + [x])
  {
    var q := p + [x];
    forall a, b | 0 <= a < b < |q| ensures q[a] < q[b] {
      assert q[a] == p[a] && p[a] in p;
    }
  }

  /** A task started at the `j`-th pick-up is not yet done when the list
      is filtered right after that pick-up (`create_task` and the `done()`
      filter have no `await` between them), so the set of tasks found done
      then holds only tasks started earlier. */
  ghost predicate Causal(finished: nat -> set<nat>) {
    forall j: nat, t :: t in finished(j) ==> t < j
  }

  /** Task `t` was not found done at any filtering from its own pick-up
      up to, not including, the `n`-th. */
  predicate Unfinished(finished: nat -> set<nat>, t: nat, n: nat) {
    forall j: nat :: t <= j < n ==> t !in finished(j)
  }

  /** The tasks still active after `n` pick-ups: those started and not
      yet found done, in the order they were started. */
  ghost predicate ActiveAfter(finished: nat -> set<nat>, active: seq<nat>, n: nat) {
    && Increasing(active)
    && (forall t: nat :: t in active <==> t < n && Unfinished(finished, t, n))
  }

  /** One more pick-up: the new task joins the list, then the done ones
      are filtered out. */
  lemma PickUpStep(finished: nat -> set<nat>, active: seq<nat>, n: nat)
    requires Causal(finished) && ActiveAfter(finished, active, n)
    ensures ActiveAfter(finished, Pending(active + [n], finished(n)), n + 1)
    ensures n in Pending(active + [n], finished(n))
  {
    var grown := active + [n];
    IncreasingSnoc(active, n);
    var r := Pending(grown, finished(n));
    forall t: nat
      ensures t in r <==> t < n + 1 && Unfinished(finished, t, n + 1)
    {
      if t < n {
        assert Unfinished(finished, t, n + 1) <==> Unfinished(finished, t, n) && t !in finished(n);
      } else if t == n {
        assert n !in finished(n);
        assert Unfinished(finished, t, n + 1);
      }
    }
  }

  /** The shipper's own log, the boxes it started a task for (task `t`
      ships `tasks[t]`), and the tasks it still had to gather. */
  datatype Drain = Drain(calls: seq<Call>, tasks: seq<Segmenter.Cargo>, gathered: seq<nat>)

  /** `run_shipper` of api/engine.py and api/testfly.py (the lines are
      the same; the prototype logs them as plain text). `finished(j)` is
      the set of tasks that are done when the list is filtered after the
      `j`-th pick-up. Exactly one task per box before the first `None`, in
      order; the tasks never found done are gathered, in order, and there
      are some (so the wait line is logged) iff a box was picked up. */
  method RunShipper(provider: string, belt: seq<Option<Segmenter.Cargo>>, finished: nat -> set<nat>)
    returns (d: Drain)
    requires Causal(finished)
    ensures d.tasks == Picked(belt)
    ensures Increasing(d.gathered)
    ensures forall t: nat :: t in d.gathered <==> t < |d.tasks| && Unfinished(finished, t, |d.tasks|)
    ensures d.gathered != [] <==> d.tasks != []
    ensures |d.calls| == 1 + |d.tasks| + (if d.gathered == [] then 0 else 1)
    ensures forall k :: 0 <= k < |d.calls| ==> d.calls[k].kind == "status" && d.calls[k].text.Some?
    ensures d.calls[0] == StatusCall("[SHIPPER] \U{1F69A} Logistics Partner: " + Upper(provider))
    ensures forall k :: 0 <= k < |d.tasks| ==> d.calls[k + 1] == PickUpLine(d.tasks[k])
    ensures d.gathered != [] ==>
      d.calls[|d.calls| - 1] == StatusCall("[SHIPPER] \U{23F3} Waiting for " + IntText(|d.gathered|) + " active shipments...")
  {
    var picks, tasks, active := TakeBoxes(belt, finished);
    var partner := StatusCall("[SHIPPER] \U{1F69A} Logistics Partner: " + Upper(provider));
    var wait := [];
    if active != [] {
      wait := [StatusCall("[SHIPPER] \U{23F3} Waiting for " + IntText(|active|) + " active shipments...")];
    }
    Framed(partner, picks, wait);
    d := Drain([partner] + picks + wait, tasks, active);
  }

  /** Where the middle of `[a] + m + z` sits. */
  lemma Framed<T>(a: T, m: seq<T>, z: seq<T>)
    ensures forall k :: 0 <= k < |m| ==> ([a] + m + z)[k + 1] == m[k]
    ensures forall k :: 0 <= k < |z| ==> ([a] + m + z)[1 + |m| + k] == z[k]
  {
  }

  /** The line logged when a box is taken off the conveyor. */
  function PickUpLine(cargo: Segmenter.Cargo): Call {
    StatusCall("[SHIPPER] \U{1F69A} Picked up Box #" + IntText(cargo.index) + ". Shipping...")
  }

  /** The `while` loop of `run_shipper`: one pick-up line and one task per
      box up to the first `None`, and the tasks still active at the end. */
  method TakeBoxes(belt: seq<Option<Segmenter.Cargo>>, finished: nat -> set<nat>)
    returns (picks: seq<Call>, tasks: seq<Segmenter.Cargo>, active: seq<nat>)
    requires Causal(finished)
    ensures tasks == Picked(belt)
    ensures ActiveAfter(finished, active, |tasks|)
    ensures active != [] <==> tasks != []
    ensures |picks| == |tasks|
    ensures forall k :: 0 <= k < |tasks| ==> picks[k] == PickUpLine(tasks[k])
  {
    picks, tasks, active := [], [], [];
    var i := 0;
    while i < |belt| && belt[i].Some?
      invariant 0 <= i <= FirstEnd(belt)
      invariant tasks == Picked(belt)[..i]
      invariant ActiveAfter(finished, active, i)
      invariant i == 0 ==> active == []
      invariant i > 0 ==> i - 1 in active
      invariant |picks| == |tasks|
      invariant forall k :: 0 <= k < |tasks| ==> picks[k] == PickUpLine(tasks[k])
    {
      PickedNext(belt, i);
      picks, tasks, active := PickUp(picks, tasks, active, belt[i].value, finished);
      i := i + 1;
    }
    assert i == FirstEnd(belt);
  }

  /** One turn of that loop: the box's pick-up line, its task, and the
      active list after the new task joins it and the `done()` filter. */
  method PickUp(picks: seq<Call>, tasks: seq<Segmenter.Cargo>, active: seq<nat>, cargo: Segmenter.Cargo,
                finished: nat -> set<nat>)
    returns (picks': seq<Call>, tasks': seq<Segmenter.Cargo>, active': seq<nat>)
    requires Causal(finished) && ActiveAfter(finished, active, |tasks|)
    ensures picks' == picks + [PickUpLine(cargo)]
    ensures tasks' == tasks + [cargo]
    ensures ActiveAfter(finished, active', |tasks'|) && |tasks| in active'
  {
    picks' := picks + [PickUpLine(cargo)];
    tasks' := tasks + [cargo];
    var n: nat := |tasks|;
    PickUpStep(finished, active, n);
    var grown: seq<nat> := active + [n];
    active' := Pending(grown, finished(n));
  }
}
