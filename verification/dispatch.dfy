/** `log_dispatch` (api/core.py, api/fly_structs.py): the one place where
    the pipeline turns an event into output lines for the job's log queue.
    In `data` mode only machine-readable records go out; in any other mode
    a text line comes first and a record follows for the record kinds or
    a non-empty payload. JSON text is kept as the record it would
    serialise; the trailing newline of each queued line is left implicit. */
module Dispatch {
  import opened Wrappers
  import Text

  /** A JSON value in a payload, kept abstract. */
  datatype Value = Str(s: string) | Num(n: int) | Real(r: real)

  type Payload = map<string, Value>

  /** The event kinds that always produce a record. */
  const RecordKinds: set<string> := {"asset", "error", "keepalive"}

  /** One line put on the log queue: plain text, or the record
      `{"type", "timestamp", "payload"}` that `json.dumps` renders. */
  datatype Line = Plain(text: string) | Record(kind: string, timestamp: real, payload: Payload)

  /** One call of `log_dispatch` by a component: kind, caller payload
      (`None` for the default) and text (`None` for the default). */
  datatype Call = Call(kind: string, payload: Option<Payload>, text: Option<string>)

  function StatusCall(text: string): Call {
    Call("status", None, Some(text))
  }

  function ErrorCall(text: string): Call {
    Call("error", None, Some(text))
  }

  /** `if text`: given and non-empty. */
  predicate Given(text: Option<string>) {
    text.Some? && text.value != ""
  }

  /** The record's payload: the caller's entries, plus `message` set to the
      text when the text is given and the caller did not set one. */
  function RecordPayload(payload: Option<Payload>, text: Option<string>): (p: Payload)
    ensures payload.Some? ==> forall key :: key in payload.value ==> key in p && p[key] == payload.value[key]
    ensures forall key :: key in p && key != "message" ==> payload.Some? && key in payload.value
    ensures "message" in p <==> (payload.Some? && "message" in payload.value) || Given(text)
    ensures Given(text) && !(payload.Some? && "message" in payload.value) ==> p["message"] == Str(text.value)
  {
    var base := if payload.Some? then payload.value else map[];
    if Given(text) && "message" !in base then base["message" := Str(text.value)] else base
  }

  /** What one call puts on the queue (`queued` is the truthiness of the
      queue argument, `now` the call's `time.time()`). */
  function Emitted(queued: bool, mode: string, c: Call, now: real): (lines: seq<Line>)
    // no queue, no output
    ensures !queued ==> lines == []
    // data mode: one record for the record kinds, nothing else
    ensures queued && mode == "data" ==>
      lines == (if c.kind in RecordKinds then [Record(c.kind, now, RecordPayload(c.payload, c.text))] else [])
    // debug mode: at most a text line then a record
    ensures |lines| <= 2
    ensures forall k :: 0 <= k < |lines| && lines[k].Record? ==>
      k == |lines| - 1 && lines[k] == Record(c.kind, now, RecordPayload(c.payload, c.text))
    ensures mode != "data" ==>
      ((|lines| > 0 && lines[0].Plain?) <==> queued && Given(c.text))
    ensures mode != "data" ==>
      ((|lines| > 0 && lines[|lines| - 1].Record?) <==>
        queued && (c.kind in RecordKinds || (c.payload.Some? && c.payload.value != map[])))
    ensures forall k :: 0 <= k < |lines| && lines[k].Plain? ==>
      k == 0 && lines[k].text == "[" + Text.Upper(c.kind) + "] " + c.text.value
  {
    if !queued then []
    else
      var record := Record(c.kind, now, RecordPayload(c.payload, c.text));
      if mode == "data" then
        if c.kind in RecordKinds then [record] else []
      else
        (if Given(c.text) then [Plain("[" + Text.Upper(c.kind) + "] " + c.text.value)] else [])
        + (if c.kind in RecordKinds || (c.payload.Some? && c.payload.value != map[]) then [record] else [])
  }

  /** A heartbeat (kind `keepalive`, no text, no payload) is one record in
      every mode, and a status line is nothing in data mode. */
  lemma KeepaliveAndStatus(mode: string, text: string, now: real)
    ensures Emitted(true, mode, Call("keepalive", None, None), now) == [Record("keepalive", now, map[])]
    ensures Emitted(true, "data", StatusCall(text), now) == []
    ensures text != "" && mode != "data" ==>
      Emitted(true, mode, StatusCall(text), now) == [Plain("[STATUS] " + text)]
  {
    var u := Text.Upper("status");
    forall k | 0 <= k < 6 ensures u[k] == "STATUS"[k] {
      assert u[k] == Text.UpperChar("status"[k]);
    }
    assert u == "STATUS";
    assert "status" !in RecordKinds;
    assert "[" + u + "] " + text == "[STATUS] " + text;
  }

  /** The lines of each call of a run, call by call. */
  function PerCall(queued: bool, mode: string, calls: seq<Call>, now: seq<real>): (parts: seq<seq<Line>>)
    requires |now| == |calls|
    ensures |parts| == |calls|
    ensures forall k :: 0 <= k < |calls| ==> parts[k] == Emitted(queued, mode, calls[k], now[k])
  {
    if calls == [] then []
    else
      var n := |calls|;
      var init := PerCall(queued, mode, calls[..n - 1], now[..n - 1]);
      assert forall k :: 0 <= k < n - 1 ==> calls[..n - 1][k] == calls[k] && now[..n - 1][k] == now[k];
      init + [Emitted(queued, mode, calls[n - 1], now[n - 1])]
  }

  /** The parts one after the other. */
  function Flatten<T>(parts: seq<seq<T>>): seq<T> {
    if parts == [] then [] else Flatten(parts[..|parts| - 1]) + parts[|parts| - 1]
  }

  lemma {:induction false} FlattenAtMostTwo<T>(parts: seq<seq<T>>)
    requires forall k :: 0 <= k < |parts| ==> |parts[k]| <= 2
    ensures |Flatten(parts)| <= 2 * |parts|
  {
    if parts != [] {
      FlattenAtMostTwo(parts[..|parts| - 1]);
    }
  }

  lemma {:induction false} FlattenEmpty<T>(parts: seq<seq<T>>)
    ensures (forall k :: 0 <= k < |parts| ==> parts[k] == []) ==> Flatten(parts) == []
  {
    if parts != [] {
      FlattenEmpty(parts[..|parts| - 1]);
    }
  }

  /** Parts that are empty outside `[h, h + m)` and single lines inside
      it flatten to exactly those `m` lines. */
  lemma {:induction false} FlattenFramed<T>(parts: seq<seq<T>>, h: nat, m: nat)
    requires h + m <= |parts|
    requires forall k :: 0 <= k < |parts| && !(h <= k < h + m) ==> parts[k] == []
    requires forall k :: h <= k < h + m ==> |parts[k]| == 1
    ensures |Flatten(parts)| == m
    ensures forall k :: 0 <= k < m ==> Flatten(parts)[k] == parts[h + k][0]
  {
    if m == 0 {
      FlattenEmpty(parts);
    } else if h + m < |parts| {
      FlattenFramed(parts[..|parts| - 1], h, m);
    } else {
      var init := parts[..|parts| - 1];
      FlattenFramed(init, h, m - 1);
      assert Flatten(parts) == Flatten(init) + parts[h + m - 1];
    }
  }

  /** The lines of several calls in order. */
  function EmittedAll(queued: bool, mode: string, calls: seq<Call>, now: seq<real>): (lines: seq<Line>)
    requires |now| == |calls|
    ensures |lines| <= 2 * |calls|
    ensures !queued ==> lines == []
  {
    var parts := PerCall(queued, mode, calls, now);
    FlattenAtMostTwo(parts);
    FlattenEmpty(parts);
    Flatten(parts)
  }

  /** In data mode, record-kind calls framed by calls of other kinds put
      exactly one line each on the queue. */
  lemma DataModeFramed(head: seq<Call>, middle: seq<Call>, tail: seq<Call>, now: seq<real>)
    requires |now| == |head| + |middle| + |tail|
    requires forall k :: 0 <= k < |head| ==> head[k].kind !in RecordKinds
    requires forall k :: 0 <= k < |middle| ==> middle[k].kind in RecordKinds
    requires forall k :: 0 <= k < |tail| ==> tail[k].kind !in RecordKinds
    ensures |EmittedAll(true, "data", head + middle + tail, now)| == |middle|
  {
    DataModeParts(head, middle, tail, now);
    FlattenFramed(PerCall(true, "data", head + middle + tail, now), |head|, |middle|);
  }

  /** ... and the `k`-th of them is the line of the `k`-th call of the
      middle. */
  lemma DataModeFramedAt(head: seq<Call>, middle: seq<Call>, tail: seq<Call>, now: seq<real>, k: nat)
    requires |now| == |head| + |middle| + |tail|
    requires forall k :: 0 <= k < |head| ==> head[k].kind !in RecordKinds
    requires forall k :: 0 <= k < |middle| ==> middle[k].kind in RecordKinds
    requires forall k :: 0 <= k < |tail| ==> tail[k].kind !in RecordKinds
    requires k < |middle|
    ensures k < |EmittedAll(true, "data", head + middle + tail, now)|
    ensures [EmittedAll(true, "data", head + middle + tail, now)[k]] == Emitted(true, "data", middle[k], now[|head| + k])
  {
    DataModeParts(head, middle, tail, now);
    FlattenFramed(PerCall(true, "data", head + middle + tail, now), |head|, |middle|);
  }

  lemma DataModeParts(head: seq<Call>, middle: seq<Call>, tail: seq<Call>, now: seq<real>)
    requires |now| == |head| + |middle| + |tail|
    requires forall k :: 0 <= k < |head| ==> head[k].kind !in RecordKinds
    requires forall k :: 0 <= k < |middle| ==> middle[k].kind in RecordKinds
    requires forall k :: 0 <= k < |tail| ==> tail[k].kind !in RecordKinds
    ensures var parts := PerCall(true, "data", head + middle + tail, now);
      && (forall k :: 0 <= k < |parts| && !(|head| <= k < |head| + |middle|) ==> parts[k] == [])
      && (forall k :: |head| <= k < |head| + |middle| ==>
            |parts[k]| == 1 && parts[k] == Emitted(true, "data", middle[k - |head|], now[k]))
  {
    DataModeQuiet(head, middle, tail, now);
    DataModeLoud(head, middle, tail, now);
  }

  /** In data mode a call of a record kind is one record of that kind. */
  lemma DataModeOne(c: Call, now: real)
    requires c.kind in RecordKinds
    ensures |Emitted(true, "data", c, now)| == 1
    ensures Emitted(true, "data", c, now)[0].Record? && Emitted(true, "data", c, now)[0].kind == c.kind
  {
  }

  /** The calls around the middle put nothing on the queue in data mode. */
  lemma DataModeQuiet(head: seq<Call>, middle: seq<Call>, tail: seq<Call>, now: seq<real>)
    requires |now| == |head| + |middle| + |tail|
    requires forall k :: 0 <= k < |head| ==> head[k].kind !in RecordKinds
    requires forall k :: 0 <= k < |tail| ==> tail[k].kind !in RecordKinds
    ensures forall k :: 0 <= k < |now| && !(|head| <= k < |head| + |middle|) ==>
      PerCall(true, "data", head + middle + tail, now)[k] == []
  {
    var calls := head + middle + tail;
    forall k | 0 <= k < |now| && !(|head| <= k < |head| + |middle|)
      ensures PerCall(true, "data", calls, now)[k] == []
    {
      if k < |head| {
        assert calls[k] == head[k];
      } else {
        assert calls[k] == tail[k - |head| - |middle|];
      }
    }
  }

  /** Each call of the middle puts exactly one line in data mode. */
  lemma DataModeLoud(head: seq<Call>, middle: seq<Call>, tail: seq<Call>, now: seq<real>)
    requires |now| == |head| + |middle| + |tail|
    requires forall k :: 0 <= k < |middle| ==> middle[k].kind in RecordKinds
    ensures forall k :: |head| <= k < |head| + |middle| ==>
      && PerCall(true, "data", head + middle + tail, now)[k] == Emitted(true, "data", middle[k - |head|], now[k])
      && |PerCall(true, "data", head + middle + tail, now)[k]| == 1
  {
    var calls := head + middle + tail;
    forall k | |head| <= k < |head| + |middle|
      ensures PerCall(true, "data", calls, now)[k] == Emitted(true, "data", middle[k - |head|], now[k])
      ensures |PerCall(true, "data", calls, now)[k]| == 1
    {
      assert calls[k] == middle[k - |head|];
    }
  }

  /** An asyncio queue of log lines; `None` ends the stream. */
  class LogQueue {
    var items: seq<Option<Line>>

    constructor ()
      ensures items == []
    {
      items := [];
    }

    /** `put_nowait`. */
    method Put(item: Option<Line>)
      modifies this
      ensures items == old(items) + [item]
    {
      items := items + [item];
    }
  }

  /** A caller's payload dictionary, which `log_dispatch` may update. */
  class PayloadDict {
    var entries: Payload

    constructor (entries: Payload)
      ensures this.entries == entries
    {
      this.entries := entries;
    }
  }

  /** What `put_nowait` leaves on a queue for each item put, in order. */
  function Queued<T>(lines: seq<T>): (items: seq<Option<T>>)
    ensures |items| == |lines|
    ensures forall k :: 0 <= k < |lines| ==> items[k] == Some(lines[k])
  {
    seq(|lines|, k requires 0 <= k < |lines| => Some(lines[k]))
  }

  /** `log_dispatch` itself. A non-empty caller dictionary is the record's
      payload, so the message goes into the caller's own dictionary; an
      empty or missing one is replaced by a fresh dictionary and left as
      it was. */
  method LogDispatch(q: LogQueue?, mode: string, kind: string, payload: PayloadDict?, text: Option<string>, now: real)
    modifies q, payload
    ensures q != null ==>
      q.items == old(q.items) + Queued(Emitted(true, mode, Call(kind, if payload == null then None else Some(old(payload.entries)), text), now))
    ensures payload != null ==>
      payload.entries == (if q != null && old(payload.entries) != map[]
                          then RecordPayload(Some(old(payload.entries)), text)
                          else old(payload.entries))
  {
    if q == null {
      return;
    }
    var given: Payload := if payload == null then map[] else payload.entries;
    var c := Call(kind, if payload == null then None else Some(given), text);
    var packetPayload: Payload := given;
    if Given(text) && "message" !in packetPayload {
      packetPayload := packetPayload["message" := Str(text.value)];
      if payload != null && given != map[] {
        payload.entries := packetPayload;
      }
    }
    var record := Record(kind, now, packetPayload);
    if mode == "data" {
      if kind in RecordKinds {
        q.Put(Some(record));
      }
      return;
    }
    if Given(text) {
      q.Put(Some(Plain("[" + Text.Upper(kind) + "] " + text.value)));
    }
    if kind in RecordKinds || given != map[] {
      q.Put(Some(record));
    }
  }
}
