/** `miner_log_monitor`: the reader of the extractor's diagnostic stream.
    In api/engine.py and api/fly_engine.py it classifies each stripped
    line as progress (throttled to one line per second), error or status;
    in api/testfly.py it only rewrites the first known tag of each line.
    The stream is given as the lines read, each with the `time.time()` at
    which it was read. */
module MinerLog {
  import opened Text
  import opened Dispatch

  datatype Reading = Reading(line: string, at: real)

  const DownloadTag := "[download]"
  const Pick := "\U{26CF}\U{FE0F}"
  const ErrorPrefix := "[MINER ERROR] "
  const StatusPrefix := "[MINER] "

  /** The monitor's state: the calls made so far, `last_progress_time`,
      and the read times of the progress lines let through. */
  datatype Monitor = Monitor(calls: seq<Call>, last: real, progress: seq<real>)

  const Fresh := Monitor([], 0.0, [])

  /** One line of the classifying loop. */
  function Observe(m: Monitor, r: Reading): Monitor {
    var text := Strip(r.line);
    if text == "" then m
    else if Contains(text, DownloadTag) then
      if r.at - m.last > 1.0 then
        Monitor(m.calls + [StatusCall(Strip(ReplaceAll(text, DownloadTag, Pick)))], r.at, m.progress + [r.at])
      else m
    else if Contains(Lower(text), "error") then
      Monitor(m.calls + [ErrorCall(ErrorPrefix + text)], m.last, m.progress)
    else
      Monitor(m.calls + [StatusCall(StatusPrefix + text)], m.last, m.progress)
  }

  function Observed(rs: seq<Reading>): Monitor {
    if rs == [] then Fresh else Observe(Observed(rs[..|rs| - 1]), rs[|rs| - 1])
  }

  /** The calls of the whole monitor: nothing at all in data mode. */
  function MonitorCalls(mode: string, rs: seq<Reading>): seq<Call> {
    if mode == "data" then [] else Observed(rs).calls
  }

  /** What the monitor keeps true: `last_progress_time` is the read time
      of the last progress line let through (0 before any), each such line
      came more than a second after the previous one, every call is a
      status or an error, and an error never comes from a progress line. */
  predicate Throttled(m: Monitor) {
    && m.last == (if m.progress == [] then 0.0 else m.progress[|m.progress| - 1])
    && (m.progress != [] ==> m.progress[0] > 1.0)
    && (forall k :: 0 < k < |m.progress| ==> m.progress[k] - m.progress[k - 1] > 1.0)
    && (forall k :: 0 <= k < |m.calls| ==> Classified(m.calls[k]))
  }

  /** A status call, or an error call whose text is not a progress line. */
  predicate Classified(c: Call) {
    && c.payload.None? && c.text.Some?
    && (c.kind == "status" || c.kind == "error")
    && (c.kind == "error" ==>
          StartsWith(c.text.value, ErrorPrefix) && !Contains(c.text.value[|ErrorPrefix|..], DownloadTag))
  }

  lemma AddCall(m: Monitor, c: Call)
    requires Throttled(m) && Classified(c)
    ensures Throttled(Monitor(m.calls + [c], m.last, m.progress))
  {
    var calls := m.calls + [c];
    assert forall k :: 0 <= k < |m.calls| ==> calls[k] == m.calls[k];
  }

  /** A progress line let through more than a second after the last one. */
  lemma ProgressKeeps(m: Monitor, c: Call, at: real)
    requires Throttled(m) && Classified(c) && at - m.last > 1.0
    ensures Throttled(Monitor(m.calls + [c], at, m.progress + [at]))
  {
    AddCall(m, c);
    var p := m.progress + [at];
    assert forall k :: 0 <= k < |m.progress| ==> p[k] == m.progress[k];
  }

  /** An error line: its text is not a progress line. */
  lemma ErrorKeeps(m: Monitor, text: string)
    requires Throttled(m) && !Contains(text, DownloadTag)
    ensures Throttled(Monitor(m.calls + [ErrorCall(ErrorPrefix + text)], m.last, m.progress))
  {
    var e := ErrorPrefix + text;
    assert e[|ErrorPrefix|..] == text;
    AddCall(m, ErrorCall(e));
  }

  lemma ObserveKeeps(m: Monitor, r: Reading)
    requires Throttled(m)
    ensures Throttled(Observe(m, r))
    ensures |Observe(m, r).calls| <= |m.calls| + 1
  {
    var text := Strip(r.line);
    if text != "" && Contains(text, DownloadTag) && r.at - m.last > 1.0 {
      ProgressKeeps(m, StatusCall(Strip(ReplaceAll(text, DownloadTag, Pick))), r.at);
    } else if text != "" && !Contains(text, DownloadTag) {
      if Contains(Lower(text), "error") {
        ErrorKeeps(m, text);
      } else {
        AddCall(m, StatusCall(StatusPrefix + text));
      }
    }
  }

  lemma {:induction false} ObservedThrottled(rs: seq<Reading>)
    ensures Throttled(Observed(rs))
    ensures |Observed(rs).calls| <= |rs|
  {
    if rs != [] {
      ObservedThrottled(rs[..|rs| - 1]);
      ObserveKeeps(Observed(rs[..|rs| - 1]), rs[|rs| - 1]);
    }
  }

  /** A progress line goes out iff more than a second has passed since the
      last one that did, and only then does the clock move. */
  lemma ProgressGate(m: Monitor, r: Reading)
    requires Strip(r.line) != "" && Contains(Strip(r.line), DownloadTag)
    ensures r.at - m.last > 1.0 ==>
      Observe(m, r).calls == m.calls + [StatusCall(Strip(ReplaceAll(Strip(r.line), DownloadTag, Pick)))]
      && Observe(m, r).last == r.at
    ensures r.at - m.last <= 1.0 ==> Observe(m, r) == m
  {
  }

  /** The classifying loop of api/engine.py and api/fly_engine.py. A
      `ValueError` from a closed pipe ends the loop like the end of the
      stream; the readings are the lines read before it. */
  method MinerLogMonitor(mode: string, readings: seq<Reading>) returns (calls: seq<Call>)
    ensures calls == MonitorCalls(mode, readings)
    ensures |calls| <= |readings|
  {
    if mode == "data" {
      return [];
    }
    calls := [];
    var last := 0.0;
    ghost var progress: seq<real> := [];
    var i := 0;
    while i < |readings|
      invariant 0 <= i <= |readings|
      invariant Monitor(calls, last, progress) == Observed(readings[..i])
    {
      ObservedPrefix(readings, i);
      calls, last, progress := ObserveLine(calls, last, progress, readings[i]);
      i := i + 1;
    }
    assert readings[..i] == readings;
    ObservedThrottled(readings);
  }

  /** One more reading is observed after the earlier ones. */
  lemma ObservedPrefix(rs: seq<Reading>, i: nat)
    requires i < |rs|
    ensures Observed(rs[..i + 1]) == Observe(Observed(rs[..i]), rs[i])
  {
    assert rs[..i + 1][..i] == rs[..i];
  }

  /** The body of the classifying loop for one line read at `r.at`. */
  method ObserveLine(calls0: seq<Call>, last0: real, ghost progress0: seq<real>, r: Reading)
    returns (calls: seq<Call>, last: real, ghost progress: seq<real>)
    ensures Monitor(calls, last, progress) == Observe(Monitor(calls0, last0, progress0), r)
  {
    calls, last, progress := calls0, last0, progress0;
    var text := Strip(r.line);
    if text != "" {
      if Contains(text, DownloadTag) {
        var now := r.at;
        if now - last > 1.0 {
          var cleanText := Strip(ReplaceAll(text, DownloadTag, Pick));
          calls := calls + [StatusCall(cleanText)];
          last := now;
          progress := progress + [now];
        }
      } else if Contains(Lower(text), "error") {
        calls := calls + [ErrorCall(ErrorPrefix + text)];
      } else {
        calls := calls + [StatusCall(StatusPrefix + text)];
      }
    }
  }

  // ---------------------------------------------------------------------
  // api/testfly.py
  // ---------------------------------------------------------------------

  const YoutubeTag := "[youtube]"
  const InfoTag := "[info]"
  const DownloadMark := StatusPrefix + (Pick + " ")
  const YoutubeMark := StatusPrefix + "\U{1F50E} "
  const InfoMark := StatusPrefix + "\U{2139}\U{FE0F} "

  /** Only the first tag found among `[download]`, `[youtube]` and `[info]`
      is rewritten, every occurrence of it. */
  function Retag(text: string): string {
    if Contains(text, DownloadTag) then ReplaceAll(text, DownloadTag, DownloadMark)
    else if Contains(text, YoutubeTag) then ReplaceAll(text, YoutubeTag, YoutubeMark)
    else if Contains(text, InfoTag) then ReplaceAll(text, InfoTag, InfoMark)
    else text
  }

  lemma ContainsPrefix(s: string, a: string, b: string)
    requires Contains(s, a + b)
    ensures Contains(s, a)
  {
    ContainsOccurs(s, a + b);
    var i :| OccursAt(s, a + b, i);
    assert s[i..i + |a|] == (a + b)[..|a|];
    assert OccursAt(s, a, i);
    ContainsOccurs(s, a);
  }

  /** Only the first tag present is rewritten: no occurrence of it is
      left, its mark appears, and any later tag in the list stays as it
      was. A tagged line comes out marked as the extractor's, an untagged
      one unchanged. */
  lemma RetagMarks(text: string)
    ensures Contains(text, DownloadTag) ==>
      && !Contains(Retag(text), DownloadTag) && Contains(Retag(text), DownloadMark)
      && (Contains(text, YoutubeTag) ==> Contains(Retag(text), YoutubeTag))
      && (Contains(text, InfoTag) ==> Contains(Retag(text), InfoTag))
    ensures !Contains(text, DownloadTag) && Contains(text, YoutubeTag) ==>
      && !Contains(Retag(text), YoutubeTag) && Contains(Retag(text), YoutubeMark)
      && (Contains(text, InfoTag) ==> Contains(Retag(text), InfoTag))
    ensures !Contains(text, DownloadTag) && !Contains(text, YoutubeTag) && Contains(text, InfoTag) ==>
      !Contains(Retag(text), InfoTag) && Contains(Retag(text), InfoMark)
    ensures Contains(text, DownloadTag) || Contains(text, YoutubeTag) || Contains(text, InfoTag) ==>
      Contains(Retag(text), StatusPrefix)
    ensures !Contains(text, DownloadTag) && !Contains(text, YoutubeTag) && !Contains(text, InfoTag) ==>
      Retag(text) == text
  {
    if Contains(text, DownloadTag) {
      ReplacePresent(text, DownloadTag, DownloadMark);
      ReplaceRemoves(text, DownloadTag, DownloadMark);
      if Contains(text, YoutubeTag) {
        ReplaceKeeps(text, DownloadTag, DownloadMark, YoutubeTag);
      }
      if Contains(text, InfoTag) {
        ReplaceKeeps(text, DownloadTag, DownloadMark, InfoTag);
      }
      ContainsPrefix(Retag(text), StatusPrefix, Pick + " ");
    } else if Contains(text, YoutubeTag) {
      ReplacePresent(text, YoutubeTag, YoutubeMark);
      ReplaceRemoves(text, YoutubeTag, YoutubeMark);
      if Contains(text, InfoTag) {
        ReplaceKeeps(text, YoutubeTag, YoutubeMark, InfoTag);
      }
      ContainsPrefix(Retag(text), StatusPrefix, "\U{1F50E} ");
    } else if Contains(text, InfoTag) {
      ReplacePresent(text, InfoTag, InfoMark);
      ReplaceRemoves(text, InfoTag, InfoMark);
      ContainsPrefix(Retag(text), StatusPrefix, "\U{2139}\U{FE0F} ");
    }
  }

  /** The lines the prototype monitor logs: one per line read, blank ones
      included, never throttled. */
  function Relayed(lines: seq<string>): (out: seq<string>)
    ensures |out| == |lines|
  {
    if lines == [] then [] else Relayed(lines[..|lines| - 1]) + [Relay(lines[|lines| - 1])]
  }

  /** What the prototype monitor logs for one line read. */
  function Relay(line: string): string {
    Strip(Retag(line))
  }

  /** The loop of `miner_log_monitor` in api/testfly.py: one logged line
      per line read, in order. */
  method PrototypeMonitor(lines: seq<string>) returns (out: seq<string>)
    ensures |out| == |lines|
    ensures out == Relayed(lines)
  {
    out := [];
    var i := 0;
    while i < |lines|
      invariant 0 <= i <= |lines|
      invariant out == Relayed(lines[..i])
    {
      var text := RelayLine(lines[i]);
      RelayedPrefix(lines, i);
      out := out + [text];
      i := i + 1;
    }
    assert lines[..i] == lines;
  }

  /** One more line read adds its relayed line at the end. */
  lemma RelayedPrefix(lines: seq<string>, i: nat)
    requires i < |lines|
    ensures Relayed(lines[..i + 1]) == Relayed(lines[..i]) + [Relay(lines[i])]
  {
    assert lines[..i + 1][..i] == lines[..i];
  }

  /** The `k`th logged line is the `k`th line read, relayed. */
  lemma {:induction false} RelayedAt(lines: seq<string>, k: nat)
    requires k < |lines|
    ensures Relayed(lines)[k] == Relay(lines[k])
    decreases |lines|
  {
    if k < |lines| - 1 {
      RelayedAt(lines[..|lines| - 1], k);
    }
  }

  /** The body of that loop for one line read. */
  method RelayLine(line: string) returns (logged: string)
    ensures logged == Relay(line)
  {
    var text := line;
    if Contains(text, DownloadTag) {
      text := ReplaceAll(text, DownloadTag, DownloadMark);
    } else if Contains(text, YoutubeTag) {
      text := ReplaceAll(text, YoutubeTag, YoutubeMark);
    } else if Contains(text, InfoTag) {
      text := ReplaceAll(text, InfoTag, InfoMark);
    }
    logged := Strip(text);
  }
}
