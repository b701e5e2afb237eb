/** One run picked out of a replayed event stream: the collector keeps the last result the
    run's top-level agent supplied, and stops at the run's end. */
module Collector {
  import opened Options
  import opened Sse

  datatype Json = Null | Bool(flag: bool) | Num(number: real) | Str(text: string) | Arr(items: seq<Json>)
                | Obj(fields: map<string, Json>)

  function At(source: Json, key: string): Json {
    if source.Obj? && key in source.fields then source.fields[key] else Null
  }

  function StringAt(source: Json, key: string): Option<string> {
    var v := At(source, key);
    if v.Str? then Some(v.text) else None
  }

  /** `stringArrayAt(…) ?? []` is empty: the value is no array, or not of strings, or has none. */
  predicate NoStringsAt(source: Json, key: string) {
    var v := At(source, key);
    !v.Arr? || v.items == [] || exists i | 0 <= i < |v.items| :: !v.items[i].Str?
  }

  datatype CliResult = CliResult(stdout: string, exitCode: int, asBefore: bool)

  datatype Status = Completed | Failed | Interrupted | Closed

  datatype Outcome = Outcome(status: Status, error: Option<string>, result: Option<CliResult>)

  predicate RetryableStatus(status: real) {
    status >= 500.0 || status == 408.0 || status == 429.0
  }

  function ParseCliResult(input: Json): Option<CliResult> {
    var stdout, code := StringAt(input, "stdout"), At(input, "exit_code");
    if stdout.None? || !code.Num? then None
    else if code.number.Floor as real != code.number || code.number < 0.0 || code.number > 255.0 then None
    else
      var flag := At(input, "unchanged");
      Some(CliResult(stdout.value, code.number.Floor, flag == Bool(true)))
  }

  // ---- Results reported one after another ----

  function LaterResult(previous: Option<CliResult>, next: Option<CliResult>): Option<CliResult> {
    if next.None? then previous
    else if next.value.asBefore && previous.Some? then previous else next
  }

  function Fold(start: Option<CliResult>, calls: seq<Option<CliResult>>): Option<CliResult>
    decreases |calls|
  {
    if calls == [] then start else Fold(LaterResult(start, calls[0]), calls[1..])
  }

  lemma LaterResultIsMonoid(a: Option<CliResult>, b: Option<CliResult>, c: Option<CliResult>)
    ensures LaterResult(LaterResult(a, b), c) == LaterResult(a, LaterResult(b, c))
    ensures LaterResult(None, a) == a == LaterResult(a, None)
  {
  }

  lemma {:induction false} FoldFromStart(start: Option<CliResult>, calls: seq<Option<CliResult>>)
    ensures Fold(start, calls) == LaterResult(start, Fold(None, calls))
    decreases |calls|
  {
    if calls != [] {
      FoldFromStart(LaterResult(start, calls[0]), calls[1..]);
      FoldFromStart(LaterResult(None, calls[0]), calls[1..]);
      LaterResultIsMonoid(start, calls[0], Fold(None, calls[1..]));
      LaterResultIsMonoid(calls[0], None, None);
    }
  }

  lemma {:induction false} FoldConcat(start: Option<CliResult>, a: seq<Option<CliResult>>, b: seq<Option<CliResult>>)
    ensures Fold(start, a + b) == Fold(Fold(start, a), b)
    decreases |a|
  {
    if a == [] {
      assert a + b == b;
    } else {
      assert (a + b)[1..] == a[1..] + b;
      FoldConcat(LaterResult(start, a[0]), a[1..], b);
    }
  }

  /** What the fold comes to: the last result that says something new. */
  lemma {:induction false} FoldMeansLastNews(calls: seq<Option<CliResult>>, k: nat)
    requires k < |calls| && calls[k].Some? && !calls[k].value.asBefore
    requires forall j | k < j < |calls| :: calls[j].Some? ==> calls[j].value.asBefore
    ensures Fold(None, calls) == calls[k]
  {
    var before, after := calls[..k + 1], calls[k + 1..];
    assert calls == before + after && before == calls[..k] + [calls[k]];
    FoldConcat(None, before, after);
    FoldConcat(None, calls[..k], [calls[k]]);
    assert Fold(Fold(None, calls[..k]), [calls[k]]) == LaterResult(Fold(None, calls[..k]), calls[k]);
    FoldOfUnchanged(calls[k], after);
  }

  /** When no result says anything new, the fold is the first one there is. */
  lemma FoldMeansFirstWithoutNews(calls: seq<Option<CliResult>>, k: nat)
    requires k < |calls| && calls[k].Some? && forall j | 0 <= j < k :: calls[j].None?
    requires forall j | 0 <= j < |calls| :: calls[j].Some? ==> calls[j].value.asBefore
    ensures Fold(None, calls) == calls[k]
  {
    var before, after := calls[..k], calls[k..];
    assert calls == before + after;
    FoldConcat(None, before, after);
    FoldOfNothing(before);
    assert Fold(None, after) == Fold(calls[k], after[1..]);
    FoldOfUnchanged(calls[k], after[1..]);
  }

  lemma {:induction false} FoldOfNothing(calls: seq<Option<CliResult>>)
    requires forall j | 0 <= j < |calls| :: calls[j].None?
    ensures Fold(None, calls) == None
    decreases |calls|
  {
    if calls != [] {
      FoldOfNothing(calls[1..]);
    }
  }

  lemma {:induction false} FoldOfUnchanged(start: Option<CliResult>, calls: seq<Option<CliResult>>)
    requires start.Some? && forall j | 0 <= j < |calls| :: calls[j].Some? ==> calls[j].value.asBefore
    ensures Fold(start, calls) == start
    decreases |calls|
  {
    if calls != [] {
      FoldOfUnchanged(start, calls[1..]);
    }
  }

  // ---- Lifecycle events ----

  /** The run id in `synth:<run>:lc|…`, read with JavaScript's `split(":", 3)`. */
  function LifecycleRunId(eventId: Option<string>): Option<string> {
    if eventId.None? then None
    else
      var id := eventId.value;
      var a := IndexOf(id, ':');
      if a == |id| then None
      else
        var rest := id[a + 1..];
        var b := IndexOf(rest, ':');
        if b == |rest| then None
        else
          var last := rest[b + 1..];
          var kind := last[..IndexOf(last, ':')];
          if id[..a] == "synth" && rest[..b] != "" && "lc|" <= kind then Some(rest[..b]) else None
  }

  lemma PrefixBeforeColon(last: string)
    ensures "lc|" <= last[..IndexOf(last, ':')] <==> "lc|" <= last
  {
    var k := IndexOf(last, ':');
    if "lc|" <= last {
      assert last[0] == 'l' && last[1] == 'c' && last[2] == '|';
    }
  }

  lemma ColonSplits(before: string, after: string)
    requires ':' !in before
    ensures var all := before + ":" + after;
            IndexOf(all, ':') == |before| && all[..|before|] == before && all[|before| + 1..] == after
  {
    var all := before + ":" + after;
    assert forall j | 0 <= j < |before| :: all[j] == before[j] && before[j] in before;
    IndexIsFirst(all, ':', |before|);
  }

  lemma ShapeRegrouped(run: string, rest: string)
    ensures "synth:" + run + ":lc|" + rest == "synth" + ":" + (run + ":" + ("lc|" + rest))
  {
  }

  lemma RejoinAtColon(s: string)
    ensures var k := IndexOf(s, ':');
            k < |s| ==> s == s[..k] + ":" + s[k + 1..] && ':' !in s[..k]
  {
  }

  /** An event id of the synthesised shape names its run. */
  lemma LifecycleRunIdReadsItsShape(run: string, rest: string)
    requires run != "" && ':' !in run
    ensures LifecycleRunId(Some("synth:" + run + ":lc|" + rest)) == Some(run)
  {
    ShapeRegrouped(run, rest);
    ColonSplits("synth", run + ":" + ("lc|" + rest));
    ColonSplits(run, "lc|" + rest);
    PrefixBeforeColon("lc|" + rest);
  }

  /** No other event id names a run. */
  lemma NamedRunHasTheShape(id: string) returns (rest: string)
    requires LifecycleRunId(Some(id)).Some?
    ensures var run := LifecycleRunId(Some(id)).value;
            run != "" && ':' !in run && id == "synth:" + run + ":lc|" + rest
  {
    var tail := id[IndexOf(id, ':') + 1..];
    var last := tail[IndexOf(tail, ':') + 1..];
    RejoinAtColon(id);
    RejoinAtColon(tail);
    PrefixBeforeColon(last);
    rest := last[3..];
    assert last == last[..3] + rest && last[..3] == "lc|";
    ShapeRegrouped(tail[..IndexOf(tail, ':')], rest);
  }

  // ---- The collector ----

  type Decoder = string -> Json

  datatype Collected = Collected(open: bool, result: Option<CliResult>)

  function Initial(runId: Option<string>): Collected {
    Collected(runId.None?, None)
  }

  function Finish(c: Collected, status: Status, error: Option<string>): Outcome {
    Outcome(status, error, c.result)
  }

  function ErrorOutcome(c: Collected, payload: Json, data: string): Outcome {
    var detail := StringAt(payload, "detail");
    var status := At(payload, "status");
    Finish(c, if status.Num? && RetryableStatus(status.number) then Closed else Failed,
           if detail.Some? then detail else Some(data))
  }

  /** The event of a top-level payload: its method, its phase and its data. */
  datatype Event = Event(name: string, phase: string, data: Json, eventId: Option<string>)

  function TopLevelEvent(payload: Json): Option<Event> {
    var name := StringAt(payload, "method");
    var params := At(payload, "params");
    var data := At(params, "data");
    if name.None? || !data.Obj? || !NoStringsAt(params, "namespace") || StringAt(data, "event").None? then None
    else Some(Event(name.value, StringAt(data, "event").value, data, StringAt(payload, "event_id")))
  }

  predicate Mine(runId: Option<string>, e: Event) {
    runId.None? || LifecycleRunId(e.eventId).None? || LifecycleRunId(e.eventId) == runId
  }

  predicate Terminal(phase: string) {
    phase in {"completed", "failed", "interrupted"}
  }

  function StatusOf(phase: string): Status {
    if phase == "completed" then Completed else if phase == "failed" then Failed else Interrupted
  }

  predicate ReportsResult(e: Event) {
    e.name == "tools" && e.phase == "tool-started" && StringAt(e.data, "tool_name") == Some("cli_result")
  }

  function HandleEvent(runId: Option<string>, c: Collected, e: Event): (Collected, Option<Outcome>) {
    if e.name == "lifecycle" then
      if e.phase == "running" then (c.(open := c.open || Mine(runId, e)), None)
      else if !c.open || !Mine(runId, e) || !Terminal(e.phase) then (c, None)
      else (c, Some(Finish(c, StatusOf(e.phase), StringAt(e.data, "error"))))
    else if c.open && ReportsResult(e) then
      (c.(result := LaterResult(c.result, ParseCliResult(At(e.data, "input")))), None)
    else (c, None)
  }

  function Handle(decode: Decoder, runId: Option<string>, c: Collected, f: Frame): (Collected, Option<Outcome>) {
    var payload := decode(f.data);
    if f.event == Some("error") then (c, Some(ErrorOutcome(c, payload, f.data)))
    else
      var e := TopLevelEvent(payload);
      if e.None? then (c, None) else HandleEvent(runId, c, e.value)
  }

  /** Frames in order, up to the first that decides the outcome. */
  function HandleAll(decode: Decoder, runId: Option<string>, c: Collected, frames: seq<Frame>)
    : (Collected, Option<Outcome>)
    decreases |frames|
  {
    if frames == [] then (c, None)
    else
      var (next, outcome) := Handle(decode, runId, c, frames[0]);
      if outcome.Some? then (next, outcome) else HandleAll(decode, runId, next, frames[1..])
  }

  class RunCollector {
    const runId: Option<string>
    const decode: Decoder
    var open: bool
    var result: Option<CliResult>

    ghost function Current(): Collected
      reads this
    {
      Collected(open, result)
    }

    constructor (decode: Decoder, runId: Option<string>)
      ensures this.decode == decode && this.runId == runId && Current() == Initial(runId)
    {
      this.decode, this.runId := decode, runId;
      open, result := runId.None?, None;
    }

    method HandleFrame(f: Frame) returns (outcome: Option<Outcome>)
      modifies this
      ensures (Current(), outcome) == Handle(decode, runId, old(Current()), f)
      ensures f.event == Some("error") ==>
                && Current() == old(Current()) && outcome.Some? && outcome.value.result == result
                && outcome.value.status == if TransientError(decode(f.data)) then Closed else Failed
    {
      var payload := decode(f.data);
      if f.event == Some("error") {
        return Some(ErrorOutcome(Collected(open, result), payload, f.data));
      }
      var event := TopLevelEvent(payload);
      if event.None? {
        return None;
      }
      var e := event.value;
      if e.name == "lifecycle" {
        outcome := Lifecycle(e);
        return;
      }
      if open && ReportsResult(e) {
        result := LaterResult(result, ParseCliResult(At(e.data, "input")));
      }
      outcome := None;
    }

    method Lifecycle(e: Event) returns (outcome: Option<Outcome>)
      requires e.name == "lifecycle"
      modifies this`open
      ensures (Current(), outcome) == HandleEvent(runId, old(Current()), e)
    {
      var mine := Mine(runId, e);
      if e.phase == "running" {
        if mine {
          open := true;
        }
        return None;
      }
      if !open || !mine || !Terminal(e.phase) {
        return None;
      }
      outcome := Some(Finish(Collected(open, result), StatusOf(e.phase), StringAt(e.data, "error")));
    }
  }

  lemma {:induction false} HandleConcat(
    decode: Decoder, runId: Option<string>, c: Collected, a: seq<Frame>, b: seq<Frame>)
    ensures var (mid, outcome) := HandleAll(decode, runId, c, a);
            HandleAll(decode, runId, c, a + b)
              == if outcome.Some? then (mid, outcome) else HandleAll(decode, runId, mid, b)
    decreases |a|
  {
    if a == [] {
      assert a + b == b;
    } else {
      assert (a + b)[1..] == a[1..] + b;
      HandleConcat(decode, runId, Handle(decode, runId, c, a[0]).0, a[1..], b);
    }
  }

  lemma HandleOne(decode: Decoder, runId: Option<string>, c: Collected, f: Frame)
    ensures HandleAll(decode, runId, c, [f]) == Handle(decode, runId, c, f)
  {
    var (next, outcome) := Handle(decode, runId, c, f);
    assert [f][1..] == [];
  }

  // ---- What single frames mean ----

  /** The payload carries a numeric status that may pass: 408, 429, or 500 and above. */
  predicate TransientError(payload: Json) {
    payload.Obj? && "status" in payload.fields &&
    match payload.fields["status"]
    case Num(n) => n >= 500.0 || n == 408.0 || n == 429.0
    case _ => false
  }

  /** An error frame always ends the stream: closed, to be tried again, when its status may pass,
      and failed otherwise. Its text is the payload's detail, or else the data as it came. */
  lemma AnErrorFrameDecides(decode: Decoder, runId: Option<string>, c: Collected, f: Frame)
    requires f.event == Some("error")
    ensures var payload := decode(f.data);
            var text := if payload.Obj? && "detail" in payload.fields && payload.fields["detail"].Str?
                        then payload.fields["detail"].text else f.data;
            Handle(decode, runId, c, f)
              == (c, Some(Outcome(if TransientError(payload) then Closed else Failed, Some(text), c.result)))
  {
  }

  /** A top-level event as the payload a frame may decode to. */
  function Payload(name: string, data: map<string, Json>): Json {
    Obj(map["method" := Str(name), "params" := Obj(map["data" := Obj(data)])])
  }

  /** Only these three phases end an open run, each with its own status and the data's error. */
  lemma WhatEndsARun(decode: Decoder, runId: Option<string>, c: Collected, f: Frame, phase: string, error: Json)
    requires f.event != Some("error") && c.open
    requires decode(f.data) == Payload("lifecycle", map["event" := Str(phase), "error" := error])
    ensures var text := if error.Str? then Some(error.text) else None;
            Handle(decode, runId, c, f).1 ==
              if phase == "completed" then Some(Outcome(Completed, text, c.result))
              else if phase == "failed" then Some(Outcome(Failed, text, c.result))
              else if phase == "interrupted" then Some(Outcome(Interrupted, text, c.result))
              else None
    ensures Handle(decode, runId, c, f).0 == c
  {
    var data := map["event" := Str(phase), "error" := error];
    assert TopLevelEvent(decode(f.data)) == Some(Event("lifecycle", phase, Obj(data), None));
  }

  /** A lifecycle event that names another run neither opens nor ends this one. */
  lemma AnotherRunsEventsAreIgnored(
    decode: Decoder, run: string, other: string, rest: string, c: Collected, f: Frame, phase: string)
    requires f.event != Some("error") && other != run && other != "" && ':' !in other
    requires decode(f.data) == Obj(map["method" := Str("lifecycle"),
                                       "event_id" := Str("synth:" + other + ":lc|" + rest),
                                       "params" := Obj(map["data" := Obj(map["event" := Str(phase)])])])
    ensures Handle(decode, Some(run), c, f) == (c, None)
  {
    LifecycleRunIdReadsItsShape(other, rest);
    var id := "synth:" + other + ":lc|" + rest;
    assert TopLevelEvent(decode(f.data)) == Some(Event("lifecycle", phase, Obj(map["event" := Str(phase)]), Some(id)));
  }

  /** An event of a subagent, which names a nonempty path, never counts. */
  lemma NestedEventsAreIgnored(
    decode: Decoder, runId: Option<string>, c: Collected, f: Frame, path: seq<Json>)
    requires f.event != Some("error") && path != [] && forall i | 0 <= i < |path| :: path[i].Str?
    requires At(At(decode(f.data), "params"), "namespace") == Arr(path)
    ensures Handle(decode, runId, c, f) == (c, None)
  {
  }

  /** Any other namespace, with something in it that is no string or with nothing, is top-level. */
  lemma NamespaceDecidesTheLevel(name: string, phase: string, data: map<string, Json>, path: seq<Json>)
    requires "event" in data && data["event"] == Str(phase)
    ensures var params := Obj(map["data" := Obj(data), "namespace" := Arr(path)]);
            TopLevelEvent(Obj(map["method" := Str(name), "params" := params]))
              == if path != [] && forall i | 0 <= i < |path| :: path[i].Str? then None
                 else Some(Event(name, phase, Obj(data), None))
  {
    var params := Obj(map["data" := Obj(data), "namespace" := Arr(path)]);
    assert At(params, "namespace") == Arr(path);
  }

  /** Before its run is open, nothing but an error or a `running` event matters to a collector. */
  lemma NothingCountsBeforeTheRun(decode: Decoder, runId: Option<string>, c: Collected, f: Frame)
    requires f.event != Some("error") && !c.open
    ensures Handle(decode, runId, c, f).1 == None && Handle(decode, runId, c, f).0.result == c.result
  {
  }

  /** A result call of the open run is kept when its exit code is a whole number from 0 to 255. */
  lemma AResultCallIsKept(
    decode: Decoder, runId: Option<string>, c: Collected, f: Frame, stdout: string, code: real, same: bool)
    requires f.event != Some("error") && c.open
    requires var input := Obj(map["stdout" := Str(stdout), "exit_code" := Num(code), "unchanged" := Bool(same)]);
             decode(f.data) == Payload("tools", map["event" := Str("tool-started"), "tool_name" := Str("cli_result"),
                                                    "input" := input])
    ensures var valid := code == code.Floor as real && 0.0 <= code <= 255.0;
            Handle(decode, runId, c, f) ==
              (if valid && !(same && c.result.Some?)
               then c.(result := Some(CliResult(stdout, code.Floor, same))) else c, None)
  {
    var input := Obj(map["stdout" := Str(stdout), "exit_code" := Num(code), "unchanged" := Bool(same)]);
    var data := map["event" := Str("tool-started"), "tool_name" := Str("cli_result"), "input" := input];
    assert TopLevelEvent(decode(f.data)) == Some(Event("tools", "tool-started", Obj(data), None));
    assert At(Obj(data), "input") == input;
  }

  // ---- A whole stream ----

  function OutcomeOf(collected: (Collected, Option<Outcome>)): Outcome {
    if collected.1.Some? then collected.1.value else Finish(collected.0, Closed, None)
  }

  /** The outcome of collecting a text once, from its start to its end. */
  function Collect(decode: Decoder, runId: Option<string>, text: string): Outcome {
    OutcomeOf(HandleAll(decode, runId, Initial(runId), Frames(text)))
  }

  /** How a connection's body reads: the chunks that arrive, then its end or a failure. */
  datatype Body = Body(chunks: seq<string>, broken: Option<Cause>)

  datatype Cause = ApiError(status: real, message: string) | ProtocolError(message: string)
                 | CredentialError(message: string) | OtherError(message: string)

  datatype Attempt = Ended(outcome: Outcome) | Raised(cause: Cause)

  /** What collecting a body comes to: a decided outcome, or else how the body ended. */
  function Attempted(decode: Decoder, runId: Option<string>, body: Body): Attempt {
    var all := HandleAll(decode, runId, Initial(runId), Frames(Concat(body.chunks)));
    if all.1.None? && body.broken.Some? then Raised(body.broken.value) else Ended(OutcomeOf(all))
  }

  lemma {:induction false} ConcatAppend(a: seq<string>, b: string)
    ensures Concat(a + [b]) == Concat(a) + b
    decreases |a|
  {
    if a == [] {
      assert a + [b] == [b];
    } else {
      assert (a + [b])[1..] == a[1..] + [b];
      ConcatAppend(a[1..], b);
    }
  }

  lemma {:induction false} ConcatSplit(a: seq<string>, b: seq<string>)
    ensures Concat(a + b) == Concat(a) + Concat(b)
    decreases |a|
  {
    if a == [] {
      assert a + b == b;
    } else {
      assert (a + b)[1..] == a[1..] + b;
      ConcatSplit(a[1..], b);
    }
  }

  /** The frames one more chunk completes follow those already taken. */
  lemma NextChunkFrames(st: State, seen: string, chunk: string)
    requires st == Feed(Start, seen).0
    ensures Feed(st, chunk).0 == Feed(Start, seen + chunk).0
    ensures Frames(seen + chunk) == Frames(seen) + Feed(st, chunk).1
  {
    FeedTwice(Start, seen, chunk);
    FeedFromStart(seen);
    FeedFromStart(seen + chunk);
  }

  /** A decision taken on a prefix of the frames stands for the whole stream. */
  lemma DecidedEarly(decode: Decoder, runId: Option<string>, some: seq<Frame>, all: seq<Frame>)
    requires some <= all && HandleAll(decode, runId, Initial(runId), some).1.Some?
    ensures HandleAll(decode, runId, Initial(runId), all) == HandleAll(decode, runId, Initial(runId), some)
  {
    assert all == some + all[|some|..];
    HandleConcat(decode, runId, Initial(runId), some, all[|some|..]);
  }

  /** A decision taken on the start of a body stands for the whole body. */
  lemma DecidedMidBody(decode: Decoder, runId: Option<string>, chunks: seq<string>, n: nat)
    requires n <= |chunks|
    requires HandleAll(decode, runId, Initial(runId), Frames(Concat(chunks[..n]))).1.Some?
    ensures HandleAll(decode, runId, Initial(runId), Frames(Concat(chunks)))
         == HandleAll(decode, runId, Initial(runId), Frames(Concat(chunks[..n])))
  {
    assert chunks == chunks[..n] + chunks[n..];
    ConcatSplit(chunks[..n], chunks[n..]);
    CutStreamYieldsPrefix(Concat(chunks[..n]), Concat(chunks[n..]));
    DecidedEarly(decode, runId, Frames(Concat(chunks[..n])), Frames(Concat(chunks)));
  }

  /** `collectRun`: chunk by chunk, frame by frame, stopping at the first decision. */
  method CollectRun(decode: Decoder, body: Option<Body>, runId: Option<string>) returns (attempt: Attempt)
    ensures body.None? ==> attempt == Ended(Outcome(Closed, Some("empty event stream"), None))
    ensures body.Some? ==> attempt == Attempted(decode, runId, body.value)
  {
    var collector := new RunCollector(decode, runId);
    if body.None? {
      return Ended(Finish(Collected(collector.open, collector.result), Closed, Some("empty event stream")));
    }
    var chunks := body.value.chunks;
    var parser := new SseParser();
    for i := 0 to |chunks|
      invariant fresh(parser) && fresh(collector) && collector.decode == decode && collector.runId == runId
      invariant InStep(parser, collector, Concat(chunks[..i]))
    {
      assert chunks[..i + 1] == chunks[..i] + [chunks[i]];
      ConcatAppend(chunks[..i], chunks[i]);
      var decided := ReadChunk(parser, collector, chunks[i], Concat(chunks[..i]));
      if decided.Some? {
        DecidedMidBody(decode, runId, chunks, i + 1);
        return Ended(decided.value);
      }
    }
    assert chunks[..|chunks|] == chunks;
    if body.value.broken.Some? {
      return Raised(body.value.broken.value);
    }
    attempt := Ended(Finish(Collected(collector.open, collector.result), Closed, None));
  }

  /** Parser and collector have read exactly the text seen, and nothing is decided yet. */
  ghost predicate InStep(parser: SseParser, collector: RunCollector, seen: string)
    reads parser, collector
  {
    && parser.Current() == Feed(Start, seen).0
    && (collector.Current(), None)
       == HandleAll(collector.decode, collector.runId, Initial(collector.runId), Frames(seen))
  }

  method ReadChunk(parser: SseParser, collector: RunCollector, chunk: string, ghost seen: string)
    returns (decided: Option<Outcome>)
    requires InStep(parser, collector, seen)
    modifies parser, collector
    ensures decided == HandleAll(collector.decode, collector.runId, Initial(collector.runId), Frames(seen + chunk)).1
    ensures decided.None? ==> InStep(parser, collector, seen + chunk)
  {
    NextChunkFrames(parser.Current(), seen, chunk);
    var frames := parser.Push(chunk);
    decided := HandleFrames(collector, frames, Frames(seen));
  }

  /** While nothing is decided, the next frame decides for all or moves the collector on. */
  lemma OneMoreFrame(
    decode: Decoder, runId: Option<string>, start: Collected, before: seq<Frame>, frames: seq<Frame>, j: nat)
    requires j < |frames| && HandleAll(decode, runId, start, before + frames[..j]).1.None?
    ensures var c := HandleAll(decode, runId, start, before + frames[..j]).0;
            var (next, outcome) := Handle(decode, runId, c, frames[j]);
            && HandleAll(decode, runId, start, before + frames[..j + 1]) == (next, outcome)
            && (outcome.Some? ==> HandleAll(decode, runId, start, before + frames).1 == outcome)
  {
    var done := before + frames[..j];
    assert before + frames[..j + 1] == done + [frames[j]];
    HandleConcat(decode, runId, start, done, [frames[j]]);
    HandleOne(decode, runId, HandleAll(decode, runId, start, done).0, frames[j]);
    assert before + frames == before + frames[..j + 1] + frames[j + 1..];
    HandleConcat(decode, runId, start, before + frames[..j + 1], frames[j + 1..]);
  }

  /** The frames one chunk completed, up to a decision. */
  method HandleFrames(collector: RunCollector, frames: seq<Frame>, ghost before: seq<Frame>)
    returns (decided: Option<Outcome>)
    requires (collector.Current(), None)
          == HandleAll(collector.decode, collector.runId, Initial(collector.runId), before)
    modifies collector
    ensures decided == HandleAll(collector.decode, collector.runId, Initial(collector.runId), before + frames).1
    ensures var all := HandleAll(collector.decode, collector.runId, Initial(collector.runId), before + frames);
            decided.None? ==> collector.Current() == all.0
  {
    ghost var d, r := collector.decode, collector.runId;
    ghost var start := Initial(r);
    assert before + frames[..0] == before;
    for j := 0 to |frames|
      invariant (collector.Current(), None) == HandleAll(d, r, start, before + frames[..j])
    {
      OneMoreFrame(d, r, start, before, frames, j);
      var outcome := collector.HandleFrame(frames[j]);
      if outcome.Some? {
        return outcome;
      }
    }
    assert frames[..|frames|] == frames;
    decided := None;
  }

  // ---- What the collector is for ----

  predicate Delivers(body: Body, log: string) {
    Concat(body.chunks) <= log
  }

  /** A connection that drops part-way through the log ends as collecting the whole log does,
      unless it ends closed or fails. */
  lemma PrefixDecidesAsTheLog(decode: Decoder, runId: Option<string>, body: Body, log: string)
    requires Delivers(body, log)
    ensures var a := Attempted(decode, runId, body);
            a.Ended? && a.outcome.status != Closed ==> a.outcome == Collect(decode, runId, log)
  {
    var text := Concat(body.chunks);
    assert log == text + log[|text|..];
    CutStreamYieldsPrefix(text, log[|text|..]);
    if HandleAll(decode, runId, Initial(runId), Frames(text)).1.Some? {
      DecidedEarly(decode, runId, Frames(text), Frames(log));
    }
  }

  /** A frame that may open the run: its own `running` event, or one that names no run. */
  predicate MayOpen(decode: Decoder, run: string, f: Frame) {
    var e := TopLevelEvent(decode(f.data));
    && e.Some? && e.value.name == "lifecycle" && e.value.phase == "running"
    && (LifecycleRunId(e.value.eventId).None? || LifecycleRunId(e.value.eventId) == Some(run))
  }

  /** Whatever a replayed thread holds before the run's own start, errors aside, is skipped:
      earlier runs' results and ends are never taken for this run's. */
  lemma {:induction false} PreambleIsSkipped(decode: Decoder, run: string, preamble: seq<Frame>, rest: seq<Frame>)
    requires forall i | 0 <= i < |preamble| ::
               preamble[i].event != Some("error") && !MayOpen(decode, run, preamble[i])
    ensures HandleAll(decode, Some(run), Initial(Some(run)), preamble + rest)
         == HandleAll(decode, Some(run), Initial(Some(run)), rest)
    decreases |preamble|
  {
    if preamble == [] {
      assert preamble + rest == rest;
    } else {
      assert (preamble + rest)[1..] == preamble[1..] + rest;
      assert Handle(decode, Some(run), Initial(Some(run)), preamble[0]) == (Initial(Some(run)), None);
      PreambleIsSkipped(decode, run, preamble[1..], rest);
    }
  }

  predicate NoErrors(frames: seq<Frame>) {
    forall i | 0 <= i < |frames| :: frames[i].event != Some("error")
  }

  predicate NoneMayOpen(decode: Decoder, run: string, frames: seq<Frame>) {
    forall i | 0 <= i < |frames| :: !MayOpen(decode, run, frames[i])
  }

  /** Errors aside, frames leave the collector waiting exactly when none of them may open the
      run: a `running` event that names no run opens it, whichever run it was of. */
  lemma {:induction false} PreambleIsSkippedExactly(decode: Decoder, run: string, preamble: seq<Frame>)
    requires NoErrors(preamble)
    ensures HandleAll(decode, Some(run), Initial(Some(run)), preamble) == (Initial(Some(run)), None)
       <==> NoneMayOpen(decode, run, preamble)
    decreases |preamble|
  {
    if preamble != [] {
      var start := Initial(Some(run));
      var (next, outcome) := Handle(decode, Some(run), start, preamble[0]);
      if MayOpen(decode, run, preamble[0]) {
        assert next.open && outcome.None?;
        OpenStaysOpen(decode, Some(run), next, preamble[1..]);
      } else {
        assert (next, outcome) == (start, None);
        PreambleIsSkippedExactly(decode, run, preamble[1..]);
        assert NoneMayOpen(decode, run, preamble) <==> NoneMayOpen(decode, run, preamble[1..]) by {
          assert forall i | 1 <= i < |preamble| :: preamble[i] == preamble[1..][i - 1];
          assert forall i | 0 <= i < |preamble| - 1 :: preamble[1..][i] == preamble[i + 1];
        }
      }
    }
  }

  lemma {:induction false} OpenStaysOpen(decode: Decoder, runId: Option<string>, c: Collected, frames: seq<Frame>)
    requires c.open
    ensures HandleAll(decode, runId, c, frames).0.open
    decreases |frames|
  {
    if frames != [] {
      var (next, outcome) := Handle(decode, runId, c, frames[0]);
      if outcome.None? {
        OpenStaysOpen(decode, runId, next, frames[1..]);
      }
    }
  }

  /** A lifecycle event that names no run, as the payload a frame may decode to. */
  function Anonymous(phase: string): Json {
    Obj(map["method" := Str("lifecycle"), "params" := Obj(map["data" := Obj(map["event" := Str(phase)])])])
  }

  /** The failing case: an earlier run's `running` and `completed` events without an id end
      the run that is followed, before any event of its own. */
  lemma AnonymousEventsEndAnyRun(decode: Decoder, run: string, running: string, completed: string)
    requires decode(running) == Anonymous("running") && decode(completed) == Anonymous("completed")
    ensures var preamble := [Frame(None, None, running), Frame(None, None, completed)];
            && NoErrors(preamble) && MayOpen(decode, run, preamble[0])
            && HandleAll(decode, Some(run), Initial(Some(run)), preamble).1 == Some(Outcome(Completed, None, None))
  {
    var first, second := Frame(None, None, running), Frame(None, None, completed);
    assert TopLevelEvent(decode(first.data)).Some? && TopLevelEvent(decode(second.data)).Some?;
    var following := Collected(true, None);
    assert Handle(decode, Some(run), Initial(Some(run)), first) == (following, None);
    assert [first, second][1..] == [second];
    assert HandleAll(decode, Some(run), following, [second]).1 == Some(Outcome(Completed, None, None));
  }

  /** The result call a frame makes of an open collector, if any. */
  function CallOf(decode: Decoder, c: Collected, f: Frame): seq<Option<CliResult>> {
    var e := TopLevelEvent(decode(f.data));
    if c.open && e.Some? && ReportsResult(e.value) then [ParseCliResult(At(e.value.data, "input"))] else []
  }

  /** The result calls the collector takes into account, in order. */
  function ResultCalls(decode: Decoder, runId: Option<string>, c: Collected, frames: seq<Frame>): seq<Option<CliResult>>
    decreases |frames|
  {
    if frames == [] then []
    else
      var (next, outcome) := Handle(decode, runId, c, frames[0]);
      if outcome.Some? then [] else CallOf(decode, c, frames[0]) + ResultCalls(decode, runId, next, frames[1..])
  }

  lemma OneCall(decode: Decoder, runId: Option<string>, c: Collected, f: Frame)
    ensures var (next, outcome) := Handle(decode, runId, c, f);
            && (outcome.None? ==> next.result == Fold(c.result, CallOf(decode, c, f)))
            && (outcome.Some? ==> next.result == c.result == outcome.value.result)
  {
  }

  /** The collector's result is the fold of the result calls it took. */
  lemma {:induction false} ResultIsFold(decode: Decoder, runId: Option<string>, c: Collected, frames: seq<Frame>)
    ensures var (last, outcome) := HandleAll(decode, runId, c, frames);
            && last.result == Fold(c.result, ResultCalls(decode, runId, c, frames))
            && (outcome.Some? ==> outcome.value.result == last.result)
    decreases |frames|
  {
    if frames != [] {
      var (next, outcome) := Handle(decode, runId, c, frames[0]);
      OneCall(decode, runId, c, frames[0]);
      if outcome.None? {
        ResultIsFold(decode, runId, next, frames[1..]);
        FoldConcat(c.result, CallOf(decode, c, frames[0]), ResultCalls(decode, runId, next, frames[1..]));
      }
    }
  }
}
