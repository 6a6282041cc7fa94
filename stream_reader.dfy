/**
 * The streaming chat reader, `sendStreamMessage` in src/api/chat.js.
 *
 * The reader opens the stream, reads chunk after chunk, decodes and splits each
 * chunk on its own, drops blank lines, and for each line that starts with
 * exactly "data: " either completes on the "[DONE]" sentinel or hands a
 * fragment to `onMessage`: the parsed JSON, or `{content: payload}` when the
 * payload is not JSON. Every callback invocation is recorded, in order, as an
 * `Event`; `Run` is the log as a function of what the transport delivered and
 * of which callbacks throw, and `Read` is the loop itself, proved to produce it.
 */
module StreamReader {
  import opened Wrappers
  import opened Strings
  import opened JsValue
  import opened Foreign

  /** How the transport ends after the chunks it delivered. */
  datatype StreamEnd = EndOfData | ReadFailed(reason: string)

  /** What `fetch` and the body reader deliver. */
  datatype Response =
    | FetchFailed(reason: string)
    | Received(ok: bool, chunks: seq<seq<Byte>>, end: StreamEnd)

  /** What reaches `onError`. */
  datatype Failure =
    | HttpNotOk             // the `Error('请求失败')` thrown for a non-ok status
    | Transport(reason: string)
    | MessageHandlerThrew
    | CompleteHandlerThrew

  /** One callback invocation made by the reader. */
  datatype Event = Message(fragment: Value) | Complete | Error(failure: Failure)

  /** Which invocations of the caller's callbacks throw. */
  datatype Handlers = Handlers(messageThrows: Value -> bool, completeThrows: bool)

  const DataPrefix: string := "data: "
  const Sentinel: string := "[DONE]"

  /**
   * The lines of one decoded chunk that survive `filter(line => line.trim())`:
   * those that are not all white space (`TrimEmptyIffBlank` is the link).
   */
  function NonBlank(lines: seq<string>): (r: seq<string>)
    decreases |lines|
  {
    if lines == [] then []
    else (if !AllWhitespace(lines[0]) then [lines[0]] else []) + NonBlank(lines[1..])
  }

  lemma {:induction false} NonBlankNotBlank(lines: seq<string>)
    ensures forall k :: 0 <= k < |NonBlank(lines)| ==> !AllWhitespace(NonBlank(lines)[k])
    decreases |lines|
  {
    if lines != [] {
      NonBlankNotBlank(lines[1..]);
    }
  }

  /** Every line kept has a non-empty `trim()`. */
  lemma NonBlankKeepsTrimmed(lines: seq<string>)
    ensures forall k :: 0 <= k < |NonBlank(lines)| ==> Trim(NonBlank(lines)[k]) != []
  {
    NonBlankNotBlank(lines);
    forall k | 0 <= k < |NonBlank(lines)| ensures Trim(NonBlank(lines)[k]) != [] {
      TrimEmptyIffBlank(NonBlank(lines)[k]);
    }
  }

  function ChunkLines(text: string): seq<string> {
    NonBlank(Split(text, '\n'))
  }

  /** The lines of each group, one group after the other. */
  function Flatten(groups: seq<seq<string>>): seq<string>
    decreases |groups|
  {
    if groups == [] then [] else Flatten(groups[..|groups| - 1]) + groups[|groups| - 1]
  }

  /** The lines each chunk yields, decoded and split by itself. */
  function ChunkGroups(chunks: seq<seq<Byte>>, host: Host): (r: seq<seq<string>>)
    ensures |r| == |chunks|
  {
    seq(|chunks|, i requires 0 <= i < |chunks| => ChunkLines(host.textDecode(chunks[i])))
  }

  /** Every line the loop visits, chunk after chunk. */
  function AllLines(chunks: seq<seq<Byte>>, host: Host): seq<string> {
    Flatten(ChunkGroups(chunks, host))
  }

  /** The `{content: payload}` object delivered for a payload that is not JSON. */
  function TextFragment(payload: string): Value {
    Single("content", Str(payload))
  }

  /** What the caller sees for one line, and whether the reader stops after it. */
  datatype Step = Step(events: seq<Event>, stop: bool)

  function CompleteEvents(h: Handlers): seq<Event> {
    [Complete] + (if h.completeThrows then [Error(CompleteHandlerThrew)] else [])
  }

  /** `onMessage({content: payload})`; when it throws, the error reaches `onError` and the reader stops. */
  function Fallback(payload: string, h: Handlers): Step {
    var f := TextFragment(payload);
    if h.messageThrows(f) then Step([Message(f), Error(MessageHandlerThrew)], true)
    else Step([Message(f)], false)
  }

  function PayloadStep(payload: string, host: Host, h: Handlers): Step {
    if payload == Sentinel then Step(CompleteEvents(h), true)
    else
      match host.jsonParse(payload)
      case Some(parsed) =>
        if h.messageThrows(parsed) then
          var fb := Fallback(payload, h);
          Step([Message(parsed)] + fb.events, fb.stop)
        else Step([Message(parsed)], false)
      case None => Fallback(payload, h)
  }

  function LineStep(line: string, host: Host, h: Handlers): Step {
    if StartsWith(line, DataPrefix) then PayloadStep(line[|DataPrefix|..], host, h)
    else Step([], false)
  }

  /** The lines in order, up to and including the first one that stops the reader. */
  function RunLines(lines: seq<string>, host: Host, h: Handlers): Step
    decreases |lines|
  {
    if lines == [] then Step([], false)
    else
      var prev := RunLines(lines[..|lines| - 1], host, h);
      if prev.stop then prev
      else
        var st := LineStep(lines[|lines| - 1], host, h);
        Step(prev.events + st.events, st.stop)
  }

  /** The whole callback log of one `sendStreamMessage` call. */
  function Run(resp: Response, host: Host, h: Handlers): seq<Event> {
    match resp
    case FetchFailed(reason) => [Error(Transport(reason))]
    case Received(ok, chunks, end) =>
      if !ok then [Error(HttpNotOk)]
      else
        var s := RunLines(AllLines(chunks, host), host, h);
        if s.stop then s.events
        else
          match end
          case EndOfData => s.events + CompleteEvents(h)
          case ReadFailed(reason) => s.events + [Error(Transport(reason))]
  }

  /** One more line of the current chunk. */
  lemma RunLinesNext(before: seq<string>, lines: seq<string>, j: nat, host: Host, h: Handlers)
    requires j < |lines|
    ensures RunLines(before + lines[..j + 1], host, h) ==
      var prev := RunLines(before + lines[..j], host, h);
      if prev.stop then prev
      else Step(prev.events + LineStep(lines[j], host, h).events, LineStep(lines[j], host, h).stop)
  {
    assert before + lines[..j + 1] == (before + lines[..j]) + [lines[j]];
    RunLinesSnoc(before + lines[..j], lines[j], host, h);
  }

  lemma AppendWhole<T>(before: seq<T>, lines: seq<T>)
    ensures before + lines[..0] == before && lines[..|lines|] == lines
  {
    assert lines[..0] == [];
  }

  lemma RunLinesSnoc(xs: seq<string>, x: string, host: Host, h: Handlers)
    ensures RunLines(xs + [x], host, h) ==
      var prev := RunLines(xs, host, h);
      if prev.stop then prev
      else Step(prev.events + LineStep(x, host, h).events, LineStep(x, host, h).stop)
  {
    assert (xs + [x])[..|xs|] == xs;
  }

  /** Once a line has stopped the reader, nothing after it contributes. */
  lemma {:induction false} StopAbsorbs(xs: seq<string>, ys: seq<string>, host: Host, h: Handlers)
    requires RunLines(xs, host, h).stop
    ensures RunLines(xs + ys, host, h) == RunLines(xs, host, h)
    decreases |ys|
  {
    if ys == [] {
      assert xs + ys == xs;
    } else {
      var ys' := ys[..|ys| - 1];
      StopAbsorbs(xs, ys', host, h);
      assert ys == ys' + [ys[|ys| - 1]];
      assert xs + ys == (xs + ys') + [ys[|ys| - 1]];
      RunLinesSnoc(xs + ys', ys[|ys| - 1], host, h);
    }
  }

  lemma {:induction false} FlattenAppend(x: seq<seq<string>>, y: seq<seq<string>>)
    ensures Flatten(x + y) == Flatten(x) + Flatten(y)
    decreases |y|
  {
    if y == [] {
      assert x + y == x;
    } else {
      var y' := y[..|y| - 1];
      FlattenAppend(x, y');
      assert (x + y)[..|x + y| - 1] == x + y';
    }
  }

  /**
   * No state is carried from one chunk to the next: the lines of a run of
   * chunks are the lines of its first part followed by those of the rest.
   */
  lemma AllLinesAppend(a: seq<seq<Byte>>, b: seq<seq<Byte>>, host: Host)
    ensures AllLines(a + b, host) == AllLines(a, host) + AllLines(b, host)
  {
    assert ChunkGroups(a + b, host) == ChunkGroups(a, host) + ChunkGroups(b, host);
    FlattenAppend(ChunkGroups(a, host), ChunkGroups(b, host));
  }

  lemma AllLinesOne(c: seq<Byte>, host: Host)
    ensures AllLines([c], host) == ChunkLines(host.textDecode(c))
  {
    var g := ChunkLines(host.textDecode(c));
    assert ChunkGroups([c], host) == [g];
    assert [g][..0] == [];
    assert Flatten([g]) == Flatten([]) + g;
  }

  lemma AllLinesSnoc(chunks: seq<seq<Byte>>, i: nat, host: Host)
    requires i < |chunks|
    ensures AllLines(chunks[..i + 1], host) == AllLines(chunks[..i], host) + ChunkLines(host.textDecode(chunks[i]))
  {
    assert chunks[..i + 1] == chunks[..i] + [chunks[i]];
    AllLinesAppend(chunks[..i], [chunks[i]], host);
    AllLinesOne(chunks[i], host);
  }

  /** The lines of the chunks are those before chunk `i`, then chunk `i`'s, then those after it. */
  lemma AllLinesAround(chunks: seq<seq<Byte>>, i: nat, host: Host)
    requires i < |chunks|
    ensures AllLines(chunks, host)
         == AllLines(chunks[..i], host) + ChunkLines(host.textDecode(chunks[i])) + AllLines(chunks[i + 1..], host)
  {
    assert chunks == chunks[..i] + ([chunks[i]] + chunks[i + 1..]);
    AllLinesAppend(chunks[..i], [chunks[i]] + chunks[i + 1..], host);
    AllLinesAppend([chunks[i]], chunks[i + 1..], host);
    AllLinesOne(chunks[i], host);
  }

  /** Stopping at line `j` of a chunk leaves the rest of that chunk and every later chunk unread. */
  lemma StopWithin(before: seq<string>, lines: seq<string>, after: seq<string>, j: nat, host: Host, h: Handlers)
    requires j < |lines|
    requires RunLines(before + lines[..j + 1], host, h).stop
    ensures RunLines(before + lines + after, host, h) == RunLines(before + lines[..j + 1], host, h)
  {
    assert before + lines + after == (before + lines[..j + 1]) + (lines[j + 1..] + after) by {
      assert lines == lines[..j + 1] + lines[j + 1..];
    }
    StopAbsorbs(before + lines[..j + 1], lines[j + 1..] + after, host, h);
  }

  /**
   * The body of the inner loop for one line: the callbacks it makes, and
   * whether the reader returns after them.
   */
  method HandleLine(line: string, host: Host, h: Handlers) returns (calls: seq<Event>, stop: bool)
    ensures Step(calls, stop) == LineStep(line, host, h)
  {
    calls, stop := [], false;
    if StartsWith(line, DataPrefix) {
      var data := line[|DataPrefix|..];
      if data == Sentinel {
        calls := [Complete];
        if h.completeThrows {
          calls := calls + [Error(CompleteHandlerThrew)];
        }
        return calls, true;
      }
      var fallback := TextFragment(data);
      match host.jsonParse(data) {
        case Some(parsed) =>
          calls := [Message(parsed)];
          if h.messageThrows(parsed) {
            calls := calls + [Message(fallback)];
            if h.messageThrows(fallback) {
              calls := calls + [Error(MessageHandlerThrew)];
              stop := true;
            }
          }
        case None =>
          calls := [Message(fallback)];
          if h.messageThrows(fallback) {
            calls := calls + [Error(MessageHandlerThrew)];
            stop := true;
          }
      }
    }
  }

  /** `sendStreamMessage`: the read loop, proved to make exactly the calls `Run` describes. */
  method Read(resp: Response, host: Host, h: Handlers) returns (log: seq<Event>)
    ensures log == Run(resp, host, h)
  {
    if resp.FetchFailed? {
      return [Error(Transport(resp.reason))];
    }
    if !resp.ok {
      return [Error(HttpNotOk)];
    }
    var chunks := resp.chunks;
    log := [];
    var i := 0;
    while i < |chunks|
      invariant 0 <= i <= |chunks|
      invariant RunLines(AllLines(chunks[..i], host), host, h) == Step(log, false)
    {
      var lines := ChunkLines(host.textDecode(chunks[i]));
      ghost var before := AllLines(chunks[..i], host);
      var j := 0;
      AppendWhole(before, lines);
      while j < |lines|
        invariant 0 <= j <= |lines|
        invariant RunLines(before + lines[..j], host, h) == Step(log, false)
      {
        var calls, stop := HandleLine(lines[j], host, h);
        RunLinesNext(before, lines, j, host, h);
        log := log + calls;
        if stop {
          AllLinesAround(chunks, i, host);
          StopWithin(before, lines, AllLines(chunks[i + 1..], host), j, host, h);
          return;
        }
        j := j + 1;
      }
      AllLinesSnoc(chunks, i, host);
      i := i + 1;
    }
    assert chunks[..i] == chunks;
    match resp.end {
      case EndOfData =>
        log := log + [Complete];
        if h.completeThrows {
          log := log + [Error(CompleteHandlerThrew)];
        }
      case ReadFailed(reason) =>
        log := log + [Error(Transport(reason))];
    }
  }

  // ---------------------------------------------------------------------------
  // What the log looks like

  predicate AllMessages(s: seq<Event>) {
    forall k :: 0 <= k < |s| ==> s[k].Message?
  }

  predicate IsOutcome(e: Event) {
    e.Complete? || e.Error?
  }

  /** Fragments, then exactly one of `onComplete` / `onError`, as the last call. */
  predicate OneOutcome(log: seq<Event>) {
    |log| >= 1 && IsOutcome(log[|log| - 1]) && AllMessages(log[..|log| - 1])
  }

  /** Fragments, then `onComplete`, then `onError` with the exception `onComplete` threw. */
  predicate CompleteThenError(log: seq<Event>) {
    |log| >= 2 && log[|log| - 2] == Complete && log[|log| - 1] == Error(CompleteHandlerThrew)
    && AllMessages(log[..|log| - 2])
  }

  predicate Settled(log: seq<Event>, h: Handlers) {
    OneOutcome(log) || (h.completeThrows && CompleteThenError(log))
  }

  lemma SettledAfterMessages(prefix: seq<Event>, tail: seq<Event>, h: Handlers)
    requires AllMessages(prefix) && Settled(tail, h)
    ensures Settled(prefix + tail, h)
  {
    var log := prefix + tail;
    if OneOutcome(tail) {
      assert log[..|log| - 1] == prefix + tail[..|tail| - 1];
    } else {
      assert log[..|log| - 2] == prefix + tail[..|tail| - 2];
    }
  }

  /** One line's own calls: only fragments while it does not stop the reader, and settled when it does. */
  lemma LineStepShape(line: string, host: Host, h: Handlers)
    ensures var st := LineStep(line, host, h);
      (!st.stop ==> AllMessages(st.events)) && (st.stop ==> Settled(st.events, h))
  {
    if StartsWith(line, DataPrefix) {
      var payload := line[|DataPrefix|..];
      if payload == Sentinel {
        if h.completeThrows {
          assert CompleteThenError(CompleteEvents(h));
        } else {
          assert OneOutcome(CompleteEvents(h));
        }
      } else {
        var fb := Fallback(payload, h);
        if h.messageThrows(TextFragment(payload)) {
          assert OneOutcome(fb.events);
        }
        match host.jsonParse(payload)
        case Some(parsed) =>
          if h.messageThrows(parsed) && fb.stop {
            assert OneOutcome([Message(parsed)] + fb.events);
          }
        case None =>
      }
    }
  }

  lemma MessagesAppend(xs: seq<Event>, ys: seq<Event>)
    requires AllMessages(xs) && AllMessages(ys)
    ensures AllMessages(xs + ys)
  {
  }

  lemma {:induction false} RunLinesShape(lines: seq<string>, host: Host, h: Handlers)
    ensures var s := RunLines(lines, host, h);
      (!s.stop ==> AllMessages(s.events)) && (s.stop ==> Settled(s.events, h))
    decreases |lines|
  {
    if lines != [] {
      var xs := lines[..|lines| - 1];
      var x := lines[|lines| - 1];
      RunLinesShape(xs, host, h);
      assert lines == xs + [x];
      RunLinesSnoc(xs, x, host, h);
      var prev := RunLines(xs, host, h);
      if !prev.stop {
        var st := LineStep(x, host, h);
        LineStepShape(x, host, h);
        if st.stop {
          SettledAfterMessages(prev.events, st.events, h);
        } else {
          MessagesAppend(prev.events, st.events);
        }
      }
    }
  }

  /**
   * Every call ends in an outcome: the log is fragments followed by exactly one
   * `onComplete` or `onError`, except that when `onComplete` itself throws,
   * `onError` is called right after it.
   */
  lemma RunSettles(resp: Response, host: Host, h: Handlers)
    ensures Settled(Run(resp, host, h), h)
  {
    if resp.Received? && resp.ok {
      var s := RunLines(AllLines(resp.chunks, host), host, h);
      RunLinesShape(AllLines(resp.chunks, host), host, h);
      if !s.stop {
        match resp.end {
          case EndOfData =>
            assert Settled(CompleteEvents(h), h) by {
              if h.completeThrows {
                assert CompleteThenError(CompleteEvents(h));
              }
            }
            SettledAfterMessages(s.events, CompleteEvents(h), h);
          case ReadFailed(reason) =>
            SettledAfterMessages(s.events, [Error(Transport(reason))], h);
        }
      }
    }
  }

  /** With an `onComplete` that does not throw, exactly one of `onComplete` / `onError` is called, last. */
  lemma ExactlyOneOutcome(resp: Response, host: Host, h: Handlers)
    requires !h.completeThrows
    ensures OneOutcome(Run(resp, host, h))
  {
    RunSettles(resp, host, h);
  }

  /** An `onComplete` that throws makes the reader call `onError` as well. */
  lemma CompleteThrowAlsoErrors(host: Host, h: Handlers)
    requires h.completeThrows
    ensures Run(Received(true, [], EndOfData), host, h) == [Complete, Error(CompleteHandlerThrew)]
  {
  }

  /** Once the reader has stopped, later chunks and the way the stream ends are never looked at. */
  lemma StopIgnoresRest(chunks: seq<seq<Byte>>, more: seq<seq<Byte>>, end1: StreamEnd, end2: StreamEnd, host: Host, h: Handlers)
    requires RunLines(AllLines(chunks, host), host, h).stop
    ensures Run(Received(true, chunks + more, end1), host, h) == Run(Received(true, chunks, end2), host, h)
  {
    AllLinesAppend(chunks, more, host);
    StopAbsorbs(AllLines(chunks, host), AllLines(more, host), host, h);
  }

  // ---------------------------------------------------------------------------
  // Fragments and their order

  /** The fragment a data payload becomes: the parsed JSON, else `{content: payload}`. */
  function FragmentOf(payload: string, host: Host): Value {
    match host.jsonParse(payload)
    case Some(v) => v
    case None => TextFragment(payload)
  }

  /** The payloads of the lines that start with "data: ", in order. */
  function DataPayloads(lines: seq<string>): seq<string>
    decreases |lines|
  {
    if lines == [] then []
    else
      var x := lines[|lines| - 1];
      DataPayloads(lines[..|lines| - 1]) + (if StartsWith(x, DataPrefix) then [x[|DataPrefix|..]] else [])
  }

  function MessagesFor(payloads: seq<string>, host: Host): (r: seq<Event>)
    ensures |r| == |payloads|
    decreases |payloads|
  {
    if payloads == [] then []
    else MessagesFor(payloads[..|payloads| - 1], host) + [Message(FragmentOf(payloads[|payloads| - 1], host))]
  }

  /**
   * When no callback throws and no sentinel arrives, `onMessage` receives one
   * fragment per data line, in line order: nothing is dropped, merged or reordered.
   */
  lemma {:induction false} MessagesInOrder(lines: seq<string>, host: Host, h: Handlers)
    requires forall v :: !h.messageThrows(v)
    requires Sentinel !in DataPayloads(lines)
    ensures RunLines(lines, host, h) == Step(MessagesFor(DataPayloads(lines), host), false)
    decreases |lines|
  {
    if lines != [] {
      var xs := lines[..|lines| - 1];
      var x := lines[|lines| - 1];
      assert DataPayloads(lines) == DataPayloads(xs) + (if StartsWith(x, DataPrefix) then [x[|DataPrefix|..]] else []);
      MessagesInOrder(xs, host, h);
      assert lines == xs + [x];
      RunLinesSnoc(xs, x, host, h);
      if StartsWith(x, DataPrefix) {
        var p := x[|DataPrefix|..];
        assert p in DataPayloads(lines);
        var ps := DataPayloads(xs) + [p];
        assert ps[..|ps| - 1] == DataPayloads(xs);
        assert p != Sentinel;
        assert LineStep(x, host, h) == Step([Message(FragmentOf(p, host))], false) by {
          match host.jsonParse(p) {
            case Some(v) => assert !h.messageThrows(v);
            case None => assert !h.messageThrows(TextFragment(p));
          }
        }
      } else {
        assert DataPayloads(lines) == DataPayloads(xs);
      }
    }
  }

  /** A stream that ends normally delivers every fragment in order and then completes. */
  lemma StreamInOrder(chunks: seq<seq<Byte>>, host: Host, h: Handlers)
    requires forall v :: !h.messageThrows(v)
    requires !h.completeThrows
    requires Sentinel !in DataPayloads(AllLines(chunks, host))
    ensures Run(Received(true, chunks, EndOfData), host, h)
         == MessagesFor(DataPayloads(AllLines(chunks, host)), host) + [Complete]
  {
    MessagesInOrder(AllLines(chunks, host), host, h);
  }

  /** A payload that is not JSON reaches `onMessage` as `{content: payload}`, never `onError`. */
  lemma MalformedIsText(payload: string, host: Host, h: Handlers)
    requires payload != Sentinel && host.jsonParse(payload).None?
    requires !h.messageThrows(TextFragment(payload))
    ensures LineStep(DataPrefix + payload, host, h) == Step([Message(TextFragment(payload))], false)
  {
    assert (DataPrefix + payload)[..|DataPrefix|] == DataPrefix;
    assert (DataPrefix + payload)[|DataPrefix|..] == payload;
  }

  /** Only the exact prefix "data: " counts: without the space the line is ignored, sentinel or not. */
  lemma PrefixNeedsSpace(host: Host, h: Handlers)
    ensures LineStep("data:[DONE]", host, h) == Step([], false)
  {
    assert "data:[DONE]"[..6] != DataPrefix by {
      assert "data:[DONE]"[5] == '[';
    }
  }

  /**
   * A line the server ends with "\r\n" keeps its "\r", so "data: [DONE]\r" is
   * not the sentinel: it becomes a text fragment and the reader reads on.
   */
  lemma CarriageReturnHidesSentinel(host: Host, h: Handlers)
    requires host.jsonParse("[DONE]\r").None?
    requires !h.messageThrows(TextFragment("[DONE]\r"))
    ensures LineStep("data: [DONE]\r", host, h) == Step([Message(TextFragment("[DONE]\r"))], false)
  {
    MalformedIsText("[DONE]\r", host, h);
    assert DataPrefix + "[DONE]\r" == "data: [DONE]\r";
  }

  // ---------------------------------------------------------------------------
  // Scenarios

  /**
   * A line cut between two chunks is read as two lines: "data: [DO" then
   * "NE]". The first becomes a text fragment and the second is ignored, so the
   * sentinel is missed and completion only comes from the end of the stream.
   */
  lemma SentinelSplitAcrossChunks(c1: seq<Byte>, c2: seq<Byte>, host: Host, h: Handlers)
    requires host.textDecode(c1) == "data: [DO" && host.textDecode(c2) == "NE]\n"
    requires host.jsonParse("[DO").None?
    requires forall v :: !h.messageThrows(v)
    requires !h.completeThrows
    ensures Run(Received(true, [c1, c2], EndOfData), host, h)
         == [Message(TextFragment("[DO")), Complete]
  {
    assert "NE]" + ['\n'] == "NE]\n";
    TwoLines(c1, c2, "data: [DO", "NE]", host);
    HalvesOfSentinel(host, h);
  }

  /** The two halves of a cut sentinel line: a text fragment, then a line that is ignored. */
  lemma HalvesOfSentinel(host: Host, h: Handlers)
    requires host.jsonParse("[DO").None?
    requires !h.messageThrows(TextFragment("[DO"))
    ensures RunLines(["data: [DO", "NE]"], host, h) == Step([Message(TextFragment("[DO"))], false)
  {
    MalformedIsText("[DO", host, h);
    assert DataPrefix + "[DO" == "data: [DO";
    assert LineStep("NE]", host, h) == Step([], false) by {
      assert !StartsWith("NE]", DataPrefix);
    }
    RunLinesSnoc([], "data: [DO", host, h);
    assert [] + ["data: [DO"] == ["data: [DO"];
    RunLinesSnoc(["data: [DO"], "NE]", host, h);
    assert ["data: [DO"] + ["NE]"] == ["data: [DO", "NE]"];
  }

  /** The same bytes delivered as one chunk complete on the sentinel, whatever follows. */
  lemma SentinelInOneChunk(c: seq<Byte>, more: seq<seq<Byte>>, end: StreamEnd, host: Host, h: Handlers)
    requires host.textDecode(c) == "data: [DONE]\n"
    ensures Run(Received(true, [c] + more, end), host, h) == CompleteEvents(h)
  {
    assert "data: [DONE]" + ['\n'] == "data: [DONE]\n";
    LineChunk(c, "data: [DONE]", host);
    SentinelLine(host, h);
    StopIgnoresRest([c], more, end, end, host, h);
  }

  /** The sentinel line alone: `onComplete`, and the reader stops. */
  lemma SentinelLine(host: Host, h: Handlers)
    ensures RunLines(["data: [DONE]"], host, h) == Step(CompleteEvents(h), true)
  {
    assert "data: [DONE]"[..|DataPrefix|] == DataPrefix;
    assert "data: [DONE]"[|DataPrefix|..] == Sentinel;
    RunLinesSnoc([], "data: [DONE]", host, h);
    assert [] + ["data: [DONE]"] == ["data: [DONE]"];
  }

  lemma LineChunk(c: seq<Byte>, line: string, host: Host)
    requires '\n' !in line && line != [] && !IsJsWhitespace(line[0])
    requires host.textDecode(c) == line + ['\n']
    ensures AllLines([c], host) == [line]
  {
    OneLine(line);
    AllLinesOne(c, host);
  }

  /** Two chunks that each hold one non-blank line yield those two lines. */
  lemma TwoLines(c1: seq<Byte>, c2: seq<Byte>, l1: string, l2: string, host: Host)
    requires '\n' !in l1 && l1 != [] && !IsJsWhitespace(l1[0])
    requires '\n' !in l2 && l2 != [] && !IsJsWhitespace(l2[0])
    requires host.textDecode(c1) == l1 && host.textDecode(c2) == l2 + ['\n']
    ensures AllLines([c1, c2], host) == [l1, l2]
  {
    OneLine(l1);
    OneLine(l2);
    AllLinesOne(c1, host);
    AllLinesOne(c2, host);
    AllLinesAppend([c1], [c2], host);
    assert [c1] + [c2] == [c1, c2];
  }

  /** A chunk holding one non-blank line, with or without its newline, yields just that line. */
  lemma OneLine(line: string)
    requires '\n' !in line && line != [] && !IsJsWhitespace(line[0])
    ensures ChunkLines(line) == [line] && ChunkLines(line + ['\n']) == [line]
  {
    SplitWithoutSep(line, '\n');
    assert !AllWhitespace(line);
    assert NonBlank([line]) == [line] by {
      assert [line][1..] == [];
    }
    assert NonBlank([line, ""]) == [line] by {
      assert [line, ""][1..] == [""];
      assert [""][1..] == [];
      assert AllWhitespace("");
    }
  }
}
