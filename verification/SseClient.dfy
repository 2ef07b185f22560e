/** Frames as server-sent events (app.py:2443-2513; WHATWG HTML Standard, sections 9.2.5 and
    9.2.6) and the client that reads them back
    (scripts/benchmark_100q_multi_user_fresh.py:265-318). */
module SseClient {
  import opened Basics
  import opened PyText
  import opened ChatStream

  /** JSON text of a payload, and back. */
  datatype Codec = Codec(enc: Payload -> string, dec: string -> Option<Payload>)

  /** JSON objects are written on one line, begin and end with a brace, and are read back. */
  ghost predicate GoodCodec(c: Codec) {
    forall p: Payload ::
      OneLine(IsNewline, c.enc(p)) && c.enc(p) != "" && Tight(IsSpace, c.enc(p)) && c.dec(c.enc(p)) == Some(p)
  }

  function Name(e: EventName): string {
    match e
    case ProgressEvent => "progress"
    case HeartbeatEvent => "heartbeat"
    case ErrorEvent => "error"
    case ChunkEvent => "chunk"
    case ArtifactEvent => "artifact"
    case FinalEvent => "final"
    case DoneEvent => "done"
  }

  // ---------------------------------------------------------------- writing

  function FrameLines(c: Codec, f: Frame): seq<string> {
    ["event: " + Name(f.event), "data: " + c.enc(f.data), ""]
  }

  /** What the server writes for one frame. */
  function Render(c: Codec, f: Frame): string {
    "event: " + Name(f.event) + "\n" + "data: " + c.enc(f.data) + "\n\n"
  }

  function RenderAll(c: Codec, frames: seq<Frame>): string {
    if frames == [] then "" else Render(c, frames[0]) + RenderAll(c, frames[1..])
  }

  function AllLines(c: Codec, frames: seq<Frame>): seq<string> {
    if frames == [] then [] else FrameLines(c, frames[0]) + AllLines(c, frames[1..])
  }

  // ---------------------------------------------------------------- reading

  datatype Event = Event(name: string, data: string)

  const EVENT := "event:"
  const DATA := "data:"

  /** One line of the stream: the event name then in force, and the event read, if any. */
  function ReadLine(current: string, raw: string): (string, Option<Event>) {
    var line := Strip(raw);
    if line == "" then (current, None)
    else if EVENT <= line then (Strip(line[|EVENT|..]), None)
    else if DATA <= line then (current, Some(Event(current, Strip(line[|DATA|..]))))
    else (current, None)
  }

  function ReadLines(current: string, lines: seq<string>): seq<Event>
    decreases |lines|
  {
    if lines == [] then [] else
    var (next, event) := ReadLine(current, lines[0]);
    (if event.Some? then [event.value] else []) + ReadLines(next, lines[1..])
  }

  method ReadSseEvents(raw: string) returns (events: seq<Event>)
    ensures events == ReadLines("", SplitLines(IsNewline, raw))
  {
    hide SplitLines, Strip;
    var lines := SplitLines(IsNewline, raw);
    events := [];
    var current := "";
    for i := 0 to |lines|
      invariant events + ReadLines(current, lines[i..]) == ReadLines("", lines)
    {
      assert lines[i..][0] == lines[i] && lines[i..][1..] == lines[i + 1..];
      ghost var before, name := events, current;
      var line := Strip(lines[i]);
      if line != "" {
        if EVENT <= line {
          current := Strip(line[|EVENT|..]);
        } else if DATA <= line {
          events := events + [Event(current, Strip(line[|DATA|..]))];
        }
      }
      OneMore(before, name, lines[i..]);
    }
    assert events + [] == events;
  }

  lemma OneMore(events: seq<Event>, current: string, lines: seq<string>)
    requires lines != []
    ensures var (next, event) := ReadLine(current, lines[0]);
            events + ReadLines(current, lines)
            == (if event.Some? then events + [event.value] else events) + ReadLines(next, lines[1..])
  {
    hide ReadLine;
  }

  /** What the client makes of a stream. */
  datatype Reply = Reply(text: string, stages: seq<string>, complete: bool)

  /** What the client keeps while it goes through the events. */
  datatype Fold = Fold(stages: seq<string>, chunks: seq<string>, final: Option<string>, sawDone: bool)

  const START := Fold([], [], None, false)

  function Take(c: Codec, f: Fold, e: Event): Fold {
    var obj := c.dec(e.data);
    if e.name == "progress" then
      if obj.Some? && obj.value.Progress? && obj.value.stage != ""
      then f.(stages := f.stages + [obj.value.stage]) else f
    else if e.name == "chunk" then
      if obj.Some? && obj.value.Chunk? && obj.value.text != "" then f.(chunks := f.chunks + [obj.value.text]) else f
    else if e.name == "final" then
      if obj.Some? && obj.value.Final? then f.(final := Some(obj.value.response)) else f
    else if e.name == "done" then f.(sawDone := true)
    else f
  }

  function TakeAll(c: Codec, f: Fold, events: seq<Event>): Fold
    decreases |events|
  {
    if events == [] then f else TakeAll(c, Take(c, f, events[0]), events[1..])
  }

  function Conclude(f: Fold): Reply {
    var joined := Strip(Concat(f.chunks));
    Reply(if joined != "" then joined else if f.final.Some? then Strip(f.final.value) else "",
          f.stages, f.final.Some? && f.sawDone)
  }

  function Receive(c: Codec, raw: string): Reply {
    Conclude(TakeAll(c, START, ReadLines("", SplitLines(IsNewline, raw))))
  }

  method CallStream(c: Codec, raw: string) returns (reply: Reply)
    ensures reply == Receive(c, raw)
  {
    var events := ReadSseEvents(raw);
    var f := START;
    for i := 0 to |events|
      invariant TakeAll(c, f, events[i..]) == TakeAll(c, START, events)
    {
      assert events[i..][0] == events[i] && events[i..][1..] == events[i + 1..];
      f := Take(c, f, events[i]);
    }
    var joined := Strip(Concat(f.chunks));
    var text := if joined != "" then joined else if f.final.Some? then Strip(f.final.value) else "";
    reply := Reply(text, f.stages, f.final.Some? && f.sawDone);
  }

  // ---------------------------------------------------------------- framing round trip

  lemma RenderIsUnlines(c: Codec, f: Frame)
    ensures Render(c, f) == Unlines(FrameLines(c, f))
  {
    var l := FrameLines(c, f);
    assert l[1..][1..][1..] == [];
    assert Unlines(l[1..][1..]) == "" + "\n" + "";
  }

  lemma {:induction false} RenderAllIsUnlines(c: Codec, frames: seq<Frame>)
    ensures RenderAll(c, frames) == Unlines(AllLines(c, frames))
  {
    if frames != [] {
      RenderIsUnlines(c, frames[0]);
      RenderAllIsUnlines(c, frames[1..]);
      UnlinesConcat(FrameLines(c, frames[0]), AllLines(c, frames[1..]));
    }
  }

  lemma NameIsPlain(e: EventName)
    ensures Name(e) != "" && Tight(IsSpace, Name(e)) && OneLine(IsNewline, Name(e))
  {
  }

  lemma {:induction false} AllLinesOneLine(c: Codec, frames: seq<Frame>)
    requires GoodCodec(c)
    ensures AllOneLine(IsNewline, AllLines(c, frames))
  {
    if frames != [] {
      AllLinesOneLine(c, frames[1..]);
      NameIsPlain(frames[0].event);
      var l := FrameLines(c, frames[0]);
      assert OneLine(IsNewline, c.enc(frames[0].data));
      assert OneLine(IsNewline, l[0]) && OneLine(IsNewline, l[1]) && OneLine(IsNewline, l[2]);
    }
  }

  /** A field line with a value that is not blank at its ends. */
  lemma FieldLine(prefix: string, value: string)
    requires value != "" && Tight(IsSpace, value) && (prefix == EVENT || prefix == DATA)
    ensures Strip(prefix + " " + value) == prefix + " " + value
    ensures Strip((prefix + " " + value)[|prefix|..]) == value
  {
    var line := prefix + " " + value;
    StripTight(IsSpace, line);
    assert line[|prefix|..] == " " + value;
    assert (" " + value)[1..] == value;
    assert LStrip(IsSpace, " " + value) == value;
    StripTight(IsSpace, value);
  }

  lemma ReadEventLine(current: string, e: EventName)
    ensures ReadLine(current, "event: " + Name(e)) == (Name(e), None)
  {
    hide Strip;
    NameIsPlain(e);
    FieldLine(EVENT, Name(e));
    assert "event: " + Name(e) == EVENT + " " + Name(e);
    assert EVENT <= EVENT + " " + Name(e);
  }

  lemma ReadDataLine(current: string, data: string)
    requires data != "" && Tight(IsSpace, data)
    ensures ReadLine(current, "data: " + data) == (current, Some(Event(current, data)))
  {
    hide Strip;
    FieldLine(DATA, data);
    assert "data: " + data == DATA + " " + data;
    assert DATA <= DATA + " " + data;
    assert ("data: " + data)[0] == 'd' && EVENT[0] == 'e';
  }

  lemma ReadBlankLine(current: string)
    ensures ReadLine(current, "") == (current, None)
  {
  }

  lemma ReadFrame(c: Codec, f: Frame, current: string, rest: seq<string>)
    requires GoodCodec(c)
    ensures ReadLines(current, FrameLines(c, f) + rest)
         == [Event(Name(f.event), c.enc(f.data))] + ReadLines(Name(f.event), rest)
  {
    ReadEventLine(current, f.event);
    assert c.enc(f.data) != "" && Tight(IsSpace, c.enc(f.data));
    ReadDataLine(Name(f.event), c.enc(f.data));
    ReadBlankLine(Name(f.event));
    hide ReadLine, GoodCodec, Name;
    var l := FrameLines(c, f) + rest;
    ReadThree(current, l);
    assert l[3..] == rest;
  }

  lemma ReadThree(current: string, l: seq<string>)
    requires |l| >= 3
    ensures var (n1, e1) := ReadLine(current, l[0]);
            var (n2, e2) := ReadLine(n1, l[1]);
            var (n3, e3) := ReadLine(n2, l[2]);
            ReadLines(current, l) == (if e1.Some? then [e1.value] else [])
              + ((if e2.Some? then [e2.value] else [])
                 + ((if e3.Some? then [e3.value] else []) + ReadLines(n3, l[3..])))
  {
    hide ReadLine;
    assert l[1..][0] == l[1] && l[1..][1..] == l[2..] && l[2..][0] == l[2] && l[2..][1..] == l[3..];
    var (n1, e1) := ReadLine(current, l[0]);
    var (n2, e2) := ReadLine(n1, l[1]);
    var (n3, e3) := ReadLine(n2, l[2]);
    assert ReadLines(n2, l[2..]) == (if e3.Some? then [e3.value] else []) + ReadLines(n3, l[3..]);
    assert ReadLines(n1, l[1..]) == (if e2.Some? then [e2.value] else []) + ReadLines(n2, l[2..]);
  }

  function Events(c: Codec, frames: seq<Frame>): seq<Event> {
    seq(|frames|, i requires 0 <= i < |frames| => Event(Name(frames[i].event), c.enc(frames[i].data)))
  }

  lemma {:induction false} ReadAll(c: Codec, frames: seq<Frame>, current: string)
    requires GoodCodec(c)
    ensures ReadLines(current, AllLines(c, frames)) == Events(c, frames)
  {
    hide GoodCodec, ReadLine;
    if frames != [] {
      ReadFrame(c, frames[0], current, AllLines(c, frames[1..]));
      ReadAll(c, frames[1..], Name(frames[0].event));
      assert Events(c, frames) == [Event(Name(frames[0].event), c.enc(frames[0].data))] + Events(c, frames[1..]);
    }
  }

  /** Framing loses nothing: the reader gets every frame back, in order, under its name. */
  lemma FramingRoundTrip(c: Codec, frames: seq<Frame>)
    requires GoodCodec(c)
    ensures ReadLines("", SplitLines(IsNewline, RenderAll(c, frames))) == Events(c, frames)
  {
    hide GoodCodec, ReadLine;
    RenderAllIsUnlines(c, frames);
    AllLinesOneLine(c, frames);
    SplitUnlines(IsNewline, AllLines(c, frames));
    ReadAll(c, frames, "");
  }

  // ---------------------------------------------------------------- the whole round trip

  /** What the client does with one frame that arrived intact. */
  function TakeFrame(f: Fold, x: Frame): Fold {
    match x.event
    case ProgressEvent => if x.data.Progress? && x.data.stage != "" then f.(stages := f.stages + [x.data.stage]) else f
    case ChunkEvent => if x.data.Chunk? && x.data.text != "" then f.(chunks := f.chunks + [x.data.text]) else f
    case FinalEvent => if x.data.Final? then f.(final := Some(x.data.response)) else f
    case DoneEvent => f.(sawDone := true)
    case _ => f
  }

  function TakeFrames(f: Fold, frames: seq<Frame>): Fold {
    if frames == [] then f else TakeFrame(TakeFrames(f, frames[..|frames| - 1]), frames[|frames| - 1])
  }

  lemma TakeIsTakeFrame(c: Codec, f: Fold, x: Frame)
    requires GoodCodec(c)
    ensures Take(c, f, Event(Name(x.event), c.enc(x.data))) == TakeFrame(f, x)
  {
    assert c.dec(c.enc(x.data)) == Some(x.data);
    assert |"progress"| == 8 && |"heartbeat"| == 9 && |"error"| == 5 && |"chunk"| == 5 && |"artifact"| == 8;
    assert "progress"[0] != "artifact"[0] && "error"[0] != "chunk"[0];
    assert "error"[0] != "final"[0] && "chunk"[0] != "final"[0];
  }

  lemma {:induction false} TakeAllSnoc(c: Codec, f: Fold, events: seq<Event>, e: Event)
    ensures TakeAll(c, f, events + [e]) == Take(c, TakeAll(c, f, events), e)
    decreases |events|
  {
    hide Take;
    if events == [] {
      assert events + [e] == [e] && [e][1..] == [];
    } else {
      assert (events + [e])[1..] == events[1..] + [e];
      TakeAllSnoc(c, Take(c, f, events[0]), events[1..], e);
    }
  }

  lemma {:induction false} TakeAllIsTakeFrames(c: Codec, f: Fold, frames: seq<Frame>)
    requires GoodCodec(c)
    ensures TakeAll(c, f, Events(c, frames)) == TakeFrames(f, frames)
  {
    hide GoodCodec, Take, TakeFrame;
    if frames != [] {
      var init, last := frames[..|frames| - 1], frames[|frames| - 1];
      TakeAllIsTakeFrames(c, f, init);
      TakeIsTakeFrame(c, TakeFrames(f, init), last);
      TakeAllSnoc(c, f, Events(c, init), Event(Name(last.event), c.enc(last.data)));
      assert Events(c, frames) == Events(c, init) + [Event(Name(last.event), c.enc(last.data))];
    }
  }

  lemma {:induction false} TakeConcat(f: Fold, a: seq<Frame>, b: seq<Frame>)
    ensures TakeFrames(f, a + b) == TakeFrames(TakeFrames(f, a), b)
  {
    hide TakeFrame;
    if b == [] {
      assert a + b == a;
    } else {
      assert (a + b)[..|a + b| - 1] == a + b[..|b| - 1];
      TakeConcat(f, a, b[..|b| - 1]);
    }
  }

  /** Stages worth showing, in order. */
  function StagesOf(payloads: seq<Payload>): seq<string> {
    if payloads == [] then []
    else
      var last := payloads[|payloads| - 1];
      StagesOf(payloads[..|payloads| - 1]) + if last.Progress? && last.stage != "" then [last.stage] else []
  }

  lemma {:induction false} TakeProgress(frames: seq<Frame>)
    requires OnlyProgress(frames)
    ensures TakeFrames(START, frames) == START.(stages := StagesOf(ProgressOf(frames)))
  {
    if frames != [] {
      var init, last := frames[..|frames| - 1], frames[|frames| - 1];
      TakeProgress(init);
      if last.event.ProgressEvent? {
        assert ProgressOf(frames) == ProgressOf(init) + [last.data];
        assert ProgressOf(frames)[..|ProgressOf(frames)| - 1] == ProgressOf(init);
      } else {
        assert ProgressOf(frames) == ProgressOf(init);
      }
    }
  }

  function NonEmpty(parts: seq<string>): seq<string> {
    if parts == [] then [] else (if parts[0] != "" then [parts[0]] else []) + NonEmpty(parts[1..])
  }

  lemma {:induction false} ConcatNonEmpty(parts: seq<string>)
    ensures Concat(NonEmpty(parts)) == Concat(parts)
  {
    if parts != [] {
      ConcatNonEmpty(parts[1..]);
      if parts[0] == "" {
        assert NonEmpty(parts) == NonEmpty(parts[1..]);
        assert Concat(parts) == Concat(parts[1..]);
      } else {
        assert NonEmpty(parts)[1..] == NonEmpty(parts[1..]);
      }
    }
  }

  lemma {:induction false} TakeChunks(f: Fold, runId: string, parts: seq<string>, from: int)
    ensures TakeFrames(f, ChunkFrames(runId, parts, from)) == f.(chunks := f.chunks + NonEmpty(parts))
    decreases |parts|
  {
    hide TakeFrames;
    if parts == [] {
      assert f.chunks + [] == f.chunks;
      assert TakeFrames(f, []) == f by {
        TakeNone(f);
      }
    } else {
      var x := Frame(ChunkEvent, Chunk(runId, from, parts[0]));
      var head := if parts[0] != "" then [parts[0]] else [];
      var rest := ChunkFrames(runId, parts[1..], from + 1);
      TakeConcat(f, [x], rest);
      TakeOne(f, x);
      TakeChunks(TakeFrame(f, x), runId, parts[1..], from + 1);
      assert TakeFrame(f, x) == f.(chunks := f.chunks + head);
      assert (f.chunks + head) + NonEmpty(parts[1..]) == f.chunks + (head + NonEmpty(parts[1..]));
    }
  }

  lemma TakeNone(f: Fold)
    ensures TakeFrames(f, []) == f
  {
  }

  lemma TakeOne(f: Fold, x: Frame)
    ensures TakeFrames(f, [x]) == TakeFrame(f, x)
  {
    hide TakeFrame;
    var one: seq<Frame> := [x];
    assert one[..0] == [];
  }

  lemma {:induction false} TakeArtifacts(f: Fold, runId: string, artifacts: seq<string>)
    ensures TakeFrames(f, ArtifactFrames(runId, artifacts)) == f
  {
    if artifacts != [] {
      var n := |artifacts| - 1;
      TakeArtifacts(f, runId, artifacts[..n]);
      assert ArtifactFrames(runId, artifacts)[..n] == ArtifactFrames(runId, artifacts[..n]);
    }
  }

  lemma TakeTwo(f: Fold, a: Frame, b: Frame)
    ensures TakeFrames(f, [a, b]) == TakeFrame(TakeFrame(f, a), b)
  {
    hide TakeFrame;
    var two: seq<Frame> := [a, b];
    var one: seq<Frame> := [a];
    assert two[..1] == one && one[..0] == [];
    assert TakeFrames(f, one) == TakeFrame(f, a);
  }

  lemma TakeClosing(f: Fold, outcome: Outcome)
    ensures TakeFrames(f, Closing(outcome)) ==
            match outcome
            case Failed(_) => f.(sawDone := true)
            case Succeeded(_, text, _) =>
              f.(chunks := f.chunks + NonEmpty(Chunks(text)), final := Some(text), sawDone := true)
  {
    match outcome {
      case Failed(message) =>
        TakeTwo(f, Frame(ErrorEvent, Error(message)), Frame(DoneEvent, Empty));
      case Succeeded(runId, text, artifacts) =>
        var chunks, arts := ChunkFrames(runId, Chunks(text), 0), ArtifactFrames(runId, artifacts);
        var g := f.(chunks := f.chunks + NonEmpty(Chunks(text)));
        TakeChunks(f, runId, Chunks(text), 0);
        TakeConcat(f, chunks, arts);
        TakeArtifacts(g, runId, artifacts);
        TakeConcat(f, chunks + arts, [Frame(FinalEvent, Final(runId, text)), Frame(DoneEvent, Empty)]);
        TakeTwo(g, Frame(FinalEvent, Final(runId, text)), Frame(DoneEvent, Empty));
    }
  }

  lemma ReceiveFolds(c: Codec, frames: seq<Frame>)
    requires GoodCodec(c)
    ensures Receive(c, RenderAll(c, frames)) == Conclude(TakeFrames(START, frames))
  {
    hide GoodCodec, ReadLines, SplitLines, RenderAll, Conclude;
    FramingRoundTrip(c, frames);
    TakeAllIsTakeFrames(c, START, frames);
  }

  // ---------------------------------------------------------------- any stream

  /** Frames that say what their names promise. */
  predicate Plain(frames: seq<Frame>) {
    forall x | x in frames ::
      && (x.event.ChunkEvent? <==> x.data.Chunk?) && (x.event.FinalEvent? <==> x.data.Final?)
      && (x.event.ProgressEvent? <==> x.data.Progress?)
  }

  lemma {:induction false} ConcatSnoc(parts: seq<string>, last: string)
    ensures Concat(parts + [last]) == Concat(parts) + last
  {
    if parts == [] {
      assert parts + [last] == [last] && [last][1..] == [] && Concat([]) == "" && last + "" == last;
    } else {
      assert (parts + [last])[1..] == parts[1..] + [last];
      ConcatSnoc(parts[1..], last);
    }
  }

  lemma {:induction false} ChunkTextSnoc(frames: seq<Frame>, last: Frame)
    ensures ChunkText(frames + [last]) == ChunkText(frames) + if last.data.Chunk? then last.data.text else ""
  {
    if frames == [] {
      var one := [last];
      assert frames + [last] == one && one[1..] == [];
      assert ChunkText([]) == "";
    } else {
      assert (frames + [last])[1..] == frames[1..] + [last];
      ChunkTextSnoc(frames[1..], last);
    }
  }

  /** The final frame at `k` is the last one. */
  predicate LastFinal(frames: seq<Frame>, k: int) {
    0 <= k < |frames| && frames[k].data.Final? && forall i | k < i < |frames| :: !frames[i].data.Final?
  }

  ghost predicate HasFinal(frames: seq<Frame>) {
    exists x | x in frames :: x.data.Final?
  }

  ghost predicate HasDone(frames: seq<Frame>) {
    exists x | x in frames :: x.event.DoneEvent?
  }

  lemma {:induction false} TakesTexts(frames: seq<Frame>)
    requires Plain(frames)
    ensures Concat(TakeFrames(START, frames).chunks) == ChunkText(frames)
  {
    hide ChunkText, Concat;
    if frames == [] {
      assert ChunkText([]) == "" == Concat([]) by {
        NoText();
      }
    } else {
      var init, last := frames[..|frames| - 1], frames[|frames| - 1];
      assert frames == init + [last];
      TakesTexts(init);
      ChunkTextSnoc(init, last);
      if last.data.Chunk? {
        ConcatSnoc(TakeFrames(START, init).chunks, last.data.text);
      }
    }
  }

  lemma NoText()
    ensures ChunkText([]) == "" == Concat([])
  {
  }

  lemma {:induction false} TakesEnds(frames: seq<Frame>)
    requires Plain(frames)
    ensures var f := TakeFrames(START, frames);
            && (f.final.Some? <==> HasFinal(frames)) && (f.sawDone <==> HasDone(frames))
            && (forall k | LastFinal(frames, k) :: f.final == Some(frames[k].data.response))
  {
    if frames != [] {
      var init, last := frames[..|frames| - 1], frames[|frames| - 1];
      assert frames == init + [last];
      TakesEnds(init);
      assert HasFinal(frames) <==> HasFinal(init) || last.data.Final?;
      assert HasDone(frames) <==> HasDone(init) || last.event.DoneEvent?;
      forall k | LastFinal(frames, k) ensures TakeFrames(START, frames).final == Some(frames[k].data.response) {
        assert k < |init| ==> LastFinal(init, k) && init[k] == frames[k];
      }
    }
  }

  /** What the client makes of any frames, from this server or another one: the text of the
      chunks, or where that is blank the last final answer; it takes the stream for complete
      exactly if there were a final answer and the end of it. */
  lemma ReceivesAny(c: Codec, frames: seq<Frame>)
    requires GoodCodec(c) && Plain(frames)
    ensures var r := Receive(c, RenderAll(c, frames));
            && (Strip(ChunkText(frames)) != "" ==> r.text == Strip(ChunkText(frames)))
            && (Strip(ChunkText(frames)) == "" ==>
                  && (!HasFinal(frames) ==> r.text == "")
                  && (forall k | LastFinal(frames, k) :: r.text == Strip(frames[k].data.response)))
            && (r.complete <==> HasFinal(frames) && HasDone(frames))
  {
    hide GoodCodec, Receive, RenderAll, TakeFrames, Strip, Plain, HasFinal, HasDone;
    ReceiveFolds(c, frames);
    TakesTexts(frames);
    TakesEnds(frames);
  }

  // ---------------------------------------------------------------- the streams of this server

  /** The client recovers exactly the stripped answer, for every text: empty, blank, of any
      length, with any line ends in it; sees the stages of the progress sent, in order; and
      knows that the stream was complete. After a failed run it gets no text and knows it. */
  lemma StreamRoundTrip(c: Codec, body: seq<Frame>, outcome: Outcome)
    requires GoodCodec(c) && OnlyProgress(body)
    ensures Receive(c, RenderAll(c, body + Closing(outcome))) ==
            match outcome
            case Failed(_) => Reply("", StagesOf(ProgressOf(body)), false)
            case Succeeded(_, text, _) => Reply(Strip(text), StagesOf(ProgressOf(body)), true)
  {
    hide GoodCodec, Receive, RenderAll, Chunks, Strip;
    ReceiveFolds(c, body + Closing(outcome));
    TakeConcat(START, body, Closing(outcome));
    TakeProgress(body);
    var f := START.(stages := StagesOf(ProgressOf(body)));
    TakeClosing(f, outcome);
    StripEmpty();
    if outcome.Succeeded? {
      assert [] + NonEmpty(Chunks(outcome.text)) == NonEmpty(Chunks(outcome.text));
      ConcatNonEmpty(Chunks(outcome.text));
      ChunksPartition(outcome.text);
    }
  }

  lemma StripEmpty()
    ensures Strip("") == "" && Concat([]) == ""
  {
  }

  /** End to end: whatever the schedule, a stream that ends and is read back gives the client
      the stages of everything that was put, and the answer. */
  method StreamAndReceive(c: Codec, schedule: seq<seq<EnvStep>>)
    returns (finished: bool, reply: Reply, stream: EventStream)
    requires GoodCodec(c)
    ensures fresh(stream)
    ensures finished ==> stream.run.Ended?
    ensures finished ==>
              (reply == match stream.run.outcome
                        case Failed(_) => Reply("", StagesOf(stream.puts), false)
                        case Succeeded(_, text, _) => Reply(Strip(text), StagesOf(stream.puts), true))
  {
    stream := new EventStream();
    assert stream.Conserved();
    ghost var body;
    finished, body := stream.Generate(schedule);
    reply := CallStream(c, RenderAll(c, stream.out));
    if finished {
      StreamRoundTrip(c, body, stream.run.outcome);
    }
  }
}
