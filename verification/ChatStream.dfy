/** The chat event stream: one reader of a progress queue beside the running chat, then the
    answer in chunks (app.py:2422-2519).

    A schedule lists what the event loop lets happen at each suspension of the generator, so
    every interleaving of the producer, the reader task and the generator is some schedule. */
module ChatStream {
  import opened Basics

  datatype Payload =
    | Progress(stage: string, message: string)
    | Heartbeat
    | Error(message: string)
    | Chunk(runId: string, index: int, text: string)
    | Artifact(runId: string, index: int, artifact: string)
    | Final(runId: string, response: string)
    | Empty

  datatype EventName = ProgressEvent | HeartbeatEvent | ErrorEvent | ChunkEvent | ArtifactEvent | FinalEvent | DoneEvent

  datatype Frame = Frame(event: EventName, data: Payload)

  datatype Outcome =
    | Succeeded(runId: string, text: string, artifacts: seq<string>)
    | Failed(message: string)

  // ---------------------------------------------------------------- the answer

  const CHUNK_SIZE := 120

  function Chunks(text: string): seq<string> {
    if |text| <= CHUNK_SIZE then [text] else [text[..CHUNK_SIZE]] + Chunks(text[CHUNK_SIZE..])
  }

  function Concat(parts: seq<string>): string {
    if parts == [] then "" else parts[0] + Concat(parts[1..])
  }

  /** Chunking loses nothing, and every chunk but the last is full; there is always one. */
  lemma {:induction false} ChunksPartition(text: string)
    ensures Concat(Chunks(text)) == text && |Chunks(text)| == Max(1, (|text| + CHUNK_SIZE - 1) / CHUNK_SIZE)
    ensures forall i | 0 <= i < |Chunks(text)| - 1 :: |Chunks(text)[i]| == CHUNK_SIZE
    ensures |Chunks(text)[|Chunks(text)| - 1]| <= CHUNK_SIZE
    ensures |text| > 0 ==> forall i | 0 <= i < |Chunks(text)| :: Chunks(text)[i] != ""
  {
    if |text| > CHUNK_SIZE {
      ChunksPartition(text[CHUNK_SIZE..]);
      assert text == text[..CHUNK_SIZE] + text[CHUNK_SIZE..];
    }
  }

  function ChunkFrames(runId: string, parts: seq<string>, from: int): seq<Frame> {
    if parts == [] then [] else
    [Frame(ChunkEvent, Chunk(runId, from, parts[0]))] + ChunkFrames(runId, parts[1..], from + 1)
  }

  function ArtifactFrames(runId: string, artifacts: seq<string>): seq<Frame> {
    seq(|artifacts|, i requires 0 <= i < |artifacts| => Frame(ArtifactEvent, Artifact(runId, i, artifacts[i])))
  }

  /** The frames after the run ended. */
  function Closing(outcome: Outcome): seq<Frame> {
    match outcome
    case Failed(message) => [Frame(ErrorEvent, Error(message)), Frame(DoneEvent, Empty)]
    case Succeeded(runId, text, artifacts) =>
      ChunkFrames(runId, Chunks(text), 0) + ArtifactFrames(runId, artifacts)
      + [Frame(FinalEvent, Final(runId, text)), Frame(DoneEvent, Empty)]
  }

  /** The texts of chunk frames, put together. */
  function ChunkText(frames: seq<Frame>): string {
    if frames == [] then ""
    else (if frames[0].data.Chunk? then frames[0].data.text else "") + ChunkText(frames[1..])
  }

  lemma {:induction false} ChunkFramesSay(runId: string, parts: seq<string>, from: int, k: nat)
    requires k < |parts|
    ensures |ChunkFrames(runId, parts, from)| == |parts|
    ensures ChunkFrames(runId, parts, from)[k] == Frame(ChunkEvent, Chunk(runId, from + k, parts[k]))
    decreases |parts|
  {
    if k > 0 {
      ChunkFramesSay(runId, parts[1..], from + 1, k - 1);
    } else if |parts| > 1 {
      ChunkFramesSay(runId, parts[1..], from + 1, 0);
    } else {
      assert ChunkFrames(runId, parts[1..], from + 1) == [];
    }
  }

  lemma {:induction false} ChunkTextOfChunks(runId: string, parts: seq<string>, from: int)
    ensures ChunkText(ChunkFrames(runId, parts, from)) == Concat(parts)
    ensures |ChunkFrames(runId, parts, from)| == |parts|
  {
    if parts != [] {
      ChunkTextOfChunks(runId, parts[1..], from + 1);
      assert ChunkFrames(runId, parts, from)[1..] == ChunkFrames(runId, parts[1..], from + 1);
    }
  }

  /** What a stream ends with. A failed run sends its message. A run that succeeded sends its
      text in chunks numbered from 0, no chunk longer than 120, then its artifacts, numbered and
      in order, then the whole response. Either way the last frame is the end of the stream. */
  lemma ClosingSays(outcome: Outcome)
    ensures var frames := Closing(outcome); var n := |frames|;
            && n >= 2 && frames[n - 1] == Frame(DoneEvent, Empty)
            && match outcome {
                 case Failed(message) => n == 2 && frames[0] == Frame(ErrorEvent, Error(message))
                 case Succeeded(runId, text, artifacts) =>
                   var chunks := n - |artifacts| - 2;
                   && chunks >= 1 && ChunkText(frames[..chunks]) == text
                   && (forall k | 0 <= k < chunks ::
                         && frames[k].event.ChunkEvent? && frames[k].data.Chunk?
                         && frames[k].data.runId == runId && frames[k].data.index == k && |frames[k].data.text| <= 120)
                   && (forall k | 0 <= k < |artifacts| ::
                         frames[chunks + k] == Frame(ArtifactEvent, Artifact(runId, k, artifacts[k])))
                   && frames[n - 2] == Frame(FinalEvent, Final(runId, text))
               }
  {
    if outcome.Succeeded? {
      hide Chunks, ChunkFrames, Concat, ChunkText;
      var Succeeded(runId, text, artifacts) := outcome;
      var chunks, frames := ChunkFrames(runId, Chunks(text), 0), Closing(outcome);
      ChunksSay(runId, text);
      assert frames[..|chunks|] == chunks;
    }
  }

  lemma ChunksSay(runId: string, text: string)
    ensures var frames := ChunkFrames(runId, Chunks(text), 0);
            && |frames| >= 1 && ChunkText(frames) == text
            && forall k | 0 <= k < |frames| ::
                 && frames[k].event.ChunkEvent? && frames[k].data.Chunk?
                 && frames[k].data.runId == runId && frames[k].data.index == k && |frames[k].data.text| <= 120
  {
    hide Chunks, ChunkFrames, Concat, ChunkText;
    var parts := Chunks(text);
    ChunksPartition(text);
    ChunkTextOfChunks(runId, parts, 0);
    forall k | 0 <= k < |parts|
      ensures ChunkFrames(runId, parts, 0)[k] == Frame(ChunkEvent, Chunk(runId, k, parts[k]))
    {
      ChunkFramesSay(runId, parts, 0, k);
    }
  }

  /** The frames still to come when the loop over the text stands at `index`. */
  function Remaining(runId: string, text: string, index: int): seq<Frame> {
    if 0 <= index <= |text| && index < Max(1, |text|)
    then ChunkFrames(runId, Chunks(text[index..]), index / CHUNK_SIZE) else []
  }

  lemma ChunkStep(runId: string, text: string, index: int)
    requires 0 <= index <= |text| && index < Max(1, |text|) && index % CHUNK_SIZE == 0
    ensures Remaining(runId, text, index)
         == [Frame(ChunkEvent, Chunk(runId, index / CHUNK_SIZE, text[index..Min(index + CHUNK_SIZE, |text|)]))]
            + Remaining(runId, text, index + CHUNK_SIZE)
  {
    var rest := text[index..];
    if |rest| > CHUNK_SIZE {
      assert rest[..CHUNK_SIZE] == text[index..index + CHUNK_SIZE] && rest[CHUNK_SIZE..] == text[index + CHUNK_SIZE..];
      assert Chunks(rest)[1..] == Chunks(text[index + CHUNK_SIZE..]);
    } else {
      assert text[index..Min(index + CHUNK_SIZE, |text|)] == rest;
      var one: seq<string> := [rest];
      assert Chunks(rest) == one && one[1..] == [];
      assert Remaining(runId, text, index + CHUNK_SIZE) == [];
      assert ChunkFrames(runId, one, index / CHUNK_SIZE) == [Frame(ChunkEvent, Chunk(runId, index / CHUNK_SIZE, rest))];
    }
  }

  method EmitChunks(runId: string, text: string) returns (frames: seq<Frame>)
    ensures frames == ChunkFrames(runId, Chunks(text), 0)
  {
    hide ChunkFrames, Remaining;
    frames := [];
    var index := 0;
    assert Remaining(runId, text, 0) == ChunkFrames(runId, Chunks(text), 0) by {
      AllRemain(runId, text);
    }
    while index < Max(1, |text|)
      invariant index % CHUNK_SIZE == 0 && index >= 0
      invariant frames + Remaining(runId, text, index) == ChunkFrames(runId, Chunks(text), 0)
      decreases Max(1, |text|) - index
    {
      ChunkStep(runId, text, index);
      var chunk := text[index..Min(index + CHUNK_SIZE, |text|)];
      var frame := Frame(ChunkEvent, Chunk(runId, index / CHUNK_SIZE, chunk));
      assert frames + ([frame] + Remaining(runId, text, index + CHUNK_SIZE))
          == (frames + [frame]) + Remaining(runId, text, index + CHUNK_SIZE);
      frames := frames + [frame];
      index := index + CHUNK_SIZE;
    }
    NoneRemain(runId, text, index);
    assert frames + [] == frames;
  }

  lemma AllRemain(runId: string, text: string)
    ensures Remaining(runId, text, 0) == ChunkFrames(runId, Chunks(text), 0)
  {
    assert text[0..] == text;
  }

  lemma NoneRemain(runId: string, text: string, index: int)
    requires index >= Max(1, |text|)
    ensures Remaining(runId, text, index) == []
  {
  }

  method EmitClosing(outcome: Outcome) returns (frames: seq<Frame>)
    ensures frames == Closing(outcome)
  {
    hide Chunks, ChunkFrames;
    if outcome.Failed? {
      return [Frame(ErrorEvent, Error(outcome.message)), Frame(DoneEvent, Empty)];
    }
    var Succeeded(runId, text, artifacts) := outcome;
    frames := EmitChunks(runId, text);
    ghost var chunks := frames;
    for i := 0 to |artifacts|
      invariant frames == chunks + ArtifactFrames(runId, artifacts)[..i]
    {
      frames := frames + [Frame(ArtifactEvent, Artifact(runId, i, artifacts[i]))];
    }
    assert ArtifactFrames(runId, artifacts)[..|artifacts|] == ArtifactFrames(runId, artifacts);
    frames := frames + [Frame(FinalEvent, Final(runId, text)), Frame(DoneEvent, Empty)];
  }

  // ---------------------------------------------------------------- what happens meanwhile

  /** One thing another task does: the chat puts progress, the chat ends, or the reader task
      gets to run. */
  datatype EnvStep = Put(payload: Payload) | Finish(outcome: Outcome) | ReaderRuns

  datatype Reader = NoRead | Reading | HasRead(payload: Payload)

  datatype ChatRun = Running | Ended(outcome: Outcome)

  /** Progress payloads sent, in order. */
  function ProgressOf(frames: seq<Frame>): seq<Payload> {
    if frames == [] then []
    else
      var last := frames[|frames| - 1];
      ProgressOf(frames[..|frames| - 1]) + if last.event.ProgressEvent? then [last.data] else []
  }

  predicate OnlyProgress(frames: seq<Frame>) {
    forall i | 0 <= i < |frames| :: frames[i].event.ProgressEvent? || frames[i].event.HeartbeatEvent?
  }

  predicate HasFinish(steps: seq<EnvStep>) {
    exists i | 0 <= i < |steps| :: steps[i].Finish?
  }

  lemma HasFinishNext(steps: seq<EnvStep>, i: nat)
    requires i < |steps|
    ensures HasFinish(steps[..i + 1]) <==> HasFinish(steps[..i]) || steps[i].Finish?
  {
    assert steps[..i + 1] == steps[..i] + [steps[i]];
    if HasFinish(steps[..i]) {
      var j :| 0 <= j < i && steps[..i][j].Finish?;
      assert steps[..i + 1][j].Finish?;
    }
    assert steps[..i + 1][i] == steps[i];
  }

  lemma NoneYet(steps: seq<EnvStep>)
    ensures !HasFinish(steps[..0])
  {
  }

  /** The run ends during these suspensions. */
  predicate Finishes(schedule: seq<seq<EnvStep>>) {
    exists i | 0 <= i < |schedule| :: HasFinish(schedule[i])
  }

  lemma FinishesNext(schedule: seq<seq<EnvStep>>, at: nat)
    requires at < |schedule|
    ensures Finishes(schedule[..at + 1]) <==> Finishes(schedule[..at]) || HasFinish(schedule[at])
  {
    hide HasFinish;
    var next := schedule[..at + 1];
    assert forall i | 0 <= i < at :: next[i] == schedule[..at][i];
    assert next[at] == schedule[at];
  }

  lemma NothingFinishes(schedule: seq<seq<EnvStep>>)
    ensures !Finishes(schedule[..0])
  {
  }

  lemma NotYet(schedule: seq<seq<EnvStep>>, m: nat, n: nat)
    requires m <= n <= |schedule| && !Finishes(schedule[..n])
    ensures !Finishes(schedule[..m])
  {
    hide HasFinish;
    forall i | 0 <= i < m ensures !HasFinish(schedule[..m][i]) {
      assert schedule[..n][i] == schedule[..m][i];
    }
  }

  class EventStream {
    var queue: seq<Payload>
    var reader: Reader
    var run: ChatRun
    var out: seq<Frame>
    ghost var puts: seq<Payload>

    constructor ()
      ensures queue == [] && reader == Reading && run == Running && out == [] && puts == []
    {
      queue, reader, run, out, puts := [], Reading, Running, [], [];
    }

    /** Taken out of the queue or still in it, but not sent. */
    function Pending(): seq<Payload>
      reads this
    {
      (if reader.HasRead? then [reader.payload] else []) + queue
    }

    /** Sent, then held by the finished read, then queued: exactly what was put, in order. */
    ghost predicate Conserved()
      reads this
    {
      ProgressOf(out) + Pending() == puts
    }

    /** The generator is suspended while other tasks run. The queue is first in, first out;
        the chat puts nothing after it ended. */
    method Suspend(steps: seq<EnvStep>)
      modifies this`queue, this`reader, this`run, this`puts
      requires Conserved()
      ensures Conserved()
      ensures old(puts) <= puts && (old(run).Ended? ==> run == old(run) && puts == old(puts))
      ensures run.Ended? <==> old(run).Ended? || HasFinish(steps)
      ensures reader.NoRead? <==> old(reader).NoRead?
      ensures reader.NoRead? && old(run).Ended? ==> queue == old(queue)
    {
      hide HasFinish, ProgressOf;
      NoneYet(steps);
      for i := 0 to |steps|
        invariant Conserved()
        invariant run.Ended? <==> old(run).Ended? || HasFinish(steps[..i])
        invariant old(puts) <= puts && (old(run).Ended? ==> run == old(run) && puts == old(puts))
        invariant reader.NoRead? <==> old(reader).NoRead?
        invariant reader.NoRead? && old(run).Ended? ==> queue == old(queue)
      {
        HasFinishNext(steps, i);
        match steps[i] {
          case Put(payload) =>
            if run.Running? {
              ghost var pending := Pending();
              queue := queue + [payload];
              puts := puts + [payload];
              assert Pending() == pending + [payload];
              assert ProgressOf(out) + (pending + [payload]) == (ProgressOf(out) + pending) + [payload];
            }
          case Finish(outcome) =>
            if run.Running? {
              run := Ended(outcome);
            }
          case ReaderRuns =>
            if reader.Reading? && queue != [] {
              ghost var before := queue;
              reader := HasRead(queue[0]);
              queue := queue[1..];
              assert [before[0]] + before[1..] == before && Pending() == before;
            }
        }
      }
      assert steps[..|steps|] == steps;
    }

    method Send(frame: Frame)
      modifies this`out
      ensures out == old(out) + [frame]
      ensures ProgressOf(out) == ProgressOf(old(out)) + if frame.event.ProgressEvent? then [frame.data] else []
    {
      out := out + [frame];
      assert out[..|out| - 1] == old(out);
    }

    /** The finished read is sent; nothing is being read until the next read is started. */
    method SendHeld()
      requires reader.HasRead? && Conserved() && OnlyProgress(out)
      modifies this`out, this`reader
      ensures reader == NoRead && Conserved() && OnlyProgress(out)
      ensures out == old(out) + [Frame(ProgressEvent, old(reader).payload)]
    {
      var latest := reader.payload;
      assert Pending() == [latest] + queue;
      Send(Frame(ProgressEvent, latest));
      reader := NoRead;
      assert Pending() == queue;
      assert ProgressOf(old(out)) + ([latest] + queue) == (ProgressOf(old(out)) + [latest]) + queue;
    }

    /** What is left in the queue once the run ended. */
    method Drain()
      requires reader.NoRead? && Conserved() && OnlyProgress(out)
      modifies this`out, this`queue
      ensures queue == [] && OnlyProgress(out) && ProgressOf(out) == puts
      ensures old(out) <= out
    {
      while queue != []
        invariant Conserved() && OnlyProgress(out) && reader.NoRead? && old(out) <= out
        decreases |queue|
      {
        var latest := queue[0];
        ghost var sent, left := ProgressOf(out), queue;
        queue := queue[1..];
        Send(Frame(ProgressEvent, latest));
        assert left == [latest] + queue;
        assert sent + ([latest] + queue) == (sent + [latest]) + queue;
      }
      assert ProgressOf(out) + [] == ProgressOf(out);
    }

    /** The generator, from its first wait to its end or to the end of the schedule. Whatever
        the schedule: while it runs, only progress and heartbeats were sent, and what was sent,
        held and queued is what was put. When it ends, the progress sent is precisely what was
        put, in order and once each, and the closing frames of the outcome follow. After every
        wait something is sent, and the stream ends within two suspensions of the end of the
        run. */
    method Generate(schedule: seq<seq<EnvStep>>) returns (finished: bool, ghost body: seq<Frame>)
      requires Conserved() && reader.Reading? && out == []
      modifies this
      ensures OnlyProgress(body)
      ensures !finished ==> out == body && Conserved() && |out| == (|schedule| + 1) / 2
      ensures |schedule| > 2 && Finishes(schedule[..|schedule| - 2]) ==> finished
      ensures finished ==> run.Ended? && ProgressOf(body) == puts && out == body + Closing(run.outcome)
    {
      hide Finishes, HasFinish, ProgressOf;
      var at := 0;
      NothingFinishes(schedule);
      while true
        invariant at <= |schedule| && Conserved() && OnlyProgress(out) && !reader.NoRead?
        invariant at == 2 * |out|
        invariant at > 0 ==> !Finishes(schedule[..at - 1])
        invariant Finishes(schedule[..at]) ==> run.Ended?
        decreases |schedule| - at
      {
        if at == |schedule| {
          if at > 2 { NotYet(schedule, at - 2, at - 1); }
          return false, out;
        }
        Suspend(schedule[at]);
        FinishesNext(schedule, at);
        at := at + 1;
        var progressDone, runDone := reader.HasRead?, run.Ended?;
        if progressDone {
          SendHeld();
          if at == |schedule| { return false, out; }
          Suspend(schedule[at]);
          FinishesNext(schedule, at);
          at := at + 1;
          assert Pending() == queue;
          reader := Reading;
          assert Pending() == queue;
        }
        if runDone { break; }
        if !progressDone && !runDone {
          HeartbeatKeeps(out);
          Send(Frame(HeartbeatEvent, Heartbeat));
          if at == |schedule| { return false, out; }
          Suspend(schedule[at]);
          FinishesNext(schedule, at);
          at := at + 1;
        }
      }
      // The read started last has not run yet, so cancelling it loses nothing.
      assert reader.Reading? && run.Ended?;
      assert Pending() == queue;
      reader := NoRead;
      assert Pending() == queue;
      Drain();
      body := out;
      var closing := EmitClosing(run.outcome);
      out := out + closing;
      finished := true;
    }

    lemma HeartbeatKeeps(frames: seq<Frame>)
      ensures ProgressOf(frames + [Frame(HeartbeatEvent, Heartbeat)]) == ProgressOf(frames)
    {
      var all := frames + [Frame(HeartbeatEvent, Heartbeat)];
      assert all[..|all| - 1] == frames;
    }
  }
}
