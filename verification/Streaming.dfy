/**
 * The streamed answer (services/gateway/streaming.py): a generator between an upstream
 * iterator and a client that may disconnect, or be cancelled where the generator waits.
 */
module Streaming {
  import opened Wrappers
  import opened BedrockClient
  import opened Json
  import opened Sse
  import Breaker

  /** How the upstream iterator ends. */
  datatype Ending = Exhausted | Raised(message: string)

  /**
   * The client: whether poll i finds it gone, and whether the generator is thrown out at
   * its s-th suspension (each poll and each frame is one).
   */
  datatype Client = Client(disconnected: nat -> bool, cancelled: nat -> bool)

  datatype Exit = Completed | Broken | Aborted | Cancelled

  datatype Outcome = Succeeded | Errored

  /** What a run leaves: the frames sent, the outcome recorded, how it ended, and the chunks pulled. */
  datatype Played = Played(frames: seq<Frame>, recorded: Option<Outcome>, exit: Exit, pulled: nat)

  /** The last final chunk seen. */
  function FinalOf(chunks: seq<StreamChunk>): Option<StreamChunk> {
    if chunks == [] then None
    else if chunks[|chunks| - 1].isFinal then Some(chunks[|chunks| - 1])
    else FinalOf(chunks[..|chunks| - 1])
  }

  /** One answer to be streamed. */
  datatype Answer = Answer(chunks: seq<StreamChunk>, ending: Ending, client: Client, requestId: string)

  function AtEnd(a: Answer, s: nat): Played {
    var n := |a.chunks|;
    match a.ending
    case Raised(message) =>
      var error := StreamError(message, a.requestId);
      if a.client.cancelled(s) then Played([error], Some(Errored), Cancelled, n)
      else Played([error, DoneMarker], Some(Errored), Broken, n)
    case Exhausted => Played([Summary(false, FinalOf(a.chunks))], Some(Succeeded), Completed, n)
  }

  /** The run from chunk i on, with s suspensions behind it. */
  function Play(a: Answer, i: nat, s: nat): Played
    requires i <= |a.chunks|
    decreases |a.chunks| - i
  {
    if i == |a.chunks| then AtEnd(a, s)
    else if a.client.cancelled(s) then Played([], None, Cancelled, i + 1)
    else if a.client.disconnected(i) then Played([Summary(true, FinalOf(a.chunks[..i]))], None, Aborted, i + 1)
    else if a.chunks[i].textDelta == "" then Play(a, i + 1, s + 1)
    else if a.client.cancelled(s + 1) then Played([Delta(a.chunks[i].textDelta)], None, Cancelled, i + 1)
    else
      var rest := Play(a, i + 1, s + 2);
      rest.(frames := [Delta(a.chunks[i].textDelta)] + rest.frames)
  }

  // ----- The generator between its suspensions -----

  /**
   * Where a generator rests: before its first pull, at the disconnect poll for chunk i, or
   * in the yield of chunk i's delta.
   */
  datatype Stage =
    | Unstarted
    | Polling(i: nat, suspensions: nat, sent: seq<Frame>)
    | Sending(i: nat, suspensions: nat, sent: seq<Frame>)

  datatype Playback = Playback(answer: Answer, stage: Stage)

  predicate InBounds(p: Playback) {
    p.stage.Unstarted? || p.stage.i < |p.answer.chunks|
  }

  const SILENCE := Answer([], Exhausted, Client(_ => false, _ => false), "")

  /** A stream and how far it has come. */
  type Stream = p: Playback | InBounds(p) witness Playback(SILENCE, Unstarted)

  /** Where the generator rests next, or what it leaves when it is over. */
  datatype Progress = Paused(stream: Stream) | Over(played: Played)

  function After(sent: seq<Frame>, rest: Played): Played {
    rest.(frames := sent + rest.frames)
  }

  /**
   * Pull chunk i: wait at the poll, or close.  What follows a recorded outcome touches no
   * shared state and is not broken up.
   */
  function Pull(a: Answer, i: nat, s: nat, sent: seq<Frame>): Progress
    requires i <= |a.chunks|
  {
    if i == |a.chunks| then Over(After(sent, AtEnd(a, s))) else Paused(Playback(a, Polling(i, s, sent)))
  }

  /** The generator from one suspension to the next. */
  function Advance(p: Stream): Progress {
    var a := p.answer;
    match p.stage
    case Unstarted => Pull(a, 0, 0, [])
    case Polling(i, s, sent) =>
      if a.client.cancelled(s) then Over(Played(sent, None, Cancelled, i + 1))
      else if a.client.disconnected(i) then
        Over(Played(sent + [Summary(true, FinalOf(a.chunks[..i]))], None, Aborted, i + 1))
      else if a.chunks[i].textDelta == "" then Pull(a, i + 1, s + 1, sent)
      else Paused(Playback(a, Sending(i, s + 1, sent + [Delta(a.chunks[i].textDelta)])))
    case Sending(i, s, sent) =>
      if a.client.cancelled(s) then Over(Played(sent, None, Cancelled, i + 1))
      else Pull(a, i + 1, s + 1, sent)
  }

  /** What a stream will have been when it is over. */
  function Forecast(p: Stream): Played {
    var a := p.answer;
    match p.stage
    case Unstarted => Play(a, 0, 0)
    case Polling(i, s, sent) => After(sent, Play(a, i, s))
    case Sending(i, s, sent) =>
      if a.client.cancelled(s) then Played(sent, None, Cancelled, i + 1) else After(sent, Play(a, i + 1, s + 1))
  }

  /** How many more times a stream can be resumed, at most, before it is over. */
  function Remaining(p: Stream): nat {
    var n := |p.answer.chunks|;
    match p.stage
    case Unstarted => 2 * n + 1
    case Polling(i, _, _) => 2 * (n - i)
    case Sending(i, _, _) => 2 * (n - i) - 1
  }

  /** A stream that goes on has pulled. */
  lemma AdvanceStarts(p: Stream)
    ensures Advance(p).Paused? ==> !Advance(p).stream.stage.Unstarted?
  {
  }

  lemma AfterTwice(sent: seq<Frame>, more: seq<Frame>, rest: Played)
    ensures After(sent + more, rest) == After(sent, After(more, rest))
  {
    assert sent + more + rest.frames == sent + (more + rest.frames);
  }

  /** What the play from chunk i on makes of the frames sent so far, case by case. */
  lemma PlayGoesOn(a: Answer, i: nat, s: nat, sent: seq<Frame>)
    requires i < |a.chunks|
    ensures var delta := Delta(a.chunks[i].textDelta);
            After(sent, Play(a, i, s))
            == if a.client.cancelled(s) then Played(sent, None, Cancelled, i + 1)
               else if a.client.disconnected(i) then
                 Played(sent + [Summary(true, FinalOf(a.chunks[..i]))], None, Aborted, i + 1)
               else if delta.text == "" then After(sent, Play(a, i + 1, s + 1))
               else if a.client.cancelled(s + 1) then Played(sent + [delta], None, Cancelled, i + 1)
               else After(sent + [delta], Play(a, i + 1, s + 2))
  {
    assert sent + [] == sent;
    AfterTwice(sent, [Delta(a.chunks[i].textDelta)], Play(a, i + 1, s + 2));
  }

  lemma PullForecast(a: Answer, i: nat, s: nat, sent: seq<Frame>)
    requires i <= |a.chunks|
    ensures match Pull(a, i, s, sent)
            case Paused(p) =>
              && p.answer == a && Forecast(p) == After(sent, Play(a, i, s))
              && Remaining(p) == 2 * (|a.chunks| - i)
            case Over(played) => played == After(sent, Play(a, i, s))
  {
  }

  /** Resuming a stream brings it nearer to its end and never changes what that end is. */
  lemma AdvanceKeepsForecast(p: Stream)
    ensures match Advance(p)
            case Paused(next) =>
              && next.answer == p.answer && Forecast(next) == Forecast(p)
              && Remaining(next) < Remaining(p)
            case Over(played) => played == Forecast(p)
  {
    match p.stage
    case Unstarted => UnstartedKeepsForecast(p);
    case Sending(i, s, sent) => PullForecast(p.answer, i + 1, s + 1, sent);
    case Polling(i, s, sent) => PollingKeepsForecast(p, i, s, sent);
  }

  lemma UnstartedKeepsForecast(p: Stream)
    requires p.stage.Unstarted?
    ensures match Advance(p)
            case Paused(next) =>
              && next.answer == p.answer && Forecast(next) == Forecast(p)
              && Remaining(next) < Remaining(p)
            case Over(played) => played == Forecast(p)
  {
    PullForecast(p.answer, 0, 0, []);
    assert [] + Play(p.answer, 0, 0).frames == Play(p.answer, 0, 0).frames;
  }

  lemma PollingKeepsForecast(p: Stream, i: nat, s: nat, sent: seq<Frame>)
    requires p.stage == Polling(i, s, sent)
    ensures match Advance(p)
            case Paused(next) =>
              && next.answer == p.answer && Forecast(next) == Forecast(p)
              && Remaining(next) < Remaining(p)
            case Over(played) => played == Forecast(p)
  {
    PlayGoesOn(p.answer, i, s, sent);
    PullForecast(p.answer, i + 1, s + 1, sent);
  }

  // ----- What a run promises -----

  function NonEmpty(chunks: seq<StreamChunk>): seq<string> {
    if chunks == [] then []
    else (if chunks[0].textDelta == "" then [] else [chunks[0].textDelta]) + NonEmpty(chunks[1..])
  }

  function SentDeltas(frames: seq<Frame>): seq<string> {
    if frames == [] then []
    else (if frames[0].Delta? then [frames[0].text] else []) + SentDeltas(frames[1..])
  }

  /** The frames after the deltas. */
  function Tail(frames: seq<Frame>): seq<Frame> {
    if frames == [] || !frames[0].Delta? then frames else Tail(frames[1..])
  }

  lemma DeltaFirst(text: string, frames: seq<Frame>)
    ensures SentDeltas([Delta(text)] + frames) == [text] + SentDeltas(frames)
    ensures Tail([Delta(text)] + frames) == Tail(frames)
  {
    assert ([Delta(text)] + frames)[1..] == frames;
  }

  lemma NonEmptyFrom(chunks: seq<StreamChunk>, i: nat)
    requires i < |chunks|
    ensures NonEmpty(chunks[i..])
            == (if chunks[i].textDelta == "" then [] else [chunks[i].textDelta]) + NonEmpty(chunks[i + 1..])
  {
    assert chunks[i..][1..] == chunks[i + 1..];
  }

  /** The deltas sent against the deltas of the chunks from i on. */
  predicate Accounts(a: Answer, i: nat, p: Played)
    requires i <= |a.chunks|
  {
    && SentDeltas(p.frames) <= NonEmpty(a.chunks[i..])
    && (p.recorded.Some? ==>
          && SentDeltas(p.frames) == NonEmpty(a.chunks[i..]) && p.pulled == |a.chunks|
          && (p.recorded.value == Succeeded <==> a.ending.Exhausted?))
  }

  lemma AccountsDelta(a: Answer, i: nat, rest: Played)
    requires i < |a.chunks| && a.chunks[i].textDelta != "" && Accounts(a, i + 1, rest)
    ensures Accounts(a, i, rest.(frames := [Delta(a.chunks[i].textDelta)] + rest.frames))
  {
    NonEmptyFrom(a.chunks, i);
    DeltaFirst(a.chunks[i].textDelta, rest.frames);
  }

  lemma AccountsEmpty(a: Answer, i: nat, p: Played)
    requires i < |a.chunks| && a.chunks[i].textDelta == "" && Accounts(a, i + 1, p)
    ensures Accounts(a, i, p)
  {
    NonEmptyFrom(a.chunks, i);
  }

  /**
   * The deltas sent are a prefix of the upstream's non-empty deltas, and all of them when
   * the upstream ran to its end.  One outcome is recorded exactly when it did.
   */
  lemma {:induction false} StreamAccounting(a: Answer, i: nat, s: nat)
    requires i <= |a.chunks|
    ensures Accounts(a, i, Play(a, i, s))
    decreases |a.chunks| - i
  {
    if i == |a.chunks| {
      EndTail(a, s);
    } else if a.client.cancelled(s) || a.client.disconnected(i) {
      assert SentDeltas(Play(a, i, s).frames) == [];
    } else if a.chunks[i].textDelta == "" {
      StreamAccounting(a, i + 1, s + 1);
      AccountsEmpty(a, i, Play(a, i + 1, s + 1));
    } else if a.client.cancelled(s + 1) {
      AccountsDelta(a, i, Played([], None, Cancelled, i + 1));
      assert [Delta(a.chunks[i].textDelta)] + [] == [Delta(a.chunks[i].textDelta)];
    } else {
      StreamAccounting(a, i + 1, s + 2);
      AccountsDelta(a, i, Play(a, i + 1, s + 2));
    }
  }

  /** What the last frames and the recorded outcome are for each way out. */
  predicate Closes(a: Answer, p: Played) {
    match p.exit
    case Completed =>
      a.ending.Exhausted? && p.recorded == Some(Succeeded) && Tail(p.frames) == [Summary(false, FinalOf(a.chunks))]
    case Broken =>
      a.ending.Raised? && p.recorded == Some(Errored)
      && Tail(p.frames) == [StreamError(a.ending.message, a.requestId), DoneMarker]
    case Aborted =>
      0 < p.pulled <= |a.chunks| && a.client.disconnected(p.pulled - 1) && p.recorded == None
      && Tail(p.frames) == [Summary(true, FinalOf(a.chunks[..p.pulled - 1]))]
    case Cancelled =>
      if p.recorded.None? then 0 < p.pulled <= |a.chunks| && Tail(p.frames) == []
      else
        && a.ending.Raised? && p.recorded == Some(Errored)
        && Tail(p.frames) == [StreamError(a.ending.message, a.requestId)]
  }

  /**
   * A run completes with a summary and a success, breaks with an error and a failure, and is
   * aborted by the poll that found the client gone, with no outcome.
   */
  lemma {:induction false} StreamCloses(a: Answer, i: nat, s: nat)
    requires i <= |a.chunks|
    ensures Closes(a, Play(a, i, s))
    decreases |a.chunks| - i
  {
    if i == |a.chunks| {
      EndTail(a, s);
    } else {
      var text := a.chunks[i].textDelta;
      if text == "" {
        StreamCloses(a, i + 1, s + 1);
      } else {
        StreamCloses(a, i + 1, s + 2);
        ClosesDelta(a, text, Play(a, i + 1, s + 2));
        DeltaFirst(text, []);
      }
    }
  }

  lemma ClosesDelta(a: Answer, text: string, rest: Played)
    requires Closes(a, rest)
    ensures Closes(a, rest.(frames := [Delta(text)] + rest.frames))
  {
    DeltaFirst(text, rest.frames);
  }

  lemma EndTail(a: Answer, s: nat)
    ensures SentDeltas(AtEnd(a, s).frames) == [] && Tail(AtEnd(a, s).frames) == AtEnd(a, s).frames
  {
    var frames := AtEnd(a, s).frames;
    assert frames[1..] == if |frames| == 1 then [] else [DoneMarker];
    if |frames| == 2 {
      assert [DoneMarker][1..] == [];
    }
  }

  // ----- From the upstream's events to the client's -----

  lemma {:induction false} NonEmptyAppend(front: seq<StreamChunk>, c: StreamChunk)
    ensures NonEmpty(front + [c]) == NonEmpty(front) + (if c.textDelta == "" then [] else [c.textDelta])
  {
    if front == [] {
      assert front + [c] == [c] && [c][1..] == [];
    } else {
      assert (front + [c])[1..] == front[1..] + [c];
      NonEmptyAppend(front[1..], c);
    }
  }

  lemma {:induction false} DeltaChunksNonEmpty(events: seq<StreamEvent>)
    ensures NonEmpty(DeltaChunks(Deltas(events))) == Deltas(events)
  {
    if events != [] {
      var before, e := events[..|events| - 1], events[|events| - 1];
      DeltaChunksNonEmpty(before);
      if e.ContentDelta? && e.text.Some? && e.text.value != "" {
        assert DeltaChunks(Deltas(events)) == DeltaChunks(Deltas(before)) + [DeltaChunk(e.text.value)];
        NonEmptyAppend(DeltaChunks(Deltas(before)), DeltaChunk(e.text.value));
      }
    }
  }

  // ----- Exactly what a run is -----

  /** The suspensions behind the poll for chunk j: one poll for each chunk before it, and one frame for each text. */
  function Waits(chunks: seq<StreamChunk>, j: nat): nat
    requires j <= |chunks|
  {
    j + |NonEmpty(chunks[..j])|
  }

  /** Chunk j gets through: its poll finds the client there, and nothing throws the generator out at it. */
  predicate GetsThrough(a: Answer, j: nat)
    requires j < |a.chunks|
  {
    && !a.client.cancelled(Waits(a.chunks, j)) && !a.client.disconnected(j)
    && (a.chunks[j].textDelta != "" ==> !a.client.cancelled(Waits(a.chunks, j) + 1))
  }

  /** Chunk j is the first that does not get through; all do when j is the number of chunks. */
  predicate StopsAt(a: Answer, j: nat) {
    && j <= |a.chunks| && (forall i | 0 <= i < j :: GetsThrough(a, i))
    && (j < |a.chunks| ==> !GetsThrough(a, j))
  }

  function AsDeltas(texts: seq<string>): seq<Frame> {
    seq(|texts|, i requires 0 <= i < |texts| => Delta(texts[i]))
  }

  /** Chunk k is the last of the final chunks. */
  predicate LastFinal(chunks: seq<StreamChunk>, k: nat) {
    k < |chunks| && chunks[k].isFinal && forall j | k < j < |chunks| :: !chunks[j].isFinal
  }

  ghost predicate FinalIs(chunks: seq<StreamChunk>, final: Option<StreamChunk>) {
    if exists k: nat :: LastFinal(chunks, k) then exists k: nat :: LastFinal(chunks, k) && final == Some(chunks[k])
    else final.None?
  }

  lemma {:induction false} FindFinal(chunks: seq<StreamChunk>)
    ensures FinalIs(chunks, FinalOf(chunks))
  {
    if chunks != [] {
      var n := |chunks| - 1;
      FindFinal(chunks[..n]);
      if chunks[n].isFinal {
        assert LastFinal(chunks, n);
      } else {
        forall k: nat
          ensures LastFinal(chunks, k) <==> LastFinal(chunks[..n], k)
        {
        }
      }
    }
  }

  lemma WaitsNext(chunks: seq<StreamChunk>, j: nat)
    requires j < |chunks|
    ensures NonEmpty(chunks[..j + 1])
            == NonEmpty(chunks[..j]) + (if chunks[j].textDelta == "" then [] else [chunks[j].textDelta])
    ensures Waits(chunks, j + 1) == Waits(chunks, j) + (if chunks[j].textDelta == "" then 1 else 2)
  {
    assert chunks[..j + 1] == chunks[..j] + [chunks[j]];
    NonEmptyAppend(chunks[..j], chunks[j]);
  }

  lemma DeltasNext(chunks: seq<StreamChunk>, j: nat)
    requires j < |chunks| && chunks[j].textDelta != ""
    ensures AsDeltas(NonEmpty(chunks[..j + 1])) == AsDeltas(NonEmpty(chunks[..j])) + [Delta(chunks[j].textDelta)]
  {
    WaitsNext(chunks, j);
  }

  /** While chunks get through, the play is what was sent of them and the play from there. */
  lemma {:induction false} PlayUpTo(a: Answer, j: nat)
    requires j <= |a.chunks| && forall i | 0 <= i < j :: GetsThrough(a, i)
    ensures Play(a, 0, 0) == After(AsDeltas(NonEmpty(a.chunks[..j])), Play(a, j, Waits(a.chunks, j)))
    decreases j, 1
  {
    if j == 0 {
      assert AsDeltas(NonEmpty(a.chunks[..0])) + Play(a, 0, 0).frames == Play(a, 0, 0).frames;
    } else {
      PlayUpFrom(a, j - 1, j);
    }
  }

  lemma {:induction false} PlayUpFrom(a: Answer, i: nat, j: nat)
    requires j == i + 1 <= |a.chunks| && forall k | 0 <= k < j :: GetsThrough(a, k)
    ensures Play(a, 0, 0) == After(AsDeltas(NonEmpty(a.chunks[..j])), Play(a, j, Waits(a.chunks, j)))
    decreases j, 0
  {
    PlayUpTo(a, i);
    PassesOn(a, i, j);
  }

  lemma PassesOn(a: Answer, i: nat, j: nat)
    requires j == i + 1 <= |a.chunks| && GetsThrough(a, i)
    ensures After(AsDeltas(NonEmpty(a.chunks[..i])), Play(a, i, Waits(a.chunks, i)))
            == After(AsDeltas(NonEmpty(a.chunks[..j])), Play(a, j, Waits(a.chunks, j)))
  {
    var sent := AsDeltas(NonEmpty(a.chunks[..i]));
    PlayGoesOn(a, i, Waits(a.chunks, i), sent);
    WaitsNext(a.chunks, i);
    if a.chunks[i].textDelta != "" {
      DeltasNext(a.chunks, i);
    }
  }

  /** What is left when chunk j stops the run. */
  ghost predicate Stopped(a: Answer, j: nat, p: Played)
    requires j <= |a.chunks|
  {
    var sent, s := AsDeltas(NonEmpty(a.chunks[..j])), Waits(a.chunks, j);
    if j < |a.chunks| then
      if a.client.cancelled(s) then p == Played(sent, None, Cancelled, j + 1)
      else if a.client.disconnected(j) then
        exists final ::
          FinalIs(a.chunks[..j], final) && p == Played(sent + [Summary(true, final)], None, Aborted, j + 1)
      else p == Played(sent + [Delta(a.chunks[j].textDelta)], None, Cancelled, j + 1)
    else
      match a.ending
      case Exhausted =>
        exists final ::
          FinalIs(a.chunks, final) && p == Played(sent + [Summary(false, final)], Some(Succeeded), Completed, j)
      case Raised(message) =>
        if a.client.cancelled(s) then
          p == Played(sent + [StreamError(message, a.requestId)], Some(Errored), Cancelled, j)
        else p == Played(sent + [StreamError(message, a.requestId), DoneMarker], Some(Errored), Broken, j)
  }

  /**
   * A run, exactly: the texts of the chunks that get through, and what the first that does
   * not get through, or the upstream's end, makes of it.
   */
  lemma PlayIs(a: Answer, j: nat)
    requires StopsAt(a, j)
    ensures Stopped(a, j, Play(a, 0, 0))
  {
    var s, sent := Waits(a.chunks, j), AsDeltas(NonEmpty(a.chunks[..j]));
    PlayUpTo(a, j);
    FindFinal(a.chunks[..j]);
    assert j == |a.chunks| ==> a.chunks[..j] == a.chunks;
    if j < |a.chunks| {
      PlayGoesOn(a, j, s, sent);
    }
  }

  /** Every run stops at some chunk, or at the end. */
  lemma {:induction false} RunStops(a: Answer, i: nat) returns (j: nat)
    requires i <= |a.chunks| && forall k | 0 <= k < i :: GetsThrough(a, k)
    ensures StopsAt(a, j)
    decreases |a.chunks| - i
  {
    if i == |a.chunks| || !GetsThrough(a, i) {
      j := i;
    } else {
      j := RunStops(a, i + 1);
    }
  }

  /** A client reads exactly the deltas that were sent. */
  lemma {:induction false} ClientReads(frames: seq<Frame>)
    ensures ClientText(DispatchedAll(frames)) == SentDeltas(frames)
  {
    if frames != [] {
      var events := DispatchedAll(frames);
      assert events[1..] == DispatchedAll(frames[1..]);
      ClientReads(frames[1..]);
      DataRoundTrip(frames[0]);
      OnlyDeltasHaveText(frames[0]);
    }
  }

  /** The final chunk that a completed run closes with. */
  lemma CompletedFinal(a: Answer, events: seq<StreamEvent>)
    requires a.chunks == Chunks(events, false)
    ensures FinalOf(a.chunks) == Some(FinalChunk(events))
  {
  }

  /** An optional value as JSON: null when there is none. */
  predicate IsText(v: Option<Value>, text: Option<string>) {
    v == Some(match text case None => Null case Some(t) => Text(t))
  }

  predicate IsInt(v: Option<Value>, i: Option<int>) {
    v == Some(match i case None => Null case Some(n) => Int(n))
  }

  /** The JSON of a summary, field by field. */
  ghost predicate SaysSummary(data: Value, aborted: bool, stopReason: Option<string>, input: Option<int>,
                              output: Option<int>)
  {
    && Get(data, "done") == Some(Bool(true)) && Get(data, "aborted") == Some(Bool(aborted))
    && IsText(Get(data, "stop_reason"), stopReason) && Get(data, "usage").Some?
    && IsInt(Get(Get(data, "usage").value, "input_tokens"), input)
    && IsInt(Get(Get(data, "usage").value, "output_tokens"), output)
  }

  /** The last event that a client receives closes the answer with the upstream's last usage and stop reason. */
  ghost predicate ClosesWithUsage(received: seq<Event>, events: seq<StreamEvent>) {
    received != [] &&
    var data := Read(SPACED, received[|received| - 1].data);
    && data.Some?
    && exists final ::
         && EndsWith(events, final)
         && SaysSummary(data.value.0, false, final.stopReason, final.inputTokens, final.outputTokens)
  }

  lemma {:induction false} LastDispatched(frames: seq<Frame>)
    requires frames != []
    ensures |DispatchedAll(frames)| == |frames|
    ensures DispatchedAll(frames)[|frames| - 1] == Dispatched(frames[|frames| - 1])
  {
    if |frames| > 1 {
      LastDispatched(frames[1..]);
    } else {
      assert frames[1..] == [];
    }
  }

  lemma {:induction false} TailIsLast(frames: seq<Frame>, last: Frame)
    requires Tail(frames) == [last]
    ensures frames != [] && frames[|frames| - 1] == last
  {
    if frames != [] && frames[0].Delta? {
      TailIsLast(frames[1..], last);
    }
  }

  lemma SummaryReceived(frames: seq<Frame>, aborted: bool, final: StreamChunk)
    requires Tail(frames) == [Summary(aborted, Some(final))]
    ensures var received := DispatchedAll(frames);
            && received != []
            && Read(SPACED, received[|received| - 1].data) == Some((Data(Summary(aborted, Some(final))), ""))
            && SaysSummary(Data(Summary(aborted, Some(final))), aborted, final.stopReason, final.inputTokens,
                           final.outputTokens)
  {
    TailIsLast(frames, Summary(aborted, Some(final)));
    LastDispatched(frames);
    DataRoundTrip(Summary(aborted, Some(final)));
    DataByName(Summary(aborted, Some(final)));
  }

  /**
   * End to end: the text that a client parses and decodes from the wire is a prefix of the
   * text the upstream sent, and all of it when the upstream's end was reached; the last
   * event of a completed run decodes to the upstream's last stop reason and token counts.
   */
  lemma UpstreamToClient(a: Answer, events: seq<StreamEvent>)
    requires a.chunks == Chunks(events, a.ending.Raised?)
    ensures var p := Play(a, 0, 0);
            var text := ClientText(Parse(Wire(p.frames), "", ""));
            && text <= Deltas(events)
            && (p.recorded.Some? ==> text == Deltas(events))
            && (p.exit.Completed? ==> ClosesWithUsage(Parse(Wire(p.frames), "", ""), events))
  {
    var p := Play(a, 0, 0);
    WireRoundTrip(p.frames);
    ClientReads(p.frames);
    StreamAccounting(a, 0, 0);
    StreamCloses(a, 0, 0);
    ChunksNonEmpty(events, a.ending.Raised?);
    assert a.chunks[0..] == a.chunks;
    if p.exit.Completed? {
      CompletedFinal(a, events);
      FinalChunkEnds(events);
      SummaryReceived(p.frames, false, FinalChunk(events));
    }
  }

  lemma ChunksNonEmpty(events: seq<StreamEvent>, broken: bool)
    ensures NonEmpty(Chunks(events, broken)) == Deltas(events)
  {
    var texts := DeltaChunks(Deltas(events));
    DeltaChunksNonEmpty(events);
    if broken {
      assert Chunks(events, broken) == texts;
    } else {
      NonEmptyAppend(texts, FinalChunk(events));
    }
  }

  // ----- The generator -----

  datatype Pulled = Chunk(chunk: StreamChunk) | End(ending: Ending)

  class ChunkSource {
    const chunks: seq<StreamChunk>
    const ending: Ending
    var position: nat
    var closed: bool

    constructor (chunks: seq<StreamChunk>, ending: Ending)
      ensures this.chunks == chunks && this.ending == ending && position == 0 && !closed
    {
      this.chunks, this.ending := chunks, ending;
      position, closed := 0, false;
    }

    method Next() returns (item: Pulled)
      requires position <= |chunks|
      modifies this`position
      ensures old(position) < |chunks| ==> item == Chunk(chunks[old(position)]) && position == old(position) + 1
      ensures old(position) == |chunks| ==> item == End(ending) && position == old(position)
    {
      if position < |chunks| {
        position := position + 1;
        item := Chunk(chunks[position - 1]);
      } else {
        item := End(ending);
      }
    }

    method Close()
      modifies this`closed
      ensures closed
    {
      closed := true;
    }
  }

  /** What a recorded outcome does to the model's circuit. */
  function Record(cfg: Breaker.Settings, circuits: map<string, Breaker.Circuit>, model: string,
                  recorded: Option<Outcome>, at: real)
    : map<string, Breaker.Circuit>
  {
    match recorded
    case None => circuits
    case Some(Succeeded) =>
      circuits[model := Breaker.React(cfg, Breaker.Entry(circuits, model), Breaker.Signal.Success(at))]
    case Some(Errored) =>
      circuits[model := Breaker.React(cfg, Breaker.Entry(circuits, model), Breaker.Signal.Failure(at))]
  }

  /** Why the chunk loop stopped. */
  datatype Stop = SourceEnded(ending: Ending) | ClientGone | ThrownOut

  /** The chunk loop: frames sent, the final chunk seen, and the suspensions so far. */
  method Pump(source: ChunkSource, client: Client, ghost a: Answer)
    returns (frames: seq<Frame>, final: Option<StreamChunk>, suspensions: nat, stop: Stop)
    requires source.position == 0 && a.chunks == source.chunks && a.ending == source.ending && a.client == client
    modifies source`position
    ensures match stop
            case SourceEnded(ending) =>
              && ending == a.ending && final == FinalOf(a.chunks) && source.position == |a.chunks|
              && Play(a, 0, 0) == After(frames, AtEnd(a, suspensions))
            case ClientGone => Play(a, 0, 0) == Played(frames + [Summary(true, final)], None, Aborted, source.position)
            case ThrownOut => Play(a, 0, 0) == Played(frames, None, Cancelled, source.position)
  {
    frames, final, suspensions := [], None, 0;
    var polls: nat := 0;
    var item := source.Next();
    while item.Chunk?
      invariant polls <= |a.chunks| && final == FinalOf(a.chunks[..polls])
      invariant if polls < |a.chunks| then item == Chunk(a.chunks[polls]) && source.position == polls + 1
                else item == End(a.ending) && source.position == polls
      invariant Play(a, 0, 0) == After(frames, Play(a, polls, suspensions))
      decreases |a.chunks| - polls
    {
      assert a.chunks[..polls + 1][..polls] == a.chunks[..polls];
      PlayGoesOn(a, polls, suspensions, frames);
      if client.cancelled(suspensions) {
        return frames, final, suspensions, ThrownOut;
      }
      if client.disconnected(polls) {
        return frames, final, suspensions, ClientGone;
      }
      suspensions := suspensions + 1;
      if item.chunk.textDelta != "" {
        frames := frames + [Delta(item.chunk.textDelta)];
        if client.cancelled(suspensions) {
          return frames, final, suspensions, ThrownOut;
        }
        suspensions := suspensions + 1;
      }
      if item.chunk.isFinal {
        final := Some(item.chunk);
      }
      item := source.Next();
      polls := polls + 1;
    }
    assert a.chunks[..polls] == a.chunks;
    stop := SourceEnded(item.ending);
  }

  method StreamChatResponse(source: ChunkSource, breaker: Breaker.CircuitBreaker, model: string, requestId: string,
                            client: Client, recordedAt: real)
    returns (frames: seq<Frame>, recorded: Option<Outcome>)
    requires source.position == 0 && !source.closed && breaker.Valid() && source !in breaker.Repr
    modifies source, breaker.Repr
    ensures breaker.Valid() && fresh(breaker.Repr - old(breaker.Repr))
    ensures var p := Play(Answer(source.chunks, source.ending, client, requestId), 0, 0);
            && frames == p.frames && recorded == p.recorded
            && source.position == p.pulled
            && breaker.Contents == Record(breaker.cfg, old(breaker.Contents), model, p.recorded, recordedAt)
    ensures source.closed
  {
    ghost var a := Answer(source.chunks, source.ending, client, requestId);
    var sent, final, suspensions, stop := Pump(source, client, a);
    recorded := None;
    match stop {
      case ThrownOut =>
        frames := sent;
      case ClientGone =>
        frames := sent + [Summary(true, final)];
      case SourceEnded(Raised(message)) =>
        breaker.RecordFailure(model, recordedAt);
        recorded := Some(Errored);
        var error := StreamError(message, requestId);
        frames := sent + if client.cancelled(suspensions) then [error] else [error, DoneMarker];
      case SourceEnded(Exhausted) =>
        breaker.RecordSuccess(model, recordedAt);
        recorded := Some(Succeeded);
        frames := sent + [Summary(false, final)];
    }
    source.Close();
  }
}
