/**
 * Streams inside a run: whatever steps come in between, a stream is played as it would be
 * alone.
 */
module StreamRuns {
  import opened Wrappers
  import opened Gateway
  import opened GatewayRuns
  import opened Histories
  import BedrockClient
  import Breaker
  import Sse
  import Streaming

  predicate IsStreamed(c: Conversation) {
    c.phase.Ended? && c.phase.reply.Streamed?
  }

  predicate IsStream(s: State, r: nat) {
    r in s.chats && (s.chats[r].phase.Open? || IsStreamed(s.chats[r]))
  }

  /** What has been played of the stream, and what is to come, is the play of this answer. */
  ghost predicate Follows(c: Conversation, a: Streaming.Answer) {
    var p := Streaming.Play(a, 0, 0);
    match c.phase
    case Open(stream) => stream.answer == a && Streaming.Forecast(stream) == p
    case Ended(Streamed(frames, outcome)) => frames == p.frames && outcome == p.recorded
    case _ => false
  }

  lemma AdvancedFollows(cfg: Config, s: Shared, c: Conversation, at: real, a: Streaming.Answer)
    requires c.phase.Open? && c.asked.Some? && Follows(c, a)
    ensures Follows(Advanced(cfg, s, c, at).1, a)
  {
    Streaming.AdvanceKeepsForecast(c.phase.stream);
  }

  lemma FollowsNext(cfg: Config, s: State, n: nat, step: Step, next: State, r: nat, a: Streaming.Answer)
    requires next == Next(cfg, s, n, step) && r != n && IsStream(s, r) && Follows(s.chats[r], a)
    ensures IsStream(next, r) && Follows(next.chats[r], a)
  {
    if step.Advance? && step.id == r && s.chats[r].phase.Open? && s.chats[r].asked.Some? {
      AdvancedFollows(cfg, s.shared, s.chats[r], step.at, a);
    }
  }

  lemma AnswerIsNoStream(cfg: Config, s: Shared, c: Conversation, asked: Asked, world: World)
    ensures var (next, reply, calls) := Complete(cfg, s, asked.request, world);
            !IsStreamed(c.(asked := Some(asked), phase := Ended(reply), calls := calls))
  {
    HitCallsNothing(cfg, s, asked.request, world);
  }

  lemma AskedPhase(cfg: Config, s: Shared, c: Conversation, chat: Chat, world: World, asked: Asked)
    requires c.gate.Admitted? && c.phase.Waiting?
    requires Prepare(cfg, c.identity, c.gate.policy, chat, world.inputVerdict) == Success(asked)
    ensures var d := Resumed(cfg, s, c, Parsed(chat), world).1;
            if chat.stream then !IsStreamed(d) && (d.phase.Open? ==> d.phase == Opened(world.answer))
            else !d.phase.Open? && !IsStreamed(d)
  {
    if !chat.stream {
      AnswerIsNoStream(cfg, s, c, asked, world);
    }
  }

  lemma ResumedPhase(cfg: Config, s: Shared, c: Conversation, body: Body, world: World)
    requires c.gate.Admitted? && c.phase.Waiting?
    ensures var d := Resumed(cfg, s, c, body, world).1;
            (d.phase.Open? ==> d.phase == Opened(world.answer)) && !IsStreamed(d)
  {
    if body.Parsed? {
      var p := Prepare(cfg, c.identity, c.gate.policy, body.chat, world.inputVerdict);
      if p.Success? {
        AskedPhase(cfg, s, c, body.chat, world, p.value);
      }
    }
  }

  lemma StreamBegins(cfg: Config, s: State, n: nat, step: Step, next: State, r: nat)
    requires next == Next(cfg, s, n, step) && !IsStream(s, r) && IsStream(next, r)
    ensures step.Resume? && step.id == r && next.chats[r].phase == Opened(step.world.answer)
  {
    if step.Resume? && step.id in s.chats && s.chats[step.id].phase.Waiting? && s.chats[step.id].gate.Admitted? {
      ResumedPhase(cfg, s.shared, s.chats[step.id], step.body, step.world);
    }
  }

  /**
   * In every run, a stream that is open or over is the play of the answer that its request
   * met, m being the step that opened it.
   */
  lemma {:induction false} StreamIsPlayed(run: Run, n: nat, r: nat) returns (m: nat)
    requires n <= |run.steps| && IsStream(After(run, n), r)
    ensures m < n && run.steps[m].Resume? && run.steps[m].id == r
    ensures Follows(After(run, n).chats[r], run.steps[m].world.answer)
  {
    var last: nat := n - 1;
    var s := After(run, last);
    AfterNext(run, last);
    if IsStream(s, r) {
      m := StreamIsPlayed(run, last, r);
      ChatsAreArrivals(run, last);
      FollowsNext(run.cfg, s, last, run.steps[last], After(run, n), r, run.steps[m].world.answer);
    } else {
      m := last;
      StreamBegins(run.cfg, s, last, run.steps[last], After(run, n), r);
    }
  }

  lemma PlayToClient(a: Streaming.Answer, events: seq<BedrockClient.StreamEvent>, frames: seq<Sse.Frame>,
                     outcome: Option<Streaming.Outcome>)
    requires a.chunks == BedrockClient.Chunks(events, a.ending.Raised?)
    requires frames == Streaming.Play(a, 0, 0).frames && outcome == Streaming.Play(a, 0, 0).recorded
    ensures var text := Sse.ClientText(Sse.Parse(Sse.Wire(frames), "", ""));
            && text <= BedrockClient.Deltas(events)
            && (outcome.Some? ==>
                  && text == BedrockClient.Deltas(events)
                  && (outcome.value == Streaming.Succeeded <==> a.ending.Exhausted?))
            && (outcome == Some(Streaming.Succeeded) ==>
                  Streaming.ClosesWithUsage(Sse.Parse(Sse.Wire(frames), "", ""), events))
  {
    Streaming.UpstreamToClient(a, events);
    Streaming.StreamAccounting(a, 0, 0);
    Streaming.StreamCloses(a, 0, 0);
  }

  /**
   * In every run, the text that the client of a finished stream decodes from the wire is a
   * prefix of what its upstream sent; if an outcome was recorded it is all of it, and the
   * outcome is a success exactly when the upstream ended well: then the last event tells
   * the client the stop reason and the token counts that the upstream gave.
   */
  lemma StreamToClient(run: Run, n: nat, r: nat) returns (m: nat)
    requires n <= |run.steps| && r in After(run, n).chats && IsStreamed(After(run, n).chats[r])
    ensures m < n && run.steps[m].Resume? && run.steps[m].id == r
    ensures var a, reply := run.steps[m].world.answer, After(run, n).chats[r].phase.reply;
            forall events | a.chunks == BedrockClient.Chunks(events, a.ending.Raised?) ::
              var text := Sse.ClientText(Sse.Parse(Sse.Wire(reply.frames), "", ""));
              && text <= BedrockClient.Deltas(events)
              && (reply.outcome.Some? ==>
                    && text == BedrockClient.Deltas(events)
                    && (reply.outcome.value == Streaming.Succeeded <==> a.ending.Exhausted?))
              && (reply.outcome == Some(Streaming.Succeeded) ==>
                    Streaming.ClosesWithUsage(Sse.Parse(Sse.Wire(reply.frames), "", ""), events))
  {
    m := StreamIsPlayed(run, n, r);
    var a, reply := run.steps[m].world.answer, After(run, n).chats[r].phase.reply;
    forall events | a.chunks == BedrockClient.Chunks(events, a.ending.Raised?)
      ensures var text := Sse.ClientText(Sse.Parse(Sse.Wire(reply.frames), "", ""));
              && text <= BedrockClient.Deltas(events)
              && (reply.outcome.Some? ==>
                    && text == BedrockClient.Deltas(events)
                    && (reply.outcome.value == Streaming.Succeeded <==> a.ending.Exhausted?))
              && (reply.outcome == Some(Streaming.Succeeded) ==>
                    Streaming.ClosesWithUsage(Sse.Parse(Sse.Wire(reply.frames), "", ""), events))
    {
      PlayToClient(a, events, reply.frames, reply.outcome);
    }
  }

  // ----- What a stream records, and when it is over -----

  /** A stream's turns record nothing but its last one, which records the outcome of its play. */
  lemma StreamRecordsOnce(run: Run, n: nat, r: nat) returns (m: nat)
    requires n < |run.steps| && run.steps[n].Advance? && run.steps[n].id == r
    requires r in After(run, n).chats && After(run, n).chats[r].phase.Open?
    ensures m < n && run.steps[m].Resume? && run.steps[m].id == r
    ensures var c, outcome := After(run, n).chats[r], Streaming.Play(run.steps[m].world.answer, 0, 0).recorded;
            && c.asked.Some? && r in After(run, n + 1).chats
            && StepEvents(run.cfg, After(run, n), run.steps[n])
               == if After(run, n + 1).chats[r].phase.Open? || outcome.None? then []
                  else [Breaker.Event(c.asked.value.request.modelId, OutcomeSignal(outcome.value, run.steps[n].at))]
  {
    m := StreamIsPlayed(run, n, r);
    AlwaysProper(run, n, r);
    AfterNext(run, n);
    Streaming.AdvanceKeepsForecast(After(run, n).chats[r].phase.stream);
  }

  /** The turns that stream r takes in steps m..n-1. */
  function Turns(steps: seq<Step>, r: nat, m: nat, n: nat): nat
    requires m <= n <= |steps|
    decreases n
  {
    if m == n then 0 else Turns(steps, r, m, n - 1) + if steps[n - 1].Advance? && steps[n - 1].id == r then 1 else 0
  }

  lemma TurnTaken(cfg: Config, s: State, n: nat, step: Step, next: State, r: nat)
    requires next == Next(cfg, s, n, step) && r in s.chats && r != n && s.chats[r].phase.Open? && s.chats[r].asked.Some?
    ensures r in next.chats
    ensures next.chats[r].phase.Ended?
            || (&& next.chats[r].phase.Open? && next.chats[r].asked.Some?
                && Streaming.Remaining(next.chats[r].phase.stream) + (if step.Advance? && step.id == r then 1 else 0)
                   <= Streaming.Remaining(s.chats[r].phase.stream))
  {
    Streaming.AdvanceKeepsForecast(s.chats[r].phase.stream);
  }

  /** From step m to step n stream r has come nearer to its end by its own turns, or is over. */
  predicate Nearing(run: Run, m: nat, n: nat, r: nat)
    requires m <= n <= |run.steps| && r in After(run, m).chats && After(run, m).chats[r].phase.Open?
  {
    r in After(run, n).chats &&
    var phase := After(run, n).chats[r].phase;
    phase.Ended?
    || (&& phase.Open?
        && Streaming.Remaining(phase.stream) + Turns(run.steps, r, m, n)
           <= Streaming.Remaining(After(run, m).chats[r].phase.stream))
  }

  lemma EndedStays(run: Run, m: nat, k: nat, n: nat, r: nat)
    requires m <= k && n == k + 1 <= |run.steps| && r in After(run, m).chats && After(run, m).chats[r].phase.Open?
    requires r in After(run, k).chats && After(run, k).chats[r].phase.Ended?
    ensures Nearing(run, m, n, r)
  {
    ChatsAreArrivals(run, k);
    AfterNext(run, k);
    EndedKept(run.cfg, After(run, k), k, run.steps[k], r);
  }

  lemma OpenNears(run: Run, m: nat, k: nat, n: nat, r: nat)
    requires m <= k && n == k + 1 <= |run.steps| && r in After(run, m).chats && After(run, m).chats[r].phase.Open?
    requires Nearing(run, m, k, r) && After(run, k).chats[r].phase.Open?
    ensures Nearing(run, m, n, r)
  {
    ChatsAreArrivals(run, k);
    AlwaysProper(run, k, r);
    AfterNext(run, k);
    TurnTaken(run.cfg, After(run, k), k, run.steps[k], After(run, n), r);
  }

  lemma NearingNext(run: Run, m: nat, k: nat, n: nat, r: nat)
    requires m <= k && n == k + 1 <= |run.steps| && r in After(run, m).chats && After(run, m).chats[r].phase.Open?
    requires Nearing(run, m, k, r)
    ensures Nearing(run, m, n, r)
  {
    if After(run, k).chats[r].phase.Ended? {
      EndedStays(run, m, k, n, r);
    } else {
      OpenNears(run, m, k, n, r);
    }
  }

  lemma {:induction false} NearsItsEnd(run: Run, m: nat, n: nat, r: nat)
    requires m <= n <= |run.steps| && r in After(run, m).chats && After(run, m).chats[r].phase.Open?
    ensures Nearing(run, m, n, r)
    decreases n, 1
  {
    if m < n {
      NearsFrom(run, m, n - 1, n, r);
    }
  }

  lemma {:induction false} NearsFrom(run: Run, m: nat, k: nat, n: nat, r: nat)
    requires m <= k && n == k + 1 <= |run.steps| && r in After(run, m).chats && After(run, m).chats[r].phase.Open?
    ensures Nearing(run, m, n, r)
    decreases n, 0
  {
    NearsItsEnd(run, m, k, r);
    NearingNext(run, m, k, n, r);
  }

  /** A stream of k chunks is over once it has had 2k + 2 turns of its own, whatever steps come in between. */
  lemma StreamEnds(run: Run, m: nat, n: nat, r: nat)
    requires m <= n <= |run.steps| && r in After(run, m).chats && After(run, m).chats[r].phase.Open?
    requires Turns(run.steps, r, m, n) >= 2 * |After(run, m).chats[r].phase.stream.answer.chunks| + 2
    ensures r in After(run, n).chats && After(run, n).chats[r].phase.Ended?
  {
    NearsItsEnd(run, m, n, r);
  }
}
