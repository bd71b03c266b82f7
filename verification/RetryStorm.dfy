/**
 * The retry storm in a run: how often the whole gateway calls a model that only fails, and
 * what streams that end without an outcome add to that.
 */
module RetryStorm {
  import opened Wrappers
  import opened Gateway
  import opened GatewayRuns
  import opened Histories
  import BedrockClient
  import Breaker
  import Router
  import Streaming

  // ----- Keeping count of a model's signals -----

  /** A model, the gateway's settings, the most of its calls in flight at once, and when counting starts. */
  datatype Watch = Watch(cfg: Router.Config, model: string, limit: nat, from: real)

  /**
   * What is counted: the window of admissions that the breaker's own bound reasons about,
   * with its whole batches; the calls made; and the streams broken off, whose admissions
   * the window no longer counts.
   */
  datatype Tally = Tally(window: Breaker.Window, rounds: nat, calls: nat, lost: nat)

  /** The events are in clock order until `to`, and from event n on the model's come no earlier than counting starts. */
  predicate InSpan(watch: Watch, events: seq<Breaker.Event>, n: nat, to: real) {
    && n <= |events| && Breaker.EventsUntil(events, to)
    && forall i | n <= i < |events| && events[i].model == watch.model :: watch.from <= events[i].signal.at
  }

  lemma SpanPrefix(watch: Watch, events: seq<Breaker.Event>, more: seq<Breaker.Event>, n: nat, to: real)
    requires InSpan(watch, events + more, n, to) && n <= |events|
    ensures InSpan(watch, events, n, to)
  {
    forall i, j | 0 <= i <= j < |events|
      ensures events[i].signal.at <= events[j].signal.at
    {
      assert (events + more)[i] == events[i] && (events + more)[j] == events[j];
    }
    forall i | 0 <= i < |events|
      ensures events[i].signal.at <= to
      ensures n <= i && events[i].model == watch.model ==> watch.from <= events[i].signal.at
    {
      assert (events + more)[i] == events[i];
    }
  }

  /** The tally fits the model's own signals, of which `open` calls are still in flight. */
  predicate Fits(watch: Watch, own: seq<Breaker.Signal>, open: int, t: Tally) {
    var w := t.window;
    && w.inFlight == open && w.failures == Breaker.TrailingFailures(own) && w.last == Breaker.LastFailure(own)
    && (w.now == watch.from || (own != [] && w.now == own[|own| - 1].at))
    && Breaker.Paced(watch.cfg.breaker, watch.limit, watch.from, w, t.rounds)
  }

  /** Every call was paid for by an admission, counted or lost. */
  predicate Paid(watch: Watch, t: Tally) {
    0 <= t.window.admissions + t.lost
    && t.calls <= (t.window.admissions + t.lost) * BedrockClient.MaxCalls(watch.cfg.maxRetries)
  }

  /** What one more signal does to the calls in flight. */
  function Change(cfg: Breaker.Settings, own: seq<Breaker.Signal>, signal: Breaker.Signal): int {
    match signal
    case Probe(at) => if Breaker.Permit(cfg, Breaker.After(cfg, own), at).1 then 1 else 0
    case Failure(_) => -1
    case Success(_) => 0
  }

  /** One more signal of the model's own, admissions counted. */
  lemma SignalFits(watch: Watch, own: seq<Breaker.Signal>, signal: Breaker.Signal, open: int, t: Tally)
      returns (next: Tally)
    requires Fits(watch, own, open, t) && !signal.Success?
    requires Breaker.ClockOrdered(own + [Breaker.Probe(signal.at)]) && watch.from <= signal.at
    requires 0 <= open + Change(watch.cfg.breaker, own, signal) <= watch.limit
    ensures Fits(watch, own + [signal], open + Change(watch.cfg.breaker, own, signal), next)
    ensures next.window.admissions
            == t.window.admissions + if Change(watch.cfg.breaker, own, signal) == 1 then 1 else 0
    ensures next.calls == t.calls && next.lost == t.lost
  {
    var cfg, w, at := watch.cfg.breaker, t.window, signal.at;
    assert (own + [signal])[..|own|] == own;
    InOrder(own, at);
    match signal
    case Failure(_) =>
      var rounds := Breaker.PacedFailure(cfg, watch.limit, watch.from, w, t.rounds, at);
      next := t.(window := Breaker.Window(w.admissions, 0, w.inFlight - 1, w.failures + 1, at, at), rounds := rounds);
    case Probe(_) =>
      if Change(cfg, own, signal) == 1 {
        Breaker.AllowIffHistory(cfg, own, at);
        Breaker.PacedAdmission(cfg, watch.limit, watch.from, w, t.rounds, at);
        var more := w.(admissions := w.admissions + 1, batch := w.batch + 1, inFlight := w.inFlight + 1, now := at);
        next := t.(window := more);
      } else {
        next := t.(window := w.(now := at));
      }
  }

  lemma InOrder(own: seq<Breaker.Signal>, at: real)
    requires Breaker.ClockOrdered(own + [Breaker.Probe(at)])
    ensures own != [] ==> own[|own| - 1].at <= at
  {
    if own != [] {
      assert Breaker.NoLater(own + [Breaker.Probe(at)], |own| - 1, |own|);
    }
  }

  // ----- Events -----

  lemma OwnNext(events: seq<Breaker.Event>, e: Breaker.Event, model: string)
    ensures Breaker.Own(events + [e], model)
            == if e.model == model then Breaker.Own(events, model) + [e.signal] else Breaker.Own(events, model)
  {
    assert (events + [e])[..|events|] == events;
  }

  /** One more event, of the watched model or of another. */
  lemma EventFits(watch: Watch, history: seq<Breaker.Event>, e: Breaker.Event, n: nat, to: real, open: int, t: Tally)
      returns (next: Tally)
    requires InSpan(watch, history + [e], n, to) && n <= |history|
    requires Fits(watch, Breaker.Own(history, watch.model), open, t)
    requires e.model == watch.model ==>
               && !e.signal.Success?
               && 0 <= open + Change(watch.cfg.breaker, Breaker.Own(history, watch.model), e.signal) <= watch.limit
    ensures var own := Breaker.Own(history, watch.model);
            var change := if e.model == watch.model then Change(watch.cfg.breaker, own, e.signal) else 0;
            && Fits(watch, Breaker.Own(history + [e], watch.model), open + change, next)
            && next.window.admissions == t.window.admissions + (if change == 1 then 1 else 0)
            && next.calls == t.calls && next.lost == t.lost
  {
    OwnNext(history, e, watch.model);
    next := t;
    if e.model == watch.model {
      EventInSpan(watch, history, e, n, to);
      Breaker.OwnUntil(history, watch.model, e.signal.at);
      next := SignalFits(watch, Breaker.Own(history, watch.model), e.signal, open, t);
    }
  }

  lemma EventInSpan(watch: Watch, history: seq<Breaker.Event>, e: Breaker.Event, n: nat, to: real)
    requires InSpan(watch, history + [e], n, to) && n <= |history| && e.model == watch.model
    ensures Breaker.EventsUntil(history, e.signal.at) && watch.from <= e.signal.at
  {
    var all := history + [e];
    assert all[|history|] == e;
    forall i, j | 0 <= i <= j < |history|
      ensures history[i].signal.at <= history[j].signal.at
    {
      assert all[i] == history[i] && all[j] == history[j];
    }
    forall i | 0 <= i < |history|
      ensures history[i].signal.at <= e.signal.at
    {
      assert all[i] == history[i];
    }
  }

  // ----- One router loop -----

  /** A visit to the model is skipped exactly when its own signals refuse it. */
  lemma VisitAsksOwn(t: Router.Tour, history: seq<Breaker.Event>, i: nat)
    requires i < |t.candidates| && t.circuits == Breaker.Circuits(t.cfg.breaker, history)
    ensures var own := Breaker.Own(history + Router.Events(t, i), t.candidates[i]);
            Router.Visits(t)[i].Skipped?
            <==> !Breaker.Permit(t.cfg.breaker, Breaker.After(t.cfg.breaker, own), t.legs(i).askedAt).1
  {
    Router.LoopExtendsHistory(t, history, i);
    Router.VisitAt(t, i);
    Breaker.NonInterference(t.cfg.breaker, history + Router.Events(t, i), t.candidates[i]);
  }

  /** Calls to the model in visit i. */
  function CallsAt(t: Router.Tour, i: nat, model: string): nat
    requires i < |t.candidates|
  {
    if t.candidates[i] == model then Router.CallsOf(Router.Visits(t)[i]) else 0
  }

  /** Calls to the model in the first n visits. */
  function CallsTo(t: Router.Tour, n: nat, model: string): nat
    requires n <= |t.candidates|
  {
    if n == 0 then 0 else CallsTo(t, n - 1, model) + CallsAt(t, n - 1, model)
  }

  /** No visit of the loop's first n gets an answer from the model. */
  predicate NeverServes(t: Router.Tour, n: nat, model: string)
    requires n <= |t.candidates|
  {
    forall i | 0 <= i < n && t.candidates[i] == model :: !Router.Visits(t)[i].Served?
  }

  lemma VisitCost(t: Router.Tour, i: nat)
    requires i < |t.candidates|
    ensures var v := Router.Visits(t)[i];
            Router.CallsOf(v) <= BedrockClient.MaxCalls(t.cfg.maxRetries) && (Router.CallsOf(v) == 0 <==> v.Skipped?)
  {
    Router.VisitsWithinBudget(t);
    assert Router.Visits(t)[i] in Router.Visits(t);
  }

  /** The tally after a loop's first n visits, the calls they made included. */
  predicate LoopFits(watch: Watch, t: Router.Tour, history: seq<Breaker.Event>, n: nat, open: int, tally: Tally,
                     start: Tally)
    requires n <= |t.candidates|
  {
    && Fits(watch, Breaker.Own(history + Router.Events(t, n), watch.model), open, tally) && Paid(watch, tally)
    && tally.calls == start.calls + CallsTo(t, n, watch.model) && tally.lost == start.lost
  }

  lemma PayOne(admissions: int, calls: nat, more: nat, each: nat)
    requires 0 <= admissions && calls <= admissions * each && more <= each
    ensures calls + more <= (admissions + 1) * each
  {
    assert (admissions + 1) * each == admissions * each + each;
  }

  /** A visit that the model fails, or refuses, leaves its calls in flight as they were. */
  lemma VisitFits(watch: Watch, t: Router.Tour, past: seq<Breaker.Event>, i: nat, n: nat, to: real, open: nat,
                  start: Tally)
      returns (next: Tally)
    requires i < |t.candidates| && t.candidates[i] == watch.model && !Router.Visits(t)[i].Served? && t.cfg == watch.cfg
    requires InSpan(watch, past + Router.VisitEvents(Router.Visits(t)[i], t.candidates[i], t.legs(i)), n, to)
    requires n <= |past|
    requires Router.Visits(t)[i].Skipped?
             <==> !Breaker.Permit(t.cfg.breaker, Breaker.After(t.cfg.breaker, Breaker.Own(past, watch.model)),
                                  t.legs(i).askedAt).1
    requires Fits(watch, Breaker.Own(past, watch.model), open, start) && open + 1 <= watch.limit
    ensures var longer := past + Router.VisitEvents(Router.Visits(t)[i], t.candidates[i], t.legs(i));
            && Fits(watch, Breaker.Own(longer, watch.model), open, next)
            && next.window.admissions == start.window.admissions + (if Router.Visits(t)[i].Skipped? then 0 else 1)
            && next.calls == start.calls && next.lost == start.lost
  {
    var events := Router.VisitEvents(Router.Visits(t)[i], t.candidates[i], t.legs(i));
    if Router.Visits(t)[i].Skipped? {
      assert events == [events[0]];
      next := EventFits(watch, past, events[0], n, to, open, start);
    } else {
      var probe, outcome := events[0], events[1];
      assert past + events == past + [probe] + [outcome];
      SpanPrefix(watch, past + [probe], [outcome], n, to);
      next := EventFits(watch, past, probe, n, to, open, start);
      next := EventFits(watch, past + [probe], outcome, n, to, open + 1, next);
    }
  }

  /** A visit to another model changes nothing that is counted. */
  lemma OtherVisit(watch: Watch, t: Router.Tour, past: seq<Breaker.Event>, i: nat)
    requires i < |t.candidates| && t.candidates[i] != watch.model
    ensures Breaker.Own(past + Router.VisitEvents(Router.Visits(t)[i], t.candidates[i], t.legs(i)), watch.model)
            == Breaker.Own(past, watch.model)
  {
    var events := Router.VisitEvents(Router.Visits(t)[i], t.candidates[i], t.legs(i));
    OwnNext(past, events[0], watch.model);
    if |events| == 1 {
      assert past + events == past + [events[0]];
    } else {
      OwnNext(past + [events[0]], events[1], watch.model);
      assert past + events == past + [events[0]] + [events[1]];
    }
  }

  /** The calls of a visit are paid for by its one admission. */
  lemma PayVisit(watch: Watch, own: seq<Breaker.Signal>, open: int, before: Tally, after: Tally, calls: nat)
      returns (next: Tally)
    requires Fits(watch, own, open, after) && Paid(watch, before)
    requires after.window.admissions == before.window.admissions + (if calls > 0 then 1 else 0)
    requires after.calls == before.calls && after.lost == before.lost
    requires calls <= BedrockClient.MaxCalls(watch.cfg.maxRetries)
    ensures Fits(watch, own, open, next) && Paid(watch, next)
    ensures next.calls == before.calls + calls && next.lost == before.lost
  {
    PayOne(before.window.admissions + before.lost, before.calls, calls, BedrockClient.MaxCalls(watch.cfg.maxRetries));
    next := after.(calls := before.calls + calls);
  }

  lemma VisitStep(watch: Watch, t: Router.Tour, history: seq<Breaker.Event>, past: seq<Breaker.Event>,
                  longer: seq<Breaker.Event>, m: nat, n: nat, to: real, open: nat, tally: Tally) returns (next: Tally)
    requires m < |t.candidates| && t.cfg == watch.cfg && t.circuits == Breaker.Circuits(t.cfg.breaker, history)
    requires past == history + Router.Events(t, m)
    requires longer == past + Router.VisitEvents(Router.Visits(t)[m], t.candidates[m], t.legs(m))
    requires InSpan(watch, longer, n, to) && n <= |past|
    requires Fits(watch, Breaker.Own(past, watch.model), open, tally) && Paid(watch, tally) && open + 1 <= watch.limit
    requires t.candidates[m] == watch.model ==> !Router.Visits(t)[m].Served?
    ensures Fits(watch, Breaker.Own(longer, watch.model), open, next) && Paid(watch, next)
    ensures next.calls == tally.calls + CallsAt(t, m, watch.model) && next.lost == tally.lost
  {
    if t.candidates[m] == watch.model {
      VisitAsksOwn(t, history, m);
      var after := VisitFits(watch, t, past, m, n, to, open, tally);
      VisitCost(t, m);
      next := PayVisit(watch, Breaker.Own(longer, watch.model), open, tally, after,
                       Router.CallsOf(Router.Visits(t)[m]));
    } else {
      OtherVisit(watch, t, past, m);
      next := tally;
    }
  }

  lemma LoopStep(watch: Watch, t: Router.Tour, history: seq<Breaker.Event>, m: nat, k: nat, n: nat, to: real, open: nat,
                 tally: Tally, start: Tally) returns (next: Tally)
    requires k == m + 1 <= |t.candidates| && t.cfg == watch.cfg
    requires t.circuits == Breaker.Circuits(t.cfg.breaker, history)
    requires InSpan(watch, history + Router.Events(t, k), n, to) && n <= |history|
    requires LoopFits(watch, t, history, m, open, tally, start) && open + 1 <= watch.limit
    requires t.candidates[m] == watch.model ==> !Router.Visits(t)[m].Served?
    ensures LoopFits(watch, t, history, k, open, next, start)
  {
    Router.EventsGrow(t, history, m);
    next := VisitStep(watch, t, history, history + Router.Events(t, m), history + Router.Events(t, k), m, n, to, open,
                      tally);
  }

  lemma {:induction false} LoopKeeps(watch: Watch, t: Router.Tour, history: seq<Breaker.Event>, k: nat, n: nat,
                                     to: real, open: nat, start: Tally) returns (next: Tally)
    requires k <= |t.candidates| && t.cfg == watch.cfg && t.circuits == Breaker.Circuits(t.cfg.breaker, history)
    requires InSpan(watch, history + Router.Events(t, k), n, to) && n <= |history|
    requires Fits(watch, Breaker.Own(history, watch.model), open, start) && Paid(watch, start)
    requires open + 1 <= watch.limit
    requires NeverServes(t, k, watch.model)
    ensures LoopFits(watch, t, history, k, open, next, start)
    decreases k, 1
  {
    if k == 0 {
      assert history + [] == history;
      next := start;
    } else {
      next := LoopFrom(watch, t, history, k - 1, k, n, to, open, start);
    }
  }

  lemma {:induction false} LoopFrom(watch: Watch, t: Router.Tour, history: seq<Breaker.Event>, m: nat, k: nat, n: nat,
                                    to: real, open: nat, start: Tally) returns (next: Tally)
    requires k == m + 1 <= |t.candidates| && t.cfg == watch.cfg
    requires t.circuits == Breaker.Circuits(t.cfg.breaker, history)
    requires InSpan(watch, history + Router.Events(t, k), n, to) && n <= |history|
    requires Fits(watch, Breaker.Own(history, watch.model), open, start) && Paid(watch, start)
    requires open + 1 <= watch.limit
    requires NeverServes(t, k, watch.model)
    ensures LoopFits(watch, t, history, k, open, next, start)
    decreases k, 0
  {
    Router.EventsGrow(t, history, m);
    SpanPrefix(watch, history + Router.Events(t, m),
               Router.VisitEvents(Router.Visits(t)[m], t.candidates[m], t.legs(m)), n, to);
    var tally := LoopKeeps(watch, t, history, m, n, to, open, start);
    next := LoopStep(watch, t, history, m, k, n, to, open, tally, start);
  }

  // ----- What a step of the gateway does to a model -----

  /** A step's dealings with the breakers: a router's loop, a stream asking, a stream's outcome. */
  datatype Deed =
    | Nothing
    | Routed(tour: Router.Tour)
    | AskedToStream(model: string, at: real, allowed: bool)
    | StreamOver(model: string, outcome: Option<Streaming.Outcome>, at: real)

  function ResumeDeed(cfg: Config, s: Shared, c: Conversation, body: Body, world: World): Deed
    requires c.gate.Admitted?
  {
    if !body.Parsed? then Nothing else
    match Prepare(cfg, c.identity, c.gate.policy, body.chat, world.inputVerdict)
    case Failure(_) => Nothing
    case Success(asked) =>
      if body.chat.stream then
        var model := asked.request.modelId;
        AskedToStream(model, world.permitAt,
                      Breaker.Permit(cfg.router.breaker, Breaker.Entry(s.circuits, model), world.permitAt).1)
      else if LookUp(cfg, s, asked.request, world).1.Some? then Nothing
      else Routed(TourOf(cfg, s, asked.request, world))
  }

  function DeedOf(cfg: Config, s: State, step: Step): Deed {
    match step
    case Resume(r, body, world) =>
      if r in s.chats && s.chats[r].phase.Waiting? && s.chats[r].gate.Admitted?
      then ResumeDeed(cfg, s.shared, s.chats[r], body, world) else Nothing
    case Advance(r, at) =>
      if r in s.chats && s.chats[r].phase.Open? && s.chats[r].asked.Some? then
        var progress := Streaming.Advance(s.chats[r].phase.stream);
        if progress.Over? then StreamOver(s.chats[r].asked.value.request.modelId, progress.played.recorded, at)
        else Nothing
      else Nothing
    case _ => Nothing
  }

  function DeedEvents(deed: Deed): seq<Breaker.Event> {
    match deed
    case Nothing => []
    case Routed(t) => Router.Events(t, Router.Visited(Router.Visits(t)))
    case AskedToStream(model, at, _) => [Breaker.Event(model, Breaker.Probe(at))]
    case StreamOver(model, outcome, at) =>
      if outcome.Some? then [Breaker.Event(model, OutcomeSignal(outcome.value, at))] else []
  }

  lemma DeedsAreEvents(cfg: Config, s: State, step: Step)
    ensures StepEvents(cfg, s, step) == DeedEvents(DeedOf(cfg, s, step))
  {
  }

  /**
   * The upstream calls to the model that a step leads to; a stream's one call counts where
   * its circuit lets it through.
   */
  function DeedCalls(deed: Deed, model: string): nat {
    match deed
    case Routed(t) => CallsTo(t, Router.Visited(Router.Visits(t)), model)
    case AskedToStream(m, _, allowed) => if m == model && allowed then 1 else 0
    case _ => 0
  }

  /** No call to the model succeeds. */
  predicate NoSuccess(deed: Deed, model: string) {
    match deed
    case Routed(t) => NeverServes(t, Router.Visited(Router.Visits(t)), model)
    case StreamOver(m, outcome, _) => m == model ==> outcome != Some(Streaming.Succeeded)
    case _ => true
  }

  /** A stream of the model ends without an outcome: its client left, or it was thrown out. */
  predicate BreaksOff(deed: Deed, model: string) {
    deed.StreamOver? && deed.model == model && deed.outcome.None?
  }

  /** What a step does to the number of open streams of the model. */
  function OpenChange(deed: Deed, model: string): int {
    match deed
    case AskedToStream(m, _, allowed) => if m == model && allowed then 1 else 0
    case StreamOver(m, _, _) => if m == model then -1 else 0
    case _ => 0
  }

  predicate StreamOn(s: State, r: nat, model: string) {
    r in s.chats && s.chats[r].phase.Open? && s.chats[r].asked.Some? && s.chats[r].asked.value.request.modelId == model
  }

  /** The model's open streams. */
  function OpenStreams(s: State, model: string): set<nat> {
    set r | r in s.chats && StreamOn(s, r, model)
  }

  /** Which request's stream a step may open or close. */
  function Actor(n: nat, step: Step): nat {
    match step
    case Resume(r, _, _) => r
    case Advance(r, _) => r
    case _ => n
  }

  lemma ActorOpens(cfg: Config, s: State, n: nat, step: Step, next: State, model: string)
    requires next == Next(cfg, s, n, step) && n !in s.chats
    ensures var r := Actor(n, step);
            (if StreamOn(next, r, model) then 1 else 0)
            == (if StreamOn(s, r, model) then 1 else 0) + OpenChange(DeedOf(cfg, s, step), model)
  {
  }

  lemma OthersStay(cfg: Config, s: State, n: nat, step: Step, next: State, model: string, r: nat)
    requires next == Next(cfg, s, n, step) && n !in s.chats && r != Actor(n, step)
    ensures StreamOn(next, r, model) <==> StreamOn(s, r, model)
  {
  }

  lemma WithAndWithout(s: set<nat>, r: nat)
    ensures |s| == |s - {r}| + if r in s then 1 else 0
  {
    if r in s {
      assert s == s - {r} + {r};
    } else {
      assert s == s - {r};
    }
  }

  /** Sets that agree on all but one element. */
  lemma SizeChange(before: set<nat>, after: set<nat>, r: nat)
    requires forall q | q != r :: q in after <==> q in before
    ensures |after| == |before| + (if r in after then 1 else 0) - (if r in before then 1 else 0)
  {
    WithAndWithout(before, r);
    WithAndWithout(after, r);
    assert after - {r} == before - {r};
  }

  lemma OpenNext(cfg: Config, s: State, n: nat, step: Step, next: State, model: string)
    requires next == Next(cfg, s, n, step) && n !in s.chats
    ensures |OpenStreams(next, model)| == |OpenStreams(s, model)| + OpenChange(DeedOf(cfg, s, step), model)
  {
    var r, before, after := Actor(n, step), OpenStreams(s, model), OpenStreams(next, model);
    ActorOpens(cfg, s, n, step, next, model);
    forall q | q != r
      ensures q in after <==> q in before
    {
      OthersStay(cfg, s, n, step, next, model, q);
    }
    SizeChange(before, after, r);
  }

  /** A step's deed belongs to the history of the breakers it starts from. */
  predicate DeedFrom(cfg: Router.Config, deed: Deed, history: seq<Breaker.Event>) {
    match deed
    case Routed(t) => t.cfg == cfg && t.circuits == Breaker.Circuits(cfg.breaker, history)
    case AskedToStream(m, at, allowed) =>
      allowed == Breaker.Permit(cfg.breaker, Breaker.Entry(Breaker.Circuits(cfg.breaker, history), m), at).1
    case _ => true
  }

  lemma DeedFromRun(cfg: Config, s: State, step: Step, history: seq<Breaker.Event>)
    requires s.shared.circuits == Breaker.Circuits(cfg.router.breaker, history)
    ensures DeedFrom(cfg.router, DeedOf(cfg, s, step), history)
  {
  }

  // ----- One step -----

  /** The deed of step n. */
  function DeedAt(run: Run, n: nat): Deed
    requires n < |run.steps|
  {
    DeedOf(run.cfg, After(run, n), run.steps[n])
  }

  /** A deed's events, with the calls it leads to; only a broken-off stream is still to be counted. */
  lemma DeedFits(watch: Watch, deed: Deed, history: seq<Breaker.Event>, n: nat, to: real, open: nat, start: Tally)
      returns (next: Tally)
    requires DeedFrom(watch.cfg, deed, history) && NoSuccess(deed, watch.model) && !BreaksOff(deed, watch.model)
    requires InSpan(watch, history + DeedEvents(deed), n, to) && n <= |history|
    requires Fits(watch, Breaker.Own(history, watch.model), open, start) && Paid(watch, start)
    requires open + 1 <= watch.limit && 0 <= open + OpenChange(deed, watch.model)
    ensures Fits(watch, Breaker.Own(history + DeedEvents(deed), watch.model), open + OpenChange(deed, watch.model),
                 next)
    ensures Paid(watch, next) && next.calls == start.calls + DeedCalls(deed, watch.model) && next.lost == start.lost
  {
    match deed
    case Routed(t) =>
      next := LoopKeeps(watch, t, history, Router.Visited(Router.Visits(t)), n, to, open, start);
    case Nothing =>
      assert history + DeedEvents(deed) == history;
      next := start;
    case AskedToStream(m, at, allowed) =>
      next := AskFits(watch, m, at, allowed, history, n, to, open, start);
    case StreamOver(m, outcome, at) =>
      if outcome.Some? {
        next := EventFits(watch, history, Breaker.Event(m, OutcomeSignal(outcome.value, at)), n, to, open, start);
      } else {
        assert history + DeedEvents(deed) == history;
        next := start;
      }
  }

  lemma AskFits(watch: Watch, m: string, at: real, allowed: bool, history: seq<Breaker.Event>, n: nat, to: real,
                open: nat, start: Tally) returns (next: Tally)
    requires allowed == Breaker.Permit(watch.cfg.breaker,
                                       Breaker.Entry(Breaker.Circuits(watch.cfg.breaker, history), m), at).1
    requires InSpan(watch, history + [Breaker.Event(m, Breaker.Probe(at))], n, to) && n <= |history|
    requires Fits(watch, Breaker.Own(history, watch.model), open, start) && Paid(watch, start)
    requires open + 1 <= watch.limit
    ensures var more := if m == watch.model && allowed then 1 else 0;
            && Fits(watch, Breaker.Own(history + [Breaker.Event(m, Breaker.Probe(at))], watch.model), open + more, next)
            && Paid(watch, next) && next.calls == start.calls + more && next.lost == start.lost
  {
    Breaker.NonInterference(watch.cfg.breaker, history, m);
    next := EventFits(watch, history, Breaker.Event(m, Breaker.Probe(at)), n, to, open, start);
    if m == watch.model && allowed {
      PayOne(start.window.admissions + start.lost, start.calls, 1, BedrockClient.MaxCalls(watch.cfg.maxRetries));
      next := next.(calls := start.calls + 1);
    }
  }

  /** A broken-off stream leaves no event: its admission is lost, and the window goes on as if it had not been. */
  lemma LossFits(watch: Watch, own: seq<Breaker.Signal>, open: nat, start: Tally) returns (next: Tally)
    requires Fits(watch, own, open, start) && Paid(watch, start) && open > 0
    ensures Fits(watch, own, open - 1, next) && Paid(watch, next)
    ensures next.calls == start.calls && next.lost == start.lost + 1
  {
    var w := start.window;
    Breaker.PacedLoss(watch.cfg.breaker, watch.limit, watch.from, w, start.rounds);
    next := start.(window := w.(admissions := w.admissions - 1, batch := w.batch - 1, inFlight := w.inFlight - 1),
                   lost := start.lost + 1);
  }

  // ----- Whole runs -----

  /** Upstream calls to the model that steps a..b-1 lead to. */
  function UpstreamTo(run: Run, model: string, a: nat, b: nat): nat
    requires a <= b <= |run.steps|
    decreases b
  {
    if a == b then 0 else UpstreamTo(run, model, a, b - 1) + DeedCalls(DeedAt(run, b - 1), model)
  }

  /** Streams of the model that steps a..b-1 break off. */
  function BrokenOff(run: Run, model: string, a: nat, b: nat): nat
    requires a <= b <= |run.steps|
    decreases b
  {
    if a == b then 0 else BrokenOff(run, model, a, b - 1) + if BreaksOff(DeedAt(run, b - 1), model) then 1 else 0
  }

  predicate FailsAt(run: Run, n: nat, model: string)
    requires n < |run.steps|
  {
    NoSuccess(DeedAt(run, n), model)
  }

  predicate FewStreams(run: Run, n: nat, model: string, streams: nat)
    requires n <= |run.steps|
  {
    |OpenStreams(After(run, n), model)| <= streams
  }

  /** In steps a..b-1 no call to the model succeeds, and at most `streams` of its streams are open at once. */
  predicate OnlyFails(run: Run, model: string, streams: nat, a: nat, b: nat)
    requires a <= b <= |run.steps|
  {
    && (forall n | a <= n < b :: FailsAt(run, n, model))
    && (forall n | a <= n <= b :: FewStreams(run, n, model, streams))
  }

  /** The breaker's clock is read in order until `to`, and for the model not before `from` in steps a..b-1. */
  predicate Timed(run: Run, model: string, a: nat, b: nat, from: real, to: real)
    requires a <= b <= |run.steps|
  {
    && Breaker.EventsUntil(BreakerEvents(run, b), to)
    && forall i | |BreakerEvents(run, a)| <= i < |BreakerEvents(run, b)| && BreakerEvents(run, b)[i].model == model ::
         from <= BreakerEvents(run, b)[i].signal.at
  }

  lemma {:induction false} EventsPrefix(run: Run, m: nat, n: nat)
    requires m <= n <= |run.steps|
    ensures BreakerEvents(run, m) <= BreakerEvents(run, n)
    decreases n, 1
  {
    if m < n {
      EventsFrom(run, m, n - 1, n);
    }
  }

  lemma {:induction false} EventsFrom(run: Run, m: nat, k: nat, n: nat)
    requires m <= k && n == k + 1 <= |run.steps|
    ensures BreakerEvents(run, m) <= BreakerEvents(run, n)
    decreases n, 0
  {
    EventsPrefix(run, m, k);
    EventsNext(run, k);
  }

  function WatchOf(run: Run, model: string, streams: nat, from: real): Watch {
    Watch(run.cfg.router, model, streams + 1, from)
  }

  /** The tally fits the run after n steps, and has counted what steps a..n-1 led to. */
  predicate Counted(run: Run, model: string, streams: nat, from: real, a: nat, n: nat, t: Tally)
    requires a <= n <= |run.steps|
  {
    var watch := WatchOf(run, model, streams, from);
    && Fits(watch, Breaker.Own(BreakerEvents(run, n), model), |OpenStreams(After(run, n), model)|, t) && Paid(watch, t)
    && t.calls == UpstreamTo(run, model, a, n) && t.lost == BrokenOff(run, model, a, n)
  }

  lemma CountStarts(run: Run, model: string, streams: nat, from: real, a: nat) returns (t: Tally)
    requires a <= |run.steps| && FewStreams(run, a, model, streams)
    ensures Counted(run, model, streams, from, a, a, t)
  {
    var own, open := Breaker.Own(BreakerEvents(run, a), model), |OpenStreams(After(run, a), model)|;
    t := Tally(Breaker.Window(0, 0, open, Breaker.TrailingFailures(own), Breaker.LastFailure(own), from), 0, 0, 0);
  }

  /** One step, from a state whose tally fits. */
  lemma StepFits(run: Run, model: string, streams: nat, from: real, m: nat, k: nat, n: nat, to: real, start: Tally)
      returns (next: Tally)
    requires k == m + 1 <= |run.steps| && FailsAt(run, m, model)
    requires FewStreams(run, m, model, streams) && FewStreams(run, k, model, streams)
    requires var watch := WatchOf(run, model, streams, from);
             && InSpan(watch, BreakerEvents(run, k), n, to) && n <= |BreakerEvents(run, m)|
             && Fits(watch, Breaker.Own(BreakerEvents(run, m), model), |OpenStreams(After(run, m), model)|, start)
             && Paid(watch, start)
    ensures var watch := WatchOf(run, model, streams, from);
            && Fits(watch, Breaker.Own(BreakerEvents(run, k), model), |OpenStreams(After(run, k), model)|, next)
            && Paid(watch, next)
            && next.calls == start.calls + DeedCalls(DeedAt(run, m), model)
            && next.lost == start.lost + if BreaksOff(DeedAt(run, m), model) then 1 else 0
  {
    var watch, history, deed := WatchOf(run, model, streams, from), BreakerEvents(run, m), DeedAt(run, m);
    var s, open := After(run, m), |OpenStreams(After(run, m), model)|;
    CircuitsAreHistory(run, m);
    DeedFromRun(run.cfg, s, run.steps[m], history);
    DeedsAreEvents(run.cfg, s, run.steps[m]);
    EventsNext(run, m);
    AfterNext(run, m);
    ChatsAreArrivals(run, m);
    OpenNext(run.cfg, s, m, run.steps[m], After(run, k), model);
    if BreaksOff(deed, model) {
      assert history + DeedEvents(deed) == history;
      next := LossFits(watch, Breaker.Own(history, model), open, start);
    } else {
      next := DeedFits(watch, deed, history, n, to, open, start);
    }
  }

  lemma CountNext(run: Run, model: string, streams: nat, from: real, a: nat, m: nat, k: nat, to: real, start: Tally)
      returns (next: Tally)
    requires a <= m && k == m + 1 <= |run.steps| && OnlyFails(run, model, streams, a, k)
    requires Timed(run, model, a, k, from, to) && Counted(run, model, streams, from, a, m, start)
    ensures Counted(run, model, streams, from, a, k, next)
  {
    EventsPrefix(run, a, m);
    EventsPrefix(run, a, k);
    assert FailsAt(run, m, model) && FewStreams(run, m, model, streams) && FewStreams(run, k, model, streams);
    next := StepFits(run, model, streams, from, m, k, |BreakerEvents(run, a)|, to, start);
  }

  lemma ShorterSpan(run: Run, model: string, streams: nat, a: nat, m: nat, k: nat, from: real, to: real)
    requires a <= m <= k <= |run.steps| && OnlyFails(run, model, streams, a, k) && Timed(run, model, a, k, from, to)
    ensures OnlyFails(run, model, streams, a, m) && Timed(run, model, a, m, from, to)
  {
    var fewer, events := BreakerEvents(run, m), BreakerEvents(run, k);
    EventsPrefix(run, a, m);
    EventsPrefix(run, m, k);
    forall i | 0 <= i < |fewer|
      ensures fewer[i] == events[i]
    {
    }
  }

  /** In every such stretch of a run, every upstream call to the model is paid for by an admission, counted or lost. */
  lemma {:induction false} RunCounts(run: Run, model: string, streams: nat, a: nat, b: nat, from: real, to: real)
      returns (t: Tally)
    requires a <= b <= |run.steps| && OnlyFails(run, model, streams, a, b) && Timed(run, model, a, b, from, to)
    ensures Counted(run, model, streams, from, a, b, t)
    decreases b, 1
  {
    if a == b {
      assert FewStreams(run, a, model, streams);
      t := CountStarts(run, model, streams, from, a);
    } else {
      t := CountFrom(run, model, streams, a, b - 1, b, from, to);
    }
  }

  lemma {:induction false} CountFrom(run: Run, model: string, streams: nat, a: nat, m: nat, b: nat, from: real,
                                     to: real)
      returns (t: Tally)
    requires a <= m && b == m + 1 <= |run.steps|
    requires OnlyFails(run, model, streams, a, b) && Timed(run, model, a, b, from, to)
    ensures Counted(run, model, streams, from, a, b, t)
    decreases b, 0
  {
    ShorterSpan(run, model, streams, a, m, b, from, to);
    t := RunCounts(run, model, streams, a, m, from, to);
    t := CountNext(run, model, streams, from, a, m, b, to, t);
  }

  // ----- The bound -----

  lemma LimitGrows(cfg: Breaker.Settings, limit: nat, span: real, longer: real)
    requires cfg.resetTimeout > 0.0 && 0.0 <= span <= longer
    ensures 0 <= Breaker.StormLimit(cfg, limit, span) <= Breaker.StormLimit(cfg, limit, longer)
  {
    assert 0.0 <= span / cfg.resetTimeout <= longer / cfg.resetTimeout;
    var few, many := (span / cfg.resetTimeout).Floor, (longer / cfg.resetTimeout).Floor;
    Breaker.Scaled(limit, few, many);
    Breaker.Scaled(limit, 0, few);
  }

  /** What a storm of this length can cost: the admissions of the bound and the broken-off streams, with every retry. */
  function StormCost(cfg: Router.Config, streams: nat, span: real, lost: nat): int
    requires cfg.breaker.resetTimeout > 0.0
  {
    (Breaker.StormLimit(cfg.breaker, streams + 1, span) + lost) * BedrockClient.MaxCalls(cfg.maxRetries)
  }

  lemma OwnUntilEnd(events: seq<Breaker.Event>, model: string, to: real)
    requires Breaker.EventsUntil(events, to)
    ensures var own := Breaker.Own(events, model); own != [] ==> own[|own| - 1].at <= to
  {
    Breaker.OwnUntil(events, model, to);
    InOrder(Breaker.Own(events, model), to);
  }

  lemma CostGrows(cfg: Router.Config, streams: nat, admissions: int, span: real, longer: real, lost: nat, calls: nat)
    requires cfg.breaker.resetTimeout > 0.0 && 0.0 <= span <= longer
    requires 0 <= admissions + lost && admissions <= Breaker.StormLimit(cfg.breaker, streams + 1, span)
    requires calls <= (admissions + lost) * BedrockClient.MaxCalls(cfg.maxRetries)
    ensures calls <= StormCost(cfg, streams, longer, lost)
  {
    LimitGrows(cfg.breaker, streams + 1, span, longer);
    Router.MoreCandidates(admissions + lost, Breaker.StormLimit(cfg.breaker, streams + 1, longer) + lost,
                          BedrockClient.MaxCalls(cfg.maxRetries));
  }

  lemma TallyBounded(cfg: Router.Config, model: string, streams: nat, from: real, events: seq<Breaker.Event>, open: int,
                     t: Tally, to: real)
    requires Fits(Watch(cfg, model, streams + 1, from), Breaker.Own(events, model), open, t)
    requires Paid(Watch(cfg, model, streams + 1, from), t)
    requires cfg.breaker.resetTimeout > 0.0 && from <= to && Breaker.EventsUntil(events, to)
    ensures t.calls <= StormCost(cfg, streams, to - from, t.lost)
  {
    OwnUntilEnd(events, model, to);
    Breaker.PacedTotal(cfg.breaker, streams + 1, from, t.window, t.rounds, t.window.now - from);
    CostGrows(cfg, streams, t.window.admissions, t.window.now - from, to - from, t.lost, t.calls);
  }

  lemma CountedBounded(run: Run, model: string, streams: nat, from: real, a: nat, b: nat, to: real, t: Tally)
    requires a <= b <= |run.steps| && run.cfg.router.breaker.resetTimeout > 0.0 && from <= to
    requires Counted(run, model, streams, from, a, b, t) && Breaker.EventsUntil(BreakerEvents(run, b), to)
    ensures t.calls <= StormCost(run.cfg.router, streams, to - from, t.lost)
  {
    TallyBounded(run.cfg.router, model, streams, from, BreakerEvents(run, b), |OpenStreams(After(run, b), model)|, t,
                 to);
  }

  /**
   * In every run: in a stretch in which no call to a model succeeds and at most N of its
   * streams are open at once, steps whose breaker events for the model fall in a window of
   * length T lead to at most (StormLimit(N + 1, T) + B) * (max_retries + 1) upstream calls
   * to it, whatever requests make them and whatever came before.  B is the number of its
   * streams that the stretch breaks off: nothing else gets past the limit.
   */
  lemma RunStormBound(run: Run, model: string, streams: nat, a: nat, b: nat, from: real, to: real)
    requires a <= b <= |run.steps| && run.cfg.router.breaker.resetTimeout > 0.0 && from <= to
    requires OnlyFails(run, model, streams, a, b) && Timed(run, model, a, b, from, to)
    ensures UpstreamTo(run, model, a, b) <= StormCost(run.cfg.router, streams, to - from, BrokenOff(run, model, a, b))
  {
    var t := RunCounts(run, model, streams, a, b, from, to);
    CountedBounded(run, model, streams, from, a, b, to, t);
  }
}
