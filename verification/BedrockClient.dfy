/**
 * The upstream client (services/gateway/inference/bedrock_client.py): the retry loop of
 * `converse` and the event fold of `converse_stream`.  The upstream is an oracle: a script
 * gives the outcome of every attempt that the loop may make.
 */
module BedrockClient {
  import opened Wrappers

  datatype Completion = Completion(text: string, inputTokens: int, outputTokens: int, stopReason: Option<string>)

  /** What one upstream attempt does; a failure carries the error code found in it, if any. */
  datatype Attempt = Reply(completion: Completion) | Raise(code: Option<string>)

  /** The outcomes of attempts 0, 1, 2, ... */
  type Script = nat -> Attempt

  datatype ConverseResult = ConverseResult(completion: Completion, retryCount: nat)

  datatype InvocationError = InvocationError(attempts: nat, code: string, retryable: bool)

  predicate Retryable(code: Option<string>) {
    || code == Some("ThrottlingException")
    || code == Some("ServiceUnavailableException")
    || code == Some("ModelTimeoutException")
    || code == Some("InternalServerException")
  }

  /** `code or "UPSTREAM_ERROR"`. */
  function PublicCode(code: Option<string>): string {
    match code
    case None => "UPSTREAM_ERROR"
    case Some(c) => if c == "" then "UPSTREAM_ERROR" else c
  }

  /** The most calls one `converse` makes. */
  function MaxCalls(maxRetries: int): nat {
    Max(0, maxRetries) + 1
  }

  /** The attempt that ends the loop, looking from attempt i on. */
  function LastAttempt(script: Script, maxRetries: int, i: nat): (last: nat)
    ensures i <= last <= Max(i, maxRetries)
    decreases maxRetries - i
  {
    if script(i).Raise? && Retryable(script(i).code) && i + 1 <= maxRetries
    then LastAttempt(script, maxRetries, i + 1)
    else i
  }

  function Calls(script: Script, maxRetries: int): (calls: nat)
    ensures 1 <= calls <= MaxCalls(maxRetries)
  {
    LastAttempt(script, maxRetries, 0) + 1
  }

  function Converse(script: Script, maxRetries: int): Result<ConverseResult, InvocationError> {
    var last := LastAttempt(script, maxRetries, 0);
    match script(last)
    case Reply(completion) => Success(ConverseResult(completion, last))
    case Raise(code) => Failure(InvocationError(last + 1, PublicCode(code), Retryable(code)))
  }

  /** Every attempt before the last failed with a retryable code, and the last one had to stop the loop. */
  lemma {:induction false} LastAttemptStops(script: Script, maxRetries: int, i: nat)
    ensures var last := LastAttempt(script, maxRetries, i);
            && (forall k | i <= k < last :: script(k).Raise? && Retryable(script(k).code))
            && (script(last).Reply? || !Retryable(script(last).code) || maxRetries < last + 1)
    decreases maxRetries - i
  {
    if script(i).Raise? && Retryable(script(i).code) && i + 1 <= maxRetries {
      LastAttemptStops(script, maxRetries, i + 1);
    }
  }

  /**
   * What the retry loop promises: a success reports as many retries as there were failures
   * before it, an error that may not be retried stops at once, and a retryable error is
   * raised only after every permitted call was spent.
   */
  lemma RetryContract(script: Script, maxRetries: int)
    ensures var calls := Calls(script, maxRetries);
            && (forall k | 0 <= k < calls - 1 :: script(k).Raise? && Retryable(script(k).code))
            && (match Converse(script, maxRetries)
                case Success(r) => script(calls - 1) == Reply(r.completion) && r.retryCount == calls - 1
                case Failure(e) =>
                  && script(calls - 1).Raise? && e.code == PublicCode(script(calls - 1).code)
                  && e.retryable == Retryable(script(calls - 1).code)
                  && e.attempts == calls
                  && (e.retryable ==> calls == MaxCalls(maxRetries)))
  {
    LastAttemptStops(script, maxRetries, 0);
  }

  /** The error codes that may go away by themselves. */
  const TRANSIENT :=
    {"ThrottlingException", "ServiceUnavailableException", "ModelTimeoutException", "InternalServerException"}

  predicate IsTransient(a: Attempt) {
    a.Raise? && a.code.Some? && a.code.value in TRANSIENT
  }

  lemma RetryableIsTransient(a: Attempt)
    ensures IsTransient(a) <==> a.Raise? && Retryable(a.code)
  {
  }

  lemma {:induction false} LastAttemptIs(script: Script, maxRetries: int, i: nat, k: nat)
    requires i <= k && (k == i || k <= maxRetries) && forall j | i <= j < k :: IsTransient(script(j))
    requires IsTransient(script(k)) ==> maxRetries <= k
    ensures LastAttempt(script, maxRetries, i) == k
    decreases k - i
  {
    RetryableIsTransient(script(i));
    if i < k {
      LastAttemptIs(script, maxRetries, i + 1, k);
    }
  }

  /**
   * What attempt k decides, when every attempt before it failed for a moment: its reply is
   * the answer, after k retries; its error is the error, unless it may go away and a retry
   * is left.
   */
  lemma RetryOutcome(script: Script, maxRetries: int, k: nat)
    requires (k == 0 || k <= maxRetries) && forall j | 0 <= j < k :: IsTransient(script(j))
    ensures match script(k)
            case Reply(completion) =>
              && Converse(script, maxRetries) == Success(ConverseResult(completion, k))
              && Calls(script, maxRetries) == k + 1
            case Raise(code) =>
              !IsTransient(script(k)) || maxRetries <= k ==>
                && Calls(script, maxRetries) == k + 1
                && Converse(script, maxRetries)
                   == Failure(InvocationError(
                                k + 1, if code.None? || code.value == "" then "UPSTREAM_ERROR" else code.value,
                                IsTransient(script(k))))
  {
    RetryableIsTransient(script(k));
    if !IsTransient(script(k)) || maxRetries <= k {
      LastAttemptIs(script, maxRetries, 0, k);
    }
  }

  /** Every call ends by some attempt, and by the one after the last permitted retry at the latest. */
  lemma RetryEnds(script: Script, maxRetries: int) returns (k: nat)
    ensures (k == 0 || k <= maxRetries) && forall j | 0 <= j < k :: IsTransient(script(j))
    ensures !IsTransient(script(k)) || maxRetries <= k
  {
    k := LastAttempt(script, maxRetries, 0);
    LastAttemptStops(script, maxRetries, 0);
    RetryableIsTransient(script(k));
    forall j | 0 <= j < k
      ensures IsTransient(script(j))
    {
      RetryableIsTransient(script(j));
    }
  }

  function PowerOfTwo(n: nat): (r: nat)
    ensures r >= 1
  {
    if n == 0 then 1 else 2 * PowerOfTwo(n - 1)
  }

  type Seconds = r: real | 0.0 <= r witness 0.0

  type Fraction = r: real | 0.0 <= r <= 1.0 witness 0.0

  /** `jitter(i)` is the fraction of the full back-off that the i-th sleep takes. */
  type Jitter = nat -> Fraction

  /** The longest sleep after failure k + 1. */
  function FullBackoff(baseBackoff: Seconds, k: nat): Seconds {
    baseBackoff * PowerOfTwo(k) as real
  }

  /** `random.uniform(0, full)`: some fraction of the full back-off. */
  function Share(fraction: Fraction, full: Seconds): (r: Seconds)
    ensures r <= full
  {
    assert 0.0 <= (1.0 - fraction) * full;
    fraction * full
  }

  /** The first n full back-offs. */
  function Ladder(baseBackoff: Seconds, n: nat): Seconds {
    if n == 0 then 0.0 else Ladder(baseBackoff, n - 1) + FullBackoff(baseBackoff, n - 1)
  }

  /** The first n sleeps. */
  function Slept(baseBackoff: Seconds, jitter: Jitter, n: nat): Seconds {
    if n == 0 then 0.0 else Slept(baseBackoff, jitter, n - 1) + Share(jitter(n - 1), FullBackoff(baseBackoff, n - 1))
  }

  class Client {
    const maxRetries: int
    const baseBackoff: Seconds

    constructor (maxRetries: int, baseBackoff: Seconds)
      ensures this.maxRetries == maxRetries && this.baseBackoff == baseBackoff
    {
      this.maxRetries, this.baseBackoff := maxRetries, baseBackoff;
    }

    method Invoke(script: Script, jitter: Jitter)
      returns (r: Result<ConverseResult, InvocationError>, calls: nat, slept: Seconds)
      ensures r == Converse(script, maxRetries) && calls == Calls(script, maxRetries)
      ensures slept == Slept(baseBackoff, jitter, calls - 1)
    {
      var attempt: nat := 0;
      calls, slept := 0, 0.0;
      while true
        invariant attempt <= Max(0, maxRetries) && calls == attempt
        invariant LastAttempt(script, maxRetries, 0) == LastAttempt(script, maxRetries, attempt)
        invariant slept == Slept(baseBackoff, jitter, attempt)
        decreases Max(0, maxRetries) - attempt
      {
        calls := calls + 1;
        match script(attempt)
        case Reply(completion) =>
          return Success(ConverseResult(completion, attempt)), calls, slept;
        case Raise(code) =>
          var retryable := Retryable(code);
          attempt := attempt + 1;
          if !retryable || attempt > maxRetries {
            return Failure(InvocationError(attempt, PublicCode(code), retryable)), calls, slept;
          }
          slept := slept + Share(jitter(attempt - 1), FullBackoff(baseBackoff, attempt - 1));
      }
    }
  }

  lemma {:induction false} SleptWithinLadder(baseBackoff: Seconds, jitter: Jitter, n: nat)
    ensures Slept(baseBackoff, jitter, n) <= Ladder(baseBackoff, n)
  {
    if n > 0 {
      SleptWithinLadder(baseBackoff, jitter, n - 1);
    }
  }

  lemma {:induction false} LadderSum(baseBackoff: Seconds, n: nat)
    ensures Ladder(baseBackoff, n) == baseBackoff * (PowerOfTwo(n) - 1) as real
  {
    if n > 0 {
      LadderSum(baseBackoff, n - 1);
      var p := PowerOfTwo(n - 1) as real;
      assert (PowerOfTwo(n) - 1) as real == (p - 1.0) + p;
      assert baseBackoff * ((p - 1.0) + p) == baseBackoff * (p - 1.0) + baseBackoff * p;
    }
  }

  lemma {:induction false} LadderMonotone(baseBackoff: Seconds, m: nat, n: nat)
    requires m <= n
    ensures Ladder(baseBackoff, m) <= Ladder(baseBackoff, n)
    decreases n
  {
    if m < n {
      LadderMonotone(baseBackoff, m, n - 1);
    }
  }

  /** The most one call can sleep: base * (2^max_retries - 1). */
  function MostSlept(baseBackoff: Seconds, maxRetries: int): Seconds {
    baseBackoff * (PowerOfTwo(Max(0, maxRetries)) - 1) as real
  }

  lemma SleepsBounded(baseBackoff: Seconds, jitter: Jitter, n: nat, most: nat)
    requires n <= most
    ensures Slept(baseBackoff, jitter, n) <= baseBackoff * (PowerOfTwo(most) - 1) as real
  {
    SleptWithinLadder(baseBackoff, jitter, n);
    LadderMonotone(baseBackoff, n, most);
    LadderSum(baseBackoff, most);
  }

  /** However the attempts and the jitter go, the sleeps of one call stay within base * (2^max_retries - 1). */
  lemma TotalBackoff(script: Script, maxRetries: int, baseBackoff: Seconds, jitter: Jitter)
    ensures Slept(baseBackoff, jitter, Calls(script, maxRetries) - 1) <= MostSlept(baseBackoff, maxRetries)
  {
    SleepsBounded(baseBackoff, jitter, Calls(script, maxRetries) - 1, Max(0, maxRetries));
  }

  /** The sleep after failure i + 1 is its fraction of base * 2^i. */
  lemma SleepIs(baseBackoff: Seconds, jitter: Jitter, i: nat)
    ensures Slept(baseBackoff, jitter, i + 1) - Slept(baseBackoff, jitter, i)
            == jitter(i) * (baseBackoff * PowerOfTwo(i) as real)
  {
  }

  /** With nothing left to chance and every retry spent the bound is attained: the sleeps are really taken. */
  lemma {:induction false} FullJitter(baseBackoff: Seconds, jitter: Jitter, n: nat)
    requires forall i | 0 <= i < n :: jitter(i) == 1.0
    ensures Slept(baseBackoff, jitter, n) == Ladder(baseBackoff, n)
  {
    if n > 0 {
      FullJitter(baseBackoff, jitter, n - 1);
      SleepIs(baseBackoff, jitter, n - 1);
    }
  }

  lemma FullLadder(baseBackoff: Seconds, jitter: Jitter, n: nat)
    requires forall i | 0 <= i < n :: jitter(i) == 1.0
    ensures Slept(baseBackoff, jitter, n) == MostSlept(baseBackoff, n)
  {
    FullJitter(baseBackoff, jitter, n);
    LadderSum(baseBackoff, n);
  }

  lemma BackoffAttained(script: Script, maxRetries: nat, baseBackoff: Seconds, jitter: Jitter)
    requires forall i | 0 <= i < maxRetries :: IsTransient(script(i)) && jitter(i) == 1.0
    ensures Slept(baseBackoff, jitter, Calls(script, maxRetries) - 1) == MostSlept(baseBackoff, maxRetries)
  {
    RetryOutcome(script, maxRetries, maxRetries);
    FullLadder(baseBackoff, jitter, maxRetries);
  }

  // ----- Streaming -----

  /** One event of an upstream stream. */
  datatype StreamEvent =
    | ContentDelta(text: Option<string>)
    | MessageStop(stopReason: Option<string>)
    | Metadata(inputTokens: Option<int>, outputTokens: Option<int>)
    | Other

  datatype StreamChunk = StreamChunk(
    textDelta: string,
    isFinal: bool,
    stopReason: Option<string>,
    inputTokens: Option<int>,
    outputTokens: Option<int>)

  function DeltaChunk(text: string): StreamChunk {
    StreamChunk(text, false, None, None, None)
  }

  /** The non-empty text deltas among the events, in order. */
  function Deltas(events: seq<StreamEvent>): seq<string> {
    if events == [] then [] else
    var e := events[|events| - 1];
    var before := Deltas(events[..|events| - 1]);
    if e.ContentDelta? && e.text.Some? && e.text.value != "" then before + [e.text.value] else before
  }

  /** The stop reason of the last message stop. */
  function StopReason(events: seq<StreamEvent>): Option<string> {
    if events == [] then None else
    var e := events[|events| - 1];
    if e.MessageStop? then e.stopReason else StopReason(events[..|events| - 1])
  }

  /** The token counts of the last metadata event. */
  function TokenCounts(events: seq<StreamEvent>): (Option<int>, Option<int>) {
    if events == [] then (None, None) else
    var e := events[|events| - 1];
    if e.Metadata? then (e.inputTokens, e.outputTokens) else TokenCounts(events[..|events| - 1])
  }

  function DeltaChunks(texts: seq<string>): seq<StreamChunk> {
    seq(|texts|, i requires 0 <= i < |texts| => DeltaChunk(texts[i]))
  }

  /** The last chunk of a stream that does not break. */
  function FinalChunk(events: seq<StreamEvent>): StreamChunk {
    StreamChunk("", true, StopReason(events), TokenCounts(events).0, TokenCounts(events).1)
  }

  /** The chunks a stream yields; a stream that breaks yields no final chunk. */
  function Chunks(events: seq<StreamEvent>, broken: bool): seq<StreamChunk> {
    DeltaChunks(Deltas(events)) + if broken then [] else [FinalChunk(events)]
  }

  // ----- What the fold finds -----

  /** The text that one event adds. */
  function TextOf(e: StreamEvent): seq<string> {
    match e
    case ContentDelta(Some(text)) => if text == "" then [] else [text]
    case _ => []
  }

  lemma {:induction false} DeltasAppend(events: seq<StreamEvent>, e: StreamEvent)
    ensures Deltas(events + [e]) == Deltas(events) + TextOf(e)
  {
    assert (events + [e])[..|events|] == events;
  }

  /** Texts come through event by event: no event but a non-empty delta adds one, and each adds exactly its own. */
  lemma {:induction false} DeltasJoin(events: seq<StreamEvent>, more: seq<StreamEvent>)
    ensures Deltas(events + more) == Deltas(events) + Deltas(more)
    ensures forall e :: Deltas([e]) == TextOf(e)
    decreases |more|
  {
    forall e
      ensures Deltas([e]) == TextOf(e)
    {
      DeltasAppend([], e);
      assert [] + [e] == [e];
    }
    if more == [] {
      assert events + more == events;
    } else {
      var n := |more| - 1;
      DeltasJoin(events, more[..n]);
      DeltasAppend(events + more[..n], more[n]);
      DeltasAppend(more[..n], more[n]);
      assert events + more == events + more[..n] + [more[n]] && more == more[..n] + [more[n]];
    }
  }

  /** Event k is the last of the metadata events. */
  predicate LastMetadata(events: seq<StreamEvent>, k: nat) {
    k < |events| && events[k].Metadata? && forall j | k < j < |events| :: !events[j].Metadata?
  }

  /** The usage that the stream ends with: the last metadata event's, nothing when there is none. */
  ghost predicate UsageIs(events: seq<StreamEvent>, inputTokens: Option<int>, outputTokens: Option<int>) {
    if exists k: nat :: LastMetadata(events, k)
    then exists k: nat :: LastMetadata(events, k) && events[k] == Metadata(inputTokens, outputTokens)
    else inputTokens.None? && outputTokens.None?
  }

  /** Event k is the last of the message stops. */
  predicate LastStop(events: seq<StreamEvent>, k: nat) {
    k < |events| && events[k].MessageStop? && forall j | k < j < |events| :: !events[j].MessageStop?
  }

  ghost predicate StopIs(events: seq<StreamEvent>, reason: Option<string>) {
    if exists k: nat :: LastStop(events, k) then
      exists k: nat :: LastStop(events, k) && events[k] == MessageStop(reason)
    else reason.None?
  }

  lemma {:induction false} FindUsage(events: seq<StreamEvent>)
    ensures UsageIs(events, TokenCounts(events).0, TokenCounts(events).1)
  {
    if events != [] {
      var n := |events| - 1;
      FindUsage(events[..n]);
      if events[n].Metadata? {
        assert LastMetadata(events, n);
      } else {
        forall k: nat
          ensures LastMetadata(events, k) <==> LastMetadata(events[..n], k)
        {
        }
      }
    }
  }

  lemma {:induction false} FindStop(events: seq<StreamEvent>)
    ensures StopIs(events, StopReason(events))
  {
    if events != [] {
      var n := |events| - 1;
      FindStop(events[..n]);
      if events[n].MessageStop? {
        assert LastStop(events, n);
      } else {
        forall k: nat
          ensures LastStop(events, k) <==> LastStop(events[..n], k)
        {
        }
      }
    }
  }

  /** The last chunk of a stream that does not break. */
  ghost predicate EndsWith(events: seq<StreamEvent>, final: StreamChunk) {
    && final.textDelta == "" && final.isFinal && StopIs(events, final.stopReason)
    && UsageIs(events, final.inputTokens, final.outputTokens)
  }

  lemma FinalChunkEnds(events: seq<StreamEvent>)
    ensures EndsWith(events, FinalChunk(events))
  {
    FindUsage(events);
    FindStop(events);
  }

  method ConverseStream(events: seq<StreamEvent>, broken: bool) returns (chunks: seq<StreamChunk>)
    ensures chunks == Chunks(events, broken)
    ensures !broken ==> chunks != [] && EndsWith(events, chunks[|chunks| - 1])
  {
    FinalChunkEnds(events);
    var stopReason: Option<string> := None;
    var inputTokens: Option<int> := None;
    var outputTokens: Option<int> := None;
    chunks := [];
    for i := 0 to |events|
      invariant chunks == DeltaChunks(Deltas(events[..i]))
      invariant stopReason == StopReason(events[..i]) && (inputTokens, outputTokens) == TokenCounts(events[..i])
    {
      assert events[..i + 1][..i] == events[..i];
      match events[i]
      case ContentDelta(text) =>
        if text.Some? && text.value != "" {
          chunks := chunks + [DeltaChunk(text.value)];
        }
      case MessageStop(reason) => stopReason := reason;
      case Metadata(input, output) => inputTokens, outputTokens := input, output;
      case Other =>
    }
    assert events[..|events|] == events;
    if !broken {
      chunks := chunks + [StreamChunk("", true, stopReason, inputTokens, outputTokens)];
    }
  }
}
