/**
 The streaming relay of the local proxy: it forwards provisional deltas while the inference runs,
 and finishes the stream only after the inference has returned.
 The task waits for the first of three things: cancellation, the result, the next event. A
 schedule says what becomes ready and which ready branch the task takes.
 */
module Relay {
  import opened Prelude

  datatype Reason = Stop | Length | ToolCalls | ContentFilter | Other(name: string)

  datatype ProviderEvent =
    | TextDelta(text: string)
    | ReasoningDelta(text: string)
    | RefusalDelta(text: string)
    | ToolCallDelta(delta: string)
    | Usage(inputTokens: nat, outputTokens: nat)
    | Finished(reason: Reason)
      // Accounting, security state and evidence, verification, status.
    | Internal(kind: string)

  datatype Chunk =
    | Start
    | Text(text: string)
    | Reasoning(text: string)
    | Refused(text: string)
    | ToolDelta(delta: string)
    | UsageChunk(prompt: nat, completion: nat, total: nat)
    | Finish(reason: Reason)
    | Done
    | Failure(error: Error)

  datatype Response = Response(finishReason: Option<Reason>, totalTokens: nat)

  datatype Terminal = CompletedLog(totalTokens: nat) | CancelledLog | FailedLog

  const U64_MAX: nat := 0xFFFF_FFFF_FFFF_FFFF

  /** The chunk a client gets for an event, if it gets one. */
  function StreamEvent(e: ProviderEvent, includeUsage: bool): Option<Chunk> {
    match e
    case TextDelta(text) => Some(Text(text))
    case ReasoningDelta(text) => Some(Reasoning(text))
    case RefusalDelta(text) => Some(Refused(text))
    case ToolCallDelta(delta) => Some(ToolDelta(delta))
    case Usage(input, output) =>
      if includeUsage then Some(UsageChunk(input, output, Min(input + output, U64_MAX))) else None
    case Finished(reason) => Some(Finish(reason))
    case Internal(_) => None
  }

  /** What one event contributes to the stream; the provider's own finish never passes. */
  function Contribution(e: ProviderEvent, includeUsage: bool): seq<Chunk> {
    if e.Finished? || StreamEvent(e, includeUsage).None? then [] else [StreamEvent(e, includeUsage).value]
  }

  function Forwarded(events: seq<ProviderEvent>, includeUsage: bool): seq<Chunk> {
    if events == [] then []
    else Forwarded(events[..|events| - 1], includeUsage) + Contribution(events[|events| - 1], includeUsage)
  }

  /** The chunks after the last delta, by the outcome of the inference. */
  function TerminalChunks(result: Result<Response>): seq<Chunk> {
    match result
    case Ok(response) =>
      [Finish(if response.finishReason.Some? then response.finishReason.value else Stop), Done]
    case Err(error) => [Failure(error)]
  }

  function TerminalLog(result: Result<Response>): Terminal {
    match result
    case Ok(response) => CompletedLog(response.totalTokens)
    case Err(error) => if error == Cancelled then CancelledLog else FailedLog
  }

  /** How a stream ends: with the reason the inference gave, or Stop, and then done; or with the
      error, alone. */
  lemma TerminalTells(result: Result<Response>)
    ensures result.Ok? ==>
              && TerminalChunks(result)
                 == [Finish(match result.value.finishReason case Some(reason) => reason case None => Stop), Done]
              && TerminalLog(result) == CompletedLog(result.value.totalTokens)
    ensures result.Err? ==>
              && TerminalChunks(result) == [Failure(result.error)]
              && TerminalLog(result) == if result.error == Cancelled then CancelledLog else FailedLog
  {
  }

  /** What a client reads of one kind, put together, and what was produced of it. */
  datatype Kind = TextKind | ReasoningKind | RefusalKind

  function TextIn(kind: Kind, c: Chunk): string {
    match c
    case Text(text) => if kind.TextKind? then text else ""
    case Reasoning(text) => if kind.ReasoningKind? then text else ""
    case Refused(text) => if kind.RefusalKind? then text else ""
    case _ => ""
  }

  function TextFrom(kind: Kind, e: ProviderEvent): string {
    match e
    case TextDelta(text) => if kind.TextKind? then text else ""
    case ReasoningDelta(text) => if kind.ReasoningKind? then text else ""
    case RefusalDelta(text) => if kind.RefusalKind? then text else ""
    case _ => ""
  }

  function ReadOf(kind: Kind, chunks: seq<Chunk>): string {
    if chunks == [] then "" else ReadOf(kind, chunks[..|chunks| - 1]) + TextIn(kind, chunks[|chunks| - 1])
  }

  function ProducedOf(kind: Kind, events: seq<ProviderEvent>): string {
    if events == [] then "" else ProducedOf(kind, events[..|events| - 1]) + TextFrom(kind, events[|events| - 1])
  }

  /** The tool deltas a client reads and the usage it is told, in order, and what was produced of them. */
  function DeltaIn(c: Chunk): seq<Chunk> {
    if c.ToolDelta? || c.UsageChunk? then [c] else []
  }

  function DeltaFrom(e: ProviderEvent, includeUsage: bool): seq<Chunk> {
    match e
    case ToolCallDelta(delta) => [ToolDelta(delta)]
    case Usage(input, output) =>
      if !includeUsage then []
      else [UsageChunk(input, output, if input + output <= U64_MAX then input + output else U64_MAX)]
    case _ => []
  }

  function DeltasRead(chunks: seq<Chunk>): seq<Chunk> {
    if chunks == [] then [] else DeltasRead(chunks[..|chunks| - 1]) + DeltaIn(chunks[|chunks| - 1])
  }

  function DeltasProduced(events: seq<ProviderEvent>, includeUsage: bool): seq<Chunk> {
    if events == [] then []
    else DeltasProduced(events[..|events| - 1], includeUsage) + DeltaFrom(events[|events| - 1], includeUsage)
  }

  lemma ReadsMore(kind: Kind, chunks: seq<Chunk>, added: seq<Chunk>)
    requires |added| <= 1
    ensures ReadOf(kind, chunks + added) == ReadOf(kind, chunks) + if added == [] then "" else TextIn(kind, added[0])
    ensures DeltasRead(chunks + added) == DeltasRead(chunks) + if added == [] then [] else DeltaIn(added[0])
  {
    if added == [] {
      assert chunks + added == chunks;
    } else {
      assert (chunks + added)[..|chunks|] == chunks;
    }
  }

  /** One event: what it says is what its chunk says, if it has one, and nothing otherwise. */
  lemma ContributionTells(kind: Kind, e: ProviderEvent, includeUsage: bool)
    ensures var added := Contribution(e, includeUsage);
            && |added| <= 1
            && TextFrom(kind, e) == (if added == [] then "" else TextIn(kind, added[0]))
            && DeltaFrom(e, includeUsage) == if added == [] then [] else DeltaIn(added[0])
  {
  }

  /** The text, the reasoning and the refusal a client reads, each put together, are what was
      produced of it; so are the tool deltas and, when asked for, the usage, in order. */
  lemma {:induction false} ForwardedTells(kind: Kind, events: seq<ProviderEvent>, includeUsage: bool)
    ensures ReadOf(kind, Forwarded(events, includeUsage)) == ProducedOf(kind, events)
    ensures DeltasRead(Forwarded(events, includeUsage)) == DeltasProduced(events, includeUsage)
  {
    if events != [] {
      var n := |events| - 1;
      ForwardedTells(kind, events[..n], includeUsage);
      ContributionTells(kind, events[n], includeUsage);
      ReadsMore(kind, Forwarded(events[..n], includeUsage), Contribution(events[n], includeUsage));
    }
  }

  predicate IsTerminalChunk(c: Chunk) {
    c.Finish? || c.Done? || c.Failure?
  }

  /** The events of a relay, and what it sent and logged. */
  datatype Record = Record(
    produced: seq<ProviderEvent>,
    returned: Option<Result<Response>>,
    cancelled: bool,
    output: seq<Chunk>,
    log: seq<Terminal>)

  /** The output is the start and the first `n` events' chunks. */
  predicate InProgress(r: Record, includeUsage: bool, n: nat) {
    n <= |r.produced| && r.output == [Start] + Forwarded(r.produced[..n], includeUsage)
  }

  /** The relay ended with `result`: every event was forwarded, then some of the terminal chunks. */
  predicate EndedWith(r: Record, includeUsage: bool, result: Result<Response>, k: nat) {
    && k <= |TerminalChunks(result)|
    && r.output == [Start] + Forwarded(r.produced, includeUsage) + TerminalChunks(result)[..k]
    && (r.returned == Some(result) || (r.cancelled && result == Err(Cancelled)))
    && r.log == [if k == 0 && result.Ok? then CancelledLog else TerminalLog(result)]
  }

  /** All a relay may have done when it ends. */
  ghost predicate Honest(r: Record, includeUsage: bool) {
    || (r.output == [] && r.log == [CancelledLog])
    || (r.log == [CancelledLog] && exists n :: InProgress(r, includeUsage, n))
    || (exists result, k :: EndedWith(r, includeUsage, result, k))
  }

  lemma {:induction false} ForwardedConcat(a: seq<ProviderEvent>, b: seq<ProviderEvent>, includeUsage: bool)
    ensures Forwarded(a + b, includeUsage) == Forwarded(a, includeUsage) + Forwarded(b, includeUsage)
  {
    if b == [] {
      assert a + b == a;
    } else {
      assert (a + b)[..|a + b| - 1] == a + b[..|b| - 1];
      ForwardedConcat(a, b[..|b| - 1], includeUsage);
    }
  }

  lemma {:induction false} ForwardedIsProvisional(events: seq<ProviderEvent>, includeUsage: bool)
    ensures forall c | c in Forwarded(events, includeUsage) :: !IsTerminalChunk(c) && c != Start
  {
    if events != [] {
      ForwardedIsProvisional(events[..|events| - 1], includeUsage);
    }
  }

  /** Whatever part of its stream a client has read, the deltas in it are an in-order prefix of
      the deltas of the whole run, without repetition. */
  lemma DeltasAreAPrefix(r: Record, includeUsage: bool, n: nat)
    requires InProgress(r, includeUsage, n)
    ensures r.output <= [Start] + Forwarded(r.produced, includeUsage)
  {
    assert r.produced == r.produced[..n] + r.produced[n..];
    ForwardedConcat(r.produced[..n], r.produced[n..], includeUsage);
  }

  lemma Advances(a: Record, b: Record, includeUsage: bool, n: nat)
    requires InProgress(a, includeUsage, n) && n < |a.produced| && b.produced == a.produced
    requires b.output == a.output + Contribution(a.produced[n], includeUsage)
    ensures InProgress(b, includeUsage, n + 1)
  {
    assert a.produced[..n + 1][..n] == a.produced[..n];
  }

  lemma TerminalEndsProgress(r: Record, includeUsage: bool, n: nat, c: Chunk)
    requires c in r.output && IsTerminalChunk(c)
    ensures !InProgress(r, includeUsage, n)
  {
    if n <= |r.produced| {
      ForwardedIsProvisional(r.produced[..n], includeUsage);
    }
  }

  /** A terminal chunk in the output tells how the relay ended. */
  lemma TerminalChunkTells(r: Record, includeUsage: bool, c: Chunk) returns (result: Result<Response>, k: nat)
    requires Honest(r, includeUsage) && c in r.output && IsTerminalChunk(c)
    ensures 0 < k && EndedWith(r, includeUsage, result, k) && c in TerminalChunks(result)
  {
    forall n: nat
      ensures !InProgress(r, includeUsage, n)
    {
      TerminalEndsProgress(r, includeUsage, n, c);
    }
    result, k :| EndedWith(r, includeUsage, result, k);
    ForwardedIsProvisional(r.produced, includeUsage);
    var deltas, chunks := [Start] + Forwarded(r.produced, includeUsage), TerminalChunks(result)[..k];
    assert r.output == deltas + chunks && c !in deltas;
    assert c in chunks;
  }

  /** A finish or done chunk appears only after the inference has returned success, behind the
      chunks of every event it produced, and the run is logged as completed. */
  lemma FinishMeansSuccess(r: Record, includeUsage: bool, c: Chunk)
    requires Honest(r, includeUsage) && c in r.output && (c.Finish? || c.Done?)
    ensures r.returned.Some? && r.returned.value.Ok?
    ensures r.log == [CompletedLog(r.returned.value.value.totalTokens)]
    ensures [Start] + Forwarded(r.produced, includeUsage) + TerminalChunks(r.returned.value)[..1] <= r.output
    ensures r.output <= [Start] + Forwarded(r.produced, includeUsage) + TerminalChunks(r.returned.value)
  {
    var result, k := TerminalChunkTells(r, includeUsage, c);
    var chunks := TerminalChunks(result);
    assert chunks[..1] <= chunks[..k] <= chunks;
  }

  /** A failure envelope stands last and alone, behind every delta, and the run is not logged as
      completed. */
  lemma FailureStandsAlone(r: Record, includeUsage: bool, error: Error)
    requires Honest(r, includeUsage) && Failure(error) in r.output
    ensures r.output == [Start] + Forwarded(r.produced, includeUsage) + [Failure(error)]
    ensures r.log == [TerminalLog(Err(error))] && !r.log[0].CompletedLog?
  {
    var result, k := TerminalChunkTells(r, includeUsage, Failure(error));
    assert TerminalChunks(result) == [Failure(error)];
    assert TerminalChunks(result)[..k] == [Failure(error)];
  }

  // ---------- The task ----------

  /** What happens around the task, and which ready branch it takes. */
  datatype Tick =
    | Produce(event: ProviderEvent)
    | Return(result: Result<Response>)
    | Cancel
    | TakeCancellation
    | TakeResult
    | TakeEvent

  /** What becomes of one send: delivered, overtaken by a cancellation, refused because the
      client is gone, or not encodable. */
  datatype Delivery = Delivered | Overtaken | ClientGone | NotEncodable

  function NextDelivery(deliveries: seq<Delivery>): Delivery {
    if deliveries == [] then Delivered else deliveries[0]
  }

  /** The schedule takes a result that has been returned, or a cancellation that has come. */
  predicate TakesEnd(schedule: seq<Tick>) {
    exists i, j | 0 <= i < j < |schedule| ::
      || (schedule[i].Return? && schedule[j].TakeResult?)
      || (schedule[i].Cancel? && schedule[j].TakeCancellation?)
  }

  /** The end of a stream that was delivered whole, and its log. */
  predicate EndsAs(output: seq<Chunk>, log: seq<Terminal>, result: Result<Response>) {
    var n := |output|;
    match result
    case Ok(Response(reason, total)) =>
      && n >= 2 && output[n - 1] == Done && log == [CompletedLog(total)]
      && output[n - 2] == Finish(match reason case Some(given) => given case None => Stop)
    case Err(error) =>
      && n >= 1 && output[n - 1] == Failure(error)
      && log == [if error == Cancelled then CancelledLog else FailedLog]
  }

  class Task {
    const includeUsage: bool
    var produced: seq<ProviderEvent>
    var received: nat
    var returned: Option<Result<Response>>
    var cancelled: bool
    var deliveries: seq<Delivery>
    var output: seq<Chunk>
    var log: seq<Terminal>

    function View(): Record
      reads this
    {
      Record(produced, returned, cancelled, output, log)
    }

    constructor (includeUsage: bool, deliveries: seq<Delivery>)
      ensures this.includeUsage == includeUsage && this.deliveries == deliveries
      ensures View() == Record([], None, false, [], []) && received == 0
    {
      this.includeUsage := includeUsage;
      this.deliveries := deliveries;
      produced, received := [], 0;
      returned := None;
      cancelled := false;
      output, log := [], [];
    }

    /** Everything received so far is forwarded; the channel holds the rest of what was produced. */
    predicate Forwarding()
      reads this
    {
      InProgress(View(), includeUsage, received)
    }

    predicate AllDelivered()
      reads this
    {
      forall i | 0 <= i < |deliveries| :: deliveries[i] == Delivered
    }

    /** Send one chunk unless the request is cancelled; a client that is gone cancels it. */
    method SendChunk(c: Chunk) returns (sent: bool)
      modifies this
      ensures produced == old(produced) && received == old(received) && returned == old(returned) && log == old(log)
      ensures output == if sent then old(output) + [c] else old(output)
      ensures sent <==> NextDelivery(old(deliveries)).Delivered?
      ensures cancelled == (old(cancelled) || NextDelivery(old(deliveries)) in {Overtaken, ClientGone})
      ensures old(AllDelivered()) ==> sent && AllDelivered()
    {
      var delivery := NextDelivery(deliveries);
      deliveries := if deliveries == [] then [] else deliveries[1..];
      match delivery {
        case Delivered =>
          output := output + [c];
          sent := true;
        case Overtaken =>
          cancelled := true;
          sent := false;
        case ClientGone =>
          cancelled := true;
          sent := false;
        case NotEncodable =>
          sent := false;
      }
    }

    /** Send what one event contributes, if it contributes anything. */
    method Offer(event: ProviderEvent) returns (sent: bool)
      modifies this
      ensures produced == old(produced) && received == old(received) && returned == old(returned) && log == old(log)
      ensures output == if sent then old(output) + Contribution(event, includeUsage) else old(output)
      ensures old(cancelled) ==> cancelled
      ensures old(AllDelivered()) ==> sent && AllDelivered()
    {
      sent := true;
      if !event.Finished? {
        var chunk := StreamEvent(event, includeUsage);
        if chunk.Some? {
          sent := SendChunk(chunk.value);
        }
      }
    }

    /** Take one event from the channel and forward it. */
    method Forward() returns (sent: bool)
      requires received < |produced| && Forwarding()
      modifies this
      ensures produced == old(produced) && returned == old(returned) && log == old(log)
      ensures old(cancelled) ==> cancelled
      ensures received == old(received) + 1
      ensures sent ==> Forwarding()
      ensures !sent ==> InProgress(View(), includeUsage, old(received))
      ensures old(AllDelivered()) ==> sent && AllDelivered()
    {
      var event := produced[received];
      received := received + 1;
      sent := Offer(event);
      if sent {
        Advances(old(View()), View(), includeUsage, old(received));
      }
    }

    /** One turn of the select loop: Some(result) when it breaks. */
    method Poll(tick: Tick) returns (broken: Option<Result<Response>>, sent: bool)
      requires Forwarding() && log == []
      modifies this
      ensures log == [] && (old(cancelled) ==> cancelled)
      ensures sent ==> Forwarding()
      ensures !sent ==> broken.None? && exists n :: InProgress(View(), includeUsage, n)
      ensures sent && broken.None? ==>
                && !(old(returned).Some? && tick.TakeResult?) && !(old(cancelled) && tick.TakeCancellation?)
                && (old(returned).Some? || tick.Return? ==> returned.Some?)
                && (tick.Cancel? ==> cancelled)
      ensures broken.Some? ==> returned == broken || (cancelled && broken == Some(Err(Cancelled)))
      ensures old(AllDelivered()) ==> sent && AllDelivered()
    {
      broken, sent := None, true;
      match tick {
        case Produce(event) =>
          if returned.None? {
            assert (produced + [event])[..received] == produced[..received];
            produced := produced + [event];
          }
        case Return(result) =>
          if returned.None? {
            returned := Some(result);
          }
        case Cancel =>
          cancelled := true;
        case TakeCancellation =>
          if cancelled {
            broken := Some(Err(Cancelled));
          }
        case TakeResult =>
          broken := returned;
        case TakeEvent =>
          if received < |produced| {
            sent := Forward();
            assert !sent ==> InProgress(View(), includeUsage, old(received));
          }
      }
    }

    /** Forward what is left in the channel. */
    method Drain() returns (sent: bool)
      requires Forwarding() && log == []
      modifies this
      ensures log == [] && returned == old(returned) && (old(cancelled) ==> cancelled)
      ensures sent ==> received == |produced| && Forwarding()
      ensures !sent ==> exists n :: InProgress(View(), includeUsage, n)
      ensures old(AllDelivered()) ==> sent && AllDelivered()
    {
      sent := true;
      while received < |produced|
        invariant Forwarding() && log == [] && returned == old(returned) && (old(cancelled) ==> cancelled)
        invariant old(AllDelivered()) ==> AllDelivered()
        invariant received <= |produced|
        decreases |produced| - received
      {
        ghost var n := received;
        sent := Forward();
        if !sent {
          assert InProgress(View(), includeUsage, n);
          return;
        }
      }
    }

    /** A delta could not be sent: log the end of the request and send nothing more. */
    method Abandon()
      requires log == [] && exists n :: InProgress(View(), includeUsage, n)
      modifies this`log
      ensures log == [CancelledLog] && Honest(View(), includeUsage)
    {
      ghost var n :| InProgress(View(), includeUsage, n);
      log := log + [CancelledLog];
      assert InProgress(View(), includeUsage, n);
    }

    /** The inference succeeded: finish, log, and mark the stream done. */
    method EndWell(response: Response)
      requires InProgress(View(), includeUsage, |produced|) && log == [] && returned == Some(Ok(response))
      modifies this
      ensures exists k :: EndedWith(View(), includeUsage, Ok(response), k)
      ensures old(AllDelivered()) ==> EndedWith(View(), includeUsage, Ok(response), 2)
    {
      ghost var k: nat := 0;
      ghost var chunks := TerminalChunks(Ok(response));
      assert produced[..|produced|] == produced;
      assert chunks[..0] == [] && chunks[..1] == [chunks[0]] && chunks[..2] == chunks;
      var sent := SendChunk(Finish(if response.finishReason.Some? then response.finishReason.value else Stop));
      if !sent {
        log := log + [CancelledLog];
      } else {
        log := log + [CompletedLog(response.totalTokens)];
        var done := SendChunk(Done);
        k := if done then 2 else 1;
      }
      assert EndedWith(View(), includeUsage, Ok(response), k);
    }

    /** The inference failed or was cancelled: log it, and tell the client. */
    method EndBadly(error: Error)
      requires InProgress(View(), includeUsage, |produced|) && log == []
      requires returned == Some(Err(error)) || (cancelled && error == Cancelled)
      modifies this
      ensures exists k :: EndedWith(View(), includeUsage, Err(error), k)
      ensures old(AllDelivered()) ==> EndedWith(View(), includeUsage, Err(error), 1)
    {
      ghost var chunks := TerminalChunks(Err(error));
      assert produced[..|produced|] == produced && chunks[..0] == [] && chunks[..1] == chunks;
      log := log + [TerminalLog(Err(error))];
      var sent := SendChunk(Failure(error));
      assert EndedWith(View(), includeUsage, Err(error), if sent then 1 else 0);
    }

    /** The loop has broken with a result: forward what is left, and end the stream. */
    method End(result: Result<Response>) returns (drained: bool)
      requires Forwarding() && log == []
      requires returned == Some(result) || (cancelled && result == Err(Cancelled))
      modifies this
      ensures Honest(View(), includeUsage)
      ensures old(AllDelivered()) ==>
                && drained && EndedWith(View(), includeUsage, result, |TerminalChunks(result)|)
                && EndsAs(output, log, result)
    {
      drained := Drain();
      if !drained {
        Abandon();
        return;
      }
      match result {
        case Ok(response) => EndWell(response);
        case Err(error) => EndBadly(error);
      }
      TerminalTells(result);
    }

    /** The select loop: it runs until a result or a cancellation is taken, a send fails, or the
        schedule runs out. */
    method Listen(schedule: seq<Tick>) returns (result: Option<Result<Response>>, sent: bool)
      requires Forwarding() && log == []
      modifies this
      ensures log == []
      ensures sent ==> Forwarding()
      ensures !sent ==> result.None? && exists n :: InProgress(View(), includeUsage, n)
      ensures result.Some? ==> returned == result || (cancelled && result == Some(Err(Cancelled)))
      ensures sent && TakesEnd(schedule) ==> result.Some?
      ensures old(AllDelivered()) ==> sent && AllDelivered()
    {
      result, sent := None, true;
      var i := 0;
      while i < |schedule| && result.None?
        invariant Forwarding() && log == [] && sent
        invariant result.Some? ==> returned == result || (cancelled && result == Some(Err(Cancelled)))
        invariant old(AllDelivered()) ==> AllDelivered()
        invariant i <= |schedule|
        invariant result.None? ==> forall k | 0 <= k < i ::
                    (schedule[k].Return? ==> returned.Some?) && (schedule[k].Cancel? ==> cancelled)
        invariant result.None? ==> forall k, m | 0 <= k < m < i ::
                    && !(schedule[k].Return? && schedule[m].TakeResult?)
                    && !(schedule[k].Cancel? && schedule[m].TakeCancellation?)
        decreases |schedule| - i
      {
        result, sent := Poll(schedule[i]);
        if !sent {
          return;
        }
        i := i + 1;
      }
    }

    /** The spawned task. It is still waiting when the schedule runs out before a result. */
    method Stream(schedule: seq<Tick>) returns (ended: bool, ghost outcome: Option<Result<Response>>)
      requires View() == Record([], None, false, [], []) && received == 0
      modifies this
      ensures ended ==> Honest(View(), includeUsage)
      ensures !ended ==> log == [] && exists n :: InProgress(View(), includeUsage, n)
      ensures TakesEnd(schedule) ==> ended
      ensures old(AllDelivered()) && ended ==>
                && outcome.Some?
                && EndedWith(View(), includeUsage, outcome.value, |TerminalChunks(outcome.value)|)
                && EndsAs(output, log, outcome.value)
    {
      outcome := None;
      var sent := SendChunk(Start);
      if !sent {
        log := log + [CancelledLog];
        return true, None;
      }
      var result;
      result, sent := Listen(schedule);
      if !sent {
        Abandon();
        return true, None;
      }
      if result.None? {
        assert InProgress(View(), includeUsage, received);
        return false, None;
      }
      sent := End(result.value);
      ended, outcome := true, if sent then result else None;
    }
  }
}
