/**
 The journal a turn leaves: every call it proposes is answered in it, so that a restart finds a
 conversation a provider accepts, unless the turn was cut off inside a call or the user dismissed
 a question of a tool.
 */
module TurnReadings {
  import opened Prelude
  import opened Vocabulary
  import opened Chat
  import opened Pairing
  import opened Approvals
  import opened AgentLoop
  import opened History
  import opened Readings

  // ---------- Scripts ----------

  /** Events that a replay of messages passes over. */
  predicate IsSilent(e: AppEvent) {
    && !e.PromptAccepted? && !e.SteeringApplied? && !e.TextDelta? && !e.ReasoningDelta?
    && !e.ToolProposed? && !e.ToolOutput? && !e.ToolCompleted? && !e.ContextCompacted? && !e.QuestionsAsked?
    && !e.TurnCancelled? && !e.ErrorRaised?
  }

  predicate AllSilent(events: seq<AppEvent>) {
    forall i | 0 <= i < |events| :: IsSilent(events[i])
  }

  /** What a provider streams. */
  predicate AllSpeech(events: seq<AppEvent>) {
    forall i | 0 <= i < |events| :: IsSilent(events[i]) || events[i].TextDelta? || events[i].ReasoningDelta?
  }

  predicate SilentResult(r: ToolResult) {
    && AllSilent(r.events) && AllSilent(r.changes)
    && (r.question.Some? && r.question.value.answer.Answered? && r.question.value.answer.completion.Replaced? ==>
          && AllSilent(r.question.value.answer.completion.events)
          && AllSilent(r.question.value.answer.completion.changes))
  }

  predicate SilentCalls(calls: seq<ScriptedCall>) {
    forall i | 0 <= i < |calls| :: SilentResult(calls[i].result)
  }

  predicate SilentCompacting(c: Compacting) {
    !c.NotNeeded? ==> AllSilent(c.notices)
  }

  predicate SilentReply(r: ModelReply) {
    AllSpeech(r.stream) && (r.Says? ==> SilentCalls(r.calls) && SilentCompacting(r.closing.compacting))
  }

  predicate SilentStep(s: Step) {
    SilentCompacting(s.compacting) && SilentReply(s.reply)
  }

  // ---------- Readings of what a turn emits ----------

  /** At most one call waits for its output. */
  predicate Steady(s: Reading) {
    s.waiting.Some? && |s.waiting.value| <= 1
  }

  /** At no point of the events does more than one call wait, and nothing comes in between. */
  predicate Orderly(s: Reading, events: seq<AppEvent>)
    decreases |events|
  {
    Steady(s) && (events != [] ==> Orderly(Read(s, events[0]), events[1..]))
  }

  /** A call was proposed, and neither an output nor a compaction followed. */
  predicate CallOpen(events: seq<AppEvent>) {
    exists i | 0 <= i < |events| && events[i].ToolProposed? ::
      forall j | i < j < |events| :: !events[j].ToolOutput? && !events[j].ContextCompacted?
  }

  lemma {:induction false} OrderlyConcat(s: Reading, a: seq<AppEvent>, b: seq<AppEvent>)
    requires Orderly(s, a) && Orderly(ReadAll(s, a), b)
    ensures Orderly(s, a + b)
    decreases |a|
  {
    if a == [] {
      assert a + b == b;
    } else {
      assert (a + b)[0] == a[0] && (a + b)[1..] == a[1..] + b;
      OrderlyConcat(Read(s, a[0]), a[1..], b);
    }
  }

  lemma OneIsOrderly(s: Reading, e: AppEvent)
    ensures ReadAll(s, [e]) == Read(s, e)
    ensures Steady(s) && Steady(Read(s, e)) ==> Orderly(s, [e])
  {
    assert [e][1..] == [];
  }

  lemma {:induction false} OrderlyPrefix(s: Reading, events: seq<AppEvent>, n: nat)
    requires n <= |events| && Orderly(s, events)
    ensures Orderly(s, events[..n]) && Steady(ReadAll(s, events[..n]))
    decreases |events|
  {
    if n > 0 {
      assert events[..n][1..] == events[1..][..n - 1];
      OrderlyPrefix(Read(s, events[0]), events[1..], n - 1);
    }
  }

  lemma OpenAfterOne(events: seq<AppEvent>, e: AppEvent)
    ensures CallOpen(events + [e])
            <==> e.ToolProposed? || (CallOpen(events) && !e.ToolOutput? && !e.ContextCompacted?)
  {
    var all, n := events + [e], |events|;
    assert all[n] == e;
    if CallOpen(events) && !e.ToolOutput? && !e.ContextCompacted? {
      var i :| 0 <= i < n && events[i].ToolProposed?
               && forall j | i < j < n :: !events[j].ToolOutput? && !events[j].ContextCompacted?;
      assert all[i] == events[i] && forall j | i < j < n :: all[j] == events[j];
    }
    if CallOpen(all) && !e.ToolProposed? {
      var i :| 0 <= i <= n && all[i].ToolProposed?
               && forall j | i < j <= n :: !all[j].ToolOutput? && !all[j].ContextCompacted?;
      assert all[i] == events[i] && forall j | i < j < n :: all[j] == events[j];
    }
  }

  lemma OneEventOpens(s: Reading, e: AppEvent)
    requires Steady(s) && Steady(Read(s, e))
    ensures Read(s, e).waiting != Some([])
            <==> e.ToolProposed? || (s.waiting != Some([]) && !e.ToolOutput? && !e.ContextCompacted?)
  {
  }

  /** Of orderly events a call waits exactly when the last proposal has no output. */
  lemma {:induction false} WaitsWhenOpen(s: Reading, events: seq<AppEvent>)
    requires s.waiting == Some([]) && Orderly(s, events)
    ensures ReadAll(s, events).waiting == Some([]) <==> !CallOpen(events)
    decreases |events|
  {
    if events != [] {
      var n := |events| - 1;
      OrderlyPrefix(s, events, n);
      OrderlyPrefix(s, events, n + 1);
      WaitsWhenOpen(s, events[..n]);
      OpenAfterOne(events[..n], events[n]);
      assert events[..n] + [events[n]] == events && events[..n + 1] == events;
      ReadConcat(s, events[..n], [events[n]]);
      assert [events[n]][1..] == [];
      OneEventOpens(ReadAll(s, events[..n]), events[n]);
    }
  }

  /** The last thing a turn emitted is a question nobody resolved. */
  predicate EndsOpen(events: seq<AppEvent>) {
    events != [] && events[|events| - 1].QuestionsAsked?
  }

  predicate Closed(t: Turn, s: Reading) {
    Orderly(s, t.events) && ReadAll(s, t.events).waiting == Some([]) && !EndsOpen(t.events)
  }

  predicate Waits(t: Turn, s: Reading, id: string) {
    Orderly(s, t.events) && ReadAll(s, t.events).waiting == Some([id])
  }

  /** A turn whose journal waits for an output has stopped at an open question. */
  predicate Judged(t: Turn, s: Reading) {
    && Orderly(s, t.events)
    && if EndsOpen(t.events) then t.verdict.Failed? && ReadAll(s, t.events).waiting != Some([])
       else ReadAll(s, t.events).waiting == Some([])
  }

  lemma {:induction false} SilenceReads(s: Reading, events: seq<AppEvent>)
    requires AllSilent(events)
    ensures ReadAll(s, events) == s
    ensures Steady(s) ==> Orderly(s, events)
    decreases |events|
  {
    if events != [] {
      SilenceReads(s, events[1..]);
    }
  }

  lemma {:induction false} SpeechReads(s: Reading, events: seq<AppEvent>)
    requires AllSpeech(events) && s.waiting == Some([])
    ensures ReadAll(s, events).waiting == Some([]) && Orderly(s, events)
    decreases |events|
  {
    if events != [] {
      SpeechReads(Read(s, events[0]), events[1..]);
    }
  }

  lemma EmitReads(t: Turn, s: Reading, events: seq<AppEvent>)
    ensures ReadAll(s, Emitting(t, events).events) == ReadAll(ReadAll(s, t.events), events)
    ensures EndsOpen(Emitting(t, events).events) == if events == [] then EndsOpen(t.events) else EndsOpen(events)
    ensures Orderly(s, t.events) && Orderly(ReadAll(s, t.events), events) ==> Orderly(s, Emitting(t, events).events)
  {
    ReadConcat(s, t.events, events);
    if Orderly(s, t.events) && Orderly(ReadAll(s, t.events), events) {
      OrderlyConcat(s, t.events, events);
    }
    if events == [] {
      assert t.events + events == t.events;
    }
  }

  lemma EmitSilence(t: Turn, s: Reading, events: seq<AppEvent>)
    requires AllSilent(events)
    ensures Closed(t, s) ==> Closed(Emitting(t, events), s)
    ensures forall id | Waits(t, s, id) :: Waits(Emitting(t, events), s, id)
  {
    EmitReads(t, s, events);
    SilenceReads(ReadAll(s, t.events), events);
  }

  lemma EmitSpeech(t: Turn, s: Reading, events: seq<AppEvent>)
    requires AllSpeech(events) && Closed(t, s)
    ensures Closed(Emitting(t, events), s)
  {
    EmitReads(t, s, events);
    SpeechReads(ReadAll(s, t.events), events);
  }

  lemma ProposalWaits(t: Turn, s: Reading, turn: TurnId, call: ToolCall)
    requires Closed(t, s)
    ensures Waits(Emitting(t, [ToolProposed(turn, call.id, call.name, call.arguments)]), s, call.id)
  {
    var proposal := [ToolProposed(turn, call.id, call.name, call.arguments)];
    assert [] + [call.id] == [call.id];
    OneIsOrderly(ReadAll(s, t.events), proposal[0]);
    EmitReads(t, s, proposal);
  }

  lemma OutputCloses(s: Reading, id: string, content: string)
    requires s.waiting == Some([id])
    ensures ReadAll(s, [ToolOutput(id, content)]).waiting == Some([]) && Orderly(s, [ToolOutput(id, content)])
  {
    assert [ToolOutput(id, content)][1..] == [];
    assert [id][1..] == [];
  }

  lemma CompletionCloses(s: Reading, id: string, content: string, success: bool, changes: seq<AppEvent>)
    requires s.waiting == Some([id]) && AllSilent(changes)
    ensures ReadAll(s, [ToolOutput(id, content), ToolCompleted(id, success)] + changes).waiting == Some([])
    ensures Orderly(s, [ToolOutput(id, content), ToolCompleted(id, success)] + changes)
  {
    var all := [ToolOutput(id, content), ToolCompleted(id, success)] + changes;
    assert [id][1..] == [];
    assert all[1..][0] == ToolCompleted(id, success) && all[1..][1..] == changes;
    SilenceReads(Read(Read(s, all[0]), all[1]), changes);
  }

  lemma ReplyingReads(t: Turn, s: Reading, call: ToolCall, content: string, success: bool, changes: seq<AppEvent>)
    requires Waits(t, s, call.id) && AllSilent(changes)
    ensures Closed(Replying(t, call, content, success, changes), s)
  {
    var events := [ToolOutput(call.id, content), ToolCompleted(call.id, success)] + changes;
    EmitReads(t, s, events);
    CompletionCloses(ReadAll(s, t.events), call.id, content, success, changes);
    assert events[|events| - 1] == if changes == [] then ToolCompleted(call.id, success) else changes[|changes| - 1];
  }

  lemma RefusingReads(t: Turn, s: Reading, call: ToolCall, text: string, error: Error)
    requires Waits(t, s, call.id)
    ensures Closed(Refusing(t, call, text, error), s)
  {
    OutputCloses(ReadAll(s, t.events), call.id, text);
    EmitReads(t, s, [ToolOutput(call.id, text)]);
    CompletionCloses(ReadAll(s, t.events), call.id, text, false, []);
    var both := [ToolOutput(call.id, text), ToolCompleted(call.id, false)];
    EmitReads(t, s, both);
    assert both + [] == both;
  }

  lemma RepairableReads(t: Turn, s: Reading, turn: TurnId, call: ToolCall, message: string)
    requires Closed(t, s)
    ensures Closed(Repairable(t, turn, call, message), s)
  {
    var proposal := [ToolProposed(turn, call.id, call.name, call.arguments)];
    var both := [ToolOutput(call.id, message), ToolCompleted(call.id, false)];
    ProposalWaits(t, s, turn, call);
    EmitReads(Emitting(t, proposal), s, both);
    CompletionCloses(ReadAll(s, Emitting(t, proposal).events), call.id, message, false, []);
    assert both + [] == both;
    assert t.events + proposal + both == t.events + FailureEvents(turn, call, message);
  }

  lemma AnsweringReads(t: Turn, s: Reading, call: ToolCall, r: ToolResult, c: Completion)
    requires Waits(t, s, call.id) && AllSilent(r.changes)
    requires c.Replaced? ==> AllSilent(c.events) && AllSilent(c.changes)
    ensures Closed(Answering(t, call, r, c), s)
  {
    match c
    case Replaced(content, success, events, changes) =>
      EmitSilence(t, s, events);
      ReplyingReads(Emitting(t, events), s, call, content, success, changes);
    case Kept(content) => ReplyingReads(t, s, call, content, true, r.changes);
    case Broken(problem) => ReplyingReads(t, s, call, problem, false, r.changes);
  }

  lemma QuestioningReads(t: Turn, s: Reading, call: ToolCall, r: ToolResult, q: Question)
    requires Waits(t, s, call.id) && AllSilent(r.changes) && t.verdict == Going
    requires q.answer.Answered? && q.answer.completion.Replaced? ==>
               AllSilent(q.answer.completion.events) && AllSilent(q.answer.completion.changes)
    ensures Judged(Questioning(t, call, r, q), s)
  {
    var ask := [QuestionsAsked(q.requestId, q.questions)];
    OneIsOrderly(ReadAll(s, t.events), ask[0]);
    EmitReads(t, s, ask);
    var asked := Emitting(t, ask);
    assert Waits(asked, s, call.id);
    match q.answer
    case Dismissed =>
    case NoAnswer(reason) =>
      EmitSilence(asked, s, [QuestionsFailed(q.requestId)]);
      ReplyingReads(Emitting(asked, [QuestionsFailed(q.requestId)]), s, call, reason, false, r.changes);
    case Answered(completion) =>
      EmitSilence(asked, s, [QuestionsAnswered(q.requestId)]);
      AnsweringReads(Emitting(asked, [QuestionsAnswered(q.requestId)]), s, call, r, completion);
  }

  lemma ExecutingReads(t: Turn, s: Reading, call: ToolCall, result: ToolResult)
    requires Waits(t, s, call.id) && SilentResult(result) && t.verdict == Going
    ensures Judged(Executing(t, call, result), s)
  {
    EmitSilence(t, s, [ToolStarted(call.id, call.name)]);
    var started := Emitting(t, [ToolStarted(call.id, call.name)]);
    var r := Limited(started, result);
    EmitSilence(Observing(started, call, r), s, r.events);
    var observed := Emitting(Observing(started, call, r), r.events);
    match r.question
    case None => ReplyingReads(observed, s, call, r.content, r.success, r.changes);
    case Some(q) => QuestioningReads(observed, s, call, r, q);
  }

  lemma {:induction false} AsksAreSilent(a: Authorization, decisions: seq<Decision>)
    ensures AllSilent(AskAll(a, decisions).0)
    decreases |decisions|
  {
    if decisions != [] {
      AsksAreSilent(a, decisions[1..]);
    }
  }

  lemma AuthorizingReads(t: Turn, s: Reading, turn: TurnId, c: ScriptedCall)
    requires Closed(t, s) && SilentResult(c.result) && t.verdict == Going
    ensures Judged(Authorizing(t, turn, c), s)
  {
    var proposal := [ToolProposed(turn, c.call.id, c.call.name, c.call.arguments)];
    ProposalWaits(t, s, turn, c.call);
    AsksAreSilent(c.authorization, c.authorization.decisions);
    EmitSilence(Emitting(t, proposal), s, AuthorizeOf(c.authorization).0);
    var asked := Emitting(Emitting(t, proposal), AuthorizeOf(c.authorization).0);
    match AuthorizeOf(c.authorization).1
    case Err(error) => RefusingReads(asked, s, c.call, c.refusalText, error);
    case Ok(_) => ExecutingReads(asked, s, c.call, c.result);
  }

  lemma CallingReads(t: Turn, s: Reading, turn: TurnId, c: ScriptedCall)
    requires Closed(t, s) && SilentResult(c.result) && t.verdict == Going
    ensures Judged(Calling(t, turn, c), s)
  {
    var noted := t.(lastCall := Some(Signature(c.call)));
    if c.steered {
      RepairableReads(t, s, turn, c.call, NOT_RUN);
    } else if t.lastCall == Some(Signature(c.call)) {
    } else if c.malformed.Some? {
      RepairableReads(noted, s, turn, c.call, c.malformed.value);
    } else {
      AuthorizingReads(noted, s, turn, c);
    }
  }

  lemma {:induction false} CallingAllReads(t: Turn, s: Reading, turn: TurnId, calls: seq<ScriptedCall>)
    requires Judged(t, s) && SilentCalls(calls)
    ensures Judged(CallingAll(t, turn, calls), s)
    decreases |calls|
  {
    if calls != [] && t.verdict == Going {
      CallingReads(t, s, turn, calls[0]);
      CallingAllReads(Calling(t, turn, calls[0]), s, turn, calls[1..]);
    }
  }

  // ---------- Steps ----------

  lemma CompactionReads(t: Turn, s: Reading, e: AppEvent)
    requires Closed(t, s) && e.ContextCompacted?
    ensures Closed(Emitting(t, [e]), s)
  {
    OneIsOrderly(ReadAll(s, t.events), e);
    EmitReads(t, s, [e]);
  }

  lemma {:induction false} SteeringReads(s: Reading, turn: TurnId, inputs: seq<Steering>)
    requires s.waiting == Some([])
    ensures ReadAll(s, SteeringEvents(turn, inputs)).waiting == Some([])
    ensures Orderly(s, SteeringEvents(turn, inputs))
    decreases |inputs|
  {
    if inputs != [] {
      SteeringReads(Read(s, SteeringEvents(turn, inputs)[0]), turn, inputs[1..]);
      assert SteeringEvents(turn, inputs)[1..] == SteeringEvents(turn, inputs[1..]);
    }
  }

  lemma SteeredReads(t: Turn, s: Reading, turn: TurnId, inputs: seq<Steering>)
    requires Closed(t, s)
    ensures Closed(Steered(t, turn, inputs), s)
  {
    EmitReads(Pushing(t, SteeringMessages(inputs)), s, SteeringEvents(turn, inputs));
    SteeringReads(ReadAll(s, t.events), turn, inputs);
  }

  lemma MidTurnReads(t: Turn, s: Reading, c: Compacting)
    requires Closed(t, s) && SilentCompacting(c)
    ensures Closed(MidTurn(t, c), s)
  {
    if !c.NotNeeded? {
      EmitSilence(t, s, c.notices);
      if c.Compacts? {
        CompactionReads(Emitting(t, c.notices), s, CompactionEvent(t.messages, c.summary));
      }
    }
  }

  lemma FinalCompactionReads(t: Turn, s: Reading, c: Compacting)
    requires Closed(t, s) && SilentCompacting(c)
    ensures Closed(FinalCompaction(t, c), s)
  {
    if !c.NotNeeded? {
      EmitSilence(t, s, c.notices);
      if c.Compacts? {
        CompactionReads(Emitting(t, c.notices), s, CompactionEvent(t.messages, c.summary));
      } else {
        EmitSilence(t, s, c.notices + [WARNING]);
      }
    }
  }

  lemma ClosedByReads(t: Turn, s: Reading, turn: TurnId, c: Closing)
    requires Closed(t, s) && SilentCompacting(c.compacting)
    ensures Closed(ClosedBy(t, turn, c), s)
  {
    FinalCompactionReads(t, s, c.compacting);
    var compacted := FinalCompaction(t, c.compacting);
    EmitSilence(Saving(compacted), s, if c.verified then [ResponseVerified(turn)] else []);
  }

  lemma RepliedReads(t: Turn, s: Reading, turn: TurnId, r: ModelReply)
    requires Closed(t, s) && SilentReply(r) && t.verdict == Going
    ensures Judged(Replied(t, turn, r), s)
  {
    EmitSpeech(t, s, r.stream);
    if r.Says? {
      var assistant := TextMessage(Assistant, r.text).(reasoning := r.reasoning, toolCalls := CallsOf(r.calls));
      var said := Pushing(Emitting(t, r.stream), [assistant]);
      if r.calls == [] {
        ClosedByReads(said, s, turn, r.closing);
      } else {
        var calling := said.(observations := [], imageCount := CountImages(said.messages));
        CallingAllReads(calling, s, turn, r.calls);
      }
    }
  }

  lemma SteppingReads(t: Turn, s: Reading, turn: TurnId, step: Step)
    requires Closed(t, s) && SilentStep(step) && t.verdict == Going
    ensures Judged(Stepping(t, turn, step), s)
  {
    MidTurnReads(t, s, step.compacting);
    var compacted := MidTurn(t, step.compacting);
    if step.halt.None? && compacted.verdict == Going {
      SteeredReads(compacted, s, turn, step.steering);
      var steered := Steered(compacted, turn, step.steering);
      if step.overBudget.None? {
        RepliedReads(steered.(requests := steered.requests + [steered.messages]), s, turn, step.reply);
      }
    }
  }

  lemma {:induction false} SteppingAllReads(t: Turn, s: Reading, turn: TurnId, steps: seq<Step>)
    requires Judged(t, s) && forall i | 0 <= i < |steps| :: SilentStep(steps[i])
    ensures Judged(SteppingAll(t, turn, steps), s)
    decreases |steps|
  {
    if steps != [] && t.verdict == Going {
      SteppingReads(t, s, turn, steps[0]);
      SteppingAllReads(Stepping(t, turn, steps[0]), s, turn, steps[1..]);
    }
  }

  lemma OpeningReads(history: seq<ChatMessage>, prompt: ChatMessage, c: Compacting, s: Reading)
    requires s.waiting == Some([]) && SilentCompacting(c)
    ensures Closed(Opening(history, prompt, c), s)
  {
    var t := Turn(history, None, [], 0, [], [], [], Going);
    assert Closed(t, s);
    if !c.NotNeeded? {
      EmitSilence(t, s, c.notices);
      if c.Compacts? {
        CompactionReads(Emitting(t, c.notices), s, CompactionEvent(history, c.summary));
      }
    }
  }

  lemma TurnOpeningReads(s: Reading, turn: TurnId, text: string, attachments: seq<Attachment>)
    requires s.waiting == Some([])
    ensures ReadAll(s, TurnOpening(turn, text, attachments)).waiting == Some([])
  {
    var opening := TurnOpening(turn, text, attachments);
    assert opening[1..] == [TurnStarted(turn)] && opening[1..][1..] == [];
    assert ReadAll(Read(s, opening[0]), [TurnStarted(turn)]) == Read(s, opening[0]);
  }

  /** How a turn is recorded as ended, or nothing when the process died first. */
  predicate IsEnding(ending: seq<AppEvent>) {
    |ending| <= 1 && forall e | e in ending :: TerminalTurn(e).Some?
  }

  lemma EndingReads(s: Reading, ending: seq<AppEvent>)
    requires IsEnding(ending)
    ensures ReadAll(s, ending).waiting == Some([]) <==> s.waiting == Some([])
  {
    if ending != [] {
      assert ending[0] in ending && ending[1..] == [];
    }
  }

  lemma TurnIsOrderly(history: seq<ChatMessage>, prompt: ChatMessage, turn: TurnId, c: Compacting, steps: seq<Step>,
                      s: Reading)
    requires s.waiting == Some([]) && SilentCompacting(c)
    requires forall i | 0 <= i < |steps| :: SilentStep(steps[i])
    ensures Judged(TurnOf(history, prompt, turn, c, steps), s)
  {
    OpeningReads(history, prompt, c, s);
    SteppingAllReads(Opening(history, prompt, c), s, turn, steps);
  }

  /** What the journal of a turn, cut off anywhere, makes of a journal that reads well. */
  lemma CutTurnReads(before: seq<AppEvent>, turn: TurnId, text: string, attachments: seq<Attachment>,
                     history: seq<ChatMessage>, c: Compacting, steps: seq<Step>, n: nat, ending: seq<AppEvent>)
    requires ReadAll(NOTHING_READ, before).waiting == Some([]) && IsEnding(ending)
    requires SilentCompacting(c) && forall i | 0 <= i < |steps| :: SilentStep(steps[i])
    requires n <= |TurnOf(history, UserMessage(text, attachments), turn, c, steps).events|
    ensures var emitted := TurnOf(history, UserMessage(text, attachments), turn, c, steps).events[..n];
            ReadAll(NOTHING_READ, before + TurnOpening(turn, text, attachments) + emitted + ending).waiting == Some([])
            <==> !CallOpen(emitted)
  {
    var t := TurnOf(history, UserMessage(text, attachments), turn, c, steps);
    var opening, emitted := TurnOpening(turn, text, attachments), t.events[..n];
    var s := ReadAll(NOTHING_READ, before + opening);
    ReadConcat(NOTHING_READ, before, opening);
    TurnOpeningReads(ReadAll(NOTHING_READ, before), turn, text, attachments);
    TurnIsOrderly(history, UserMessage(text, attachments), turn, c, steps, s);
    OrderlyPrefix(s, t.events, n);
    WaitsWhenOpen(s, emitted);
    ReadConcat(NOTHING_READ, before + opening, emitted);
    ReadConcat(NOTHING_READ, before + opening + emitted, ending);
    EndingReads(ReadAll(s, emitted), ending);
  }

  /**
   Behind a journal that reads well, the journal of a turn, cut off behind any of its events by a
   deadline, an abort or a crash and then recorded as ended or not, restores to a paired
   conversation if and only if it was not cut off in a call: the last call it proposed has an
   output, or a compaction came after it.
   */
  lemma CutTurnRestoresPairedExactly(images: Images, before: seq<AppEvent>, turn: TurnId, text: string,
                                     attachments: seq<Attachment>, history: seq<ChatMessage>, c: Compacting,
                                     steps: seq<Step>, n: nat, ending: seq<AppEvent>, system: string)
    requires ReadAll(NOTHING_READ, before).waiting == Some([]) && IsEnding(ending)
    requires SilentCompacting(c) && forall i | 0 <= i < |steps| :: SilentStep(steps[i])
    requires n <= |TurnOf(history, UserMessage(text, attachments), turn, c, steps).events|
    requires var emitted := TurnOf(history, UserMessage(text, attachments), turn, c, steps).events[..n];
             Steps(START, images, before + TurnOpening(turn, text, attachments) + emitted + ending).Ok?
    ensures var emitted := TurnOf(history, UserMessage(text, attachments), turn, c, steps).events[..n];
            var journal := before + TurnOpening(turn, text, attachments) + emitted + ending;
            Paired(Restored(images, journal, system).value) <==> !CallOpen(emitted)
  {
    var emitted := TurnOf(history, UserMessage(text, attachments), turn, c, steps).events[..n];
    CutTurnReads(before, turn, text, attachments, history, c, steps, n, ending);
    RestoredPairsExactly(images, before + TurnOpening(turn, text, attachments) + emitted + ending, system);
  }

  /** A turn that ran to its end leaves a call open exactly when it ended at a dismissed question:
      steered, malformed, refused, declined, failed and compacted turns all answer their calls. */
  lemma OpenOnlyByDismissal(history: seq<ChatMessage>, prompt: ChatMessage, turn: TurnId, c: Compacting,
                            steps: seq<Step>)
    requires SilentCompacting(c) && forall i | 0 <= i < |steps| :: SilentStep(steps[i])
    ensures var t := TurnOf(history, prompt, turn, c, steps);
            CallOpen(t.events) <==> EndsOpen(t.events)
  {
    TurnIsOrderly(history, prompt, turn, c, steps, NOTHING_READ);
    WaitsWhenOpen(NOTHING_READ, TurnOf(history, prompt, turn, c, steps).events);
  }

  /** So a turn that ran to its end restores to a paired conversation exactly when it did not end
      at a dismissed question. */
  lemma TurnRestoresPairedExactly(images: Images, before: seq<AppEvent>, turn: TurnId, text: string,
                                  attachments: seq<Attachment>, history: seq<ChatMessage>, c: Compacting,
                                  steps: seq<Step>, ending: seq<AppEvent>, system: string)
    requires ReadAll(NOTHING_READ, before).waiting == Some([]) && IsEnding(ending)
    requires SilentCompacting(c) && forall i | 0 <= i < |steps| :: SilentStep(steps[i])
    requires var t := TurnOf(history, UserMessage(text, attachments), turn, c, steps);
             Steps(START, images, before + TurnOpening(turn, text, attachments) + t.events + ending).Ok?
    ensures var t := TurnOf(history, UserMessage(text, attachments), turn, c, steps);
            var journal := before + TurnOpening(turn, text, attachments) + t.events + ending;
            Paired(Restored(images, journal, system).value) <==> !EndsOpen(t.events)
  {
    var t := TurnOf(history, UserMessage(text, attachments), turn, c, steps);
    assert t.events[..|t.events|] == t.events;
    CutTurnRestoresPairedExactly(images, before, turn, text, attachments, history, c, steps, |t.events|, ending,
                                 system);
    OpenOnlyByDismissal(history, UserMessage(text, attachments), turn, c, steps);
  }

  // ---------- A dismissed question ----------

  /** A tool that asks one question, which the user dismisses. */
  const ASKS := ToolResult("", true, [], [], Some(Question("q", ["Which?"], Dismissed)), [])

  /** The call is authorized without asking, and its tool asks. */
  function AskingCall(call: ToolCall): ScriptedCall {
    ScriptedCall(call, false, None, Authorization(None, false, false, []), "", ASKS)
  }

  function AskingStep(call: ToolCall): Step {
    Step(None, NotNeeded, [], None, Says([], "", None, [AskingCall(call)], Closing(false, NotNeeded, false, false)))
  }

  lemma AskingEmits(t: Turn, turn: TurnId, call: ToolCall)
    requires t.verdict == Going && t.lastCall == None
    ensures Calling(t, turn, AskingCall(call)).events
            == t.events + [ToolProposed(turn, call.id, call.name, call.arguments), ToolStarted(call.id, call.name),
                           QuestionsAsked("q", ["Which?"])]
    ensures Calling(t, turn, AskingCall(call)).verdict == Failed(Cancelled)
  {
    assert AuthorizeOf(AskingCall(call).authorization) == ([], Ok(()));
  }

  lemma DismissedTurnEmits(history: seq<ChatMessage>, prompt: ChatMessage, turn: TurnId, call: ToolCall)
    ensures TurnOf(history, prompt, turn, NotNeeded, [AskingStep(call)]).events
            == [ToolProposed(turn, call.id, call.name, call.arguments), ToolStarted(call.id, call.name),
                QuestionsAsked("q", ["Which?"])]
  {
    var t := Opening(history, prompt, NotNeeded);
    var step := AskingStep(call);
    var sent := t.(requests := t.requests + [t.messages]);
    var said := Pushing(Emitting(sent, []), [TextMessage(Assistant, "").(toolCalls := CallsOf(step.reply.calls))]);
    var calling := said.(observations := [], imageCount := CountImages(said.messages));
    AskingEmits(calling, turn, call);
    var called := Calling(calling, turn, AskingCall(call));
    assert step.reply.calls[1..] == [];
    assert CallingAll(calling, turn, step.reply.calls) == CallingAll(called, turn, []) == called;
    assert Stepping(t, turn, step) == called;
    assert [step][1..] == [];
    assert SteppingAll(t, turn, [step]) == SteppingAll(called, turn, []);
  }

  /** A first turn that ends at a dismissed question and completes no call restores unpaired. */
  lemma OpenQuestionRestoresUnpaired(images: Images, turn: TurnId, text: string, history: seq<ChatMessage>,
                                     steps: seq<Step>, system: string)
    requires forall i | 0 <= i < |steps| :: SilentStep(steps[i])
    requires var events := TurnOf(history, UserMessage(text, []), turn, NotNeeded, steps).events;
             EndsOpen(events) && forall i | 0 <= i < |events| :: !events[i].ToolCompleted?
    ensures var t := TurnOf(history, UserMessage(text, []), turn, NotNeeded, steps);
            var restored := Restored(images, TurnOpening(turn, text, []) + t.events + [TurnCancelled(turn)], system);
            restored.Ok? && !Paired(restored.value)
  {
    var t := TurnOf(history, UserMessage(text, []), turn, NotNeeded, steps);
    var journal := TurnOpening(turn, text, []) + t.events + [TurnCancelled(turn)];
    assert [] + TurnOpening(turn, text, []) == TurnOpening(turn, text, []);
    NothingCompletes(START, images, journal);
    TurnRestoresPairedExactly(images, [], turn, text, [], history, NotNeeded, steps, [TurnCancelled(turn)], system);
  }

  /** From the start of a session: whatever the tool, a turn whose question the user dismisses is
      cancelled, and the restored conversation has a call without a reply. */
  lemma DismissedTurnRestoresUnpaired(images: Images, turn: TurnId, call: ToolCall, system: string)
    ensures var t := TurnOf([TextMessage(System, system)], UserMessage("hi", []), turn, NotNeeded, [AskingStep(call)]);
            var restored := Restored(images, TurnOpening(turn, "hi", []) + t.events + [TurnCancelled(turn)], system);
            EndsOpen(t.events) && restored.Ok? && !Paired(restored.value)
  {
    var history := [TextMessage(System, system)];
    DismissedTurnEmits(history, UserMessage("hi", []), turn, call);
    AskingIsSilent(call);
    OpenQuestionRestoresUnpaired(images, turn, "hi", history, [AskingStep(call)], system);
  }

  lemma AskingIsSilent(call: ToolCall)
    ensures SilentStep(AskingStep(call))
  {
  }

  /** Only the image of a completed call can be missing. */
  lemma {:induction false} NothingCompletes(r: Replay, images: Images, events: seq<AppEvent>)
    requires forall i | 0 <= i < |events| :: !events[i].ToolCompleted?
    ensures Steps(r, images, events).Ok?
    decreases |events|
  {
    if events != [] {
      NothingCompletes(History.Step(r, images, events[0]).value, images, events[1..]);
    }
  }
}
