/**
 What every agent turn keeps: the kernel accepts its events, and every request it sends and every
 history it saves answers each tool call at once and in order.
 */
module AgentTurns {
  import opened Prelude
  import opened Vocabulary
  import opened KernelModel
  import opened Chat
  import opened Pairing
  import opened Approvals
  import opened AgentLoop
  import Journals

  // ---------- Events ----------

  /** What providers, tools and the compactor may emit: nothing the kernel checks, no lifecycle
      event, and no report that a tool has started. */
  predicate Quiet(events: seq<AppEvent>) {
    forall i | 0 <= i < |events| ::
      IsUnchecked(events[i]) && !Journals.IsLifecycleEvent(events[i]) && !events[i].ToolStarted?
  }

  /** A turn may emit an event: it is no lifecycle event, and tools start only with permission. */
  predicate Permitted(events: seq<AppEvent>, granted: set<string>) {
    forall i | 0 <= i < |events| ::
      !Journals.IsLifecycleEvent(events[i]) && (events[i].ToolStarted? ==> events[i].callId in granted)
  }

  /** The ids of the calls that are authorized. */
  function GrantedIn(calls: seq<ScriptedCall>): set<string>
    decreases |calls|
  {
    if calls == [] then {}
    else (if AuthorizeOf(calls[0].authorization).1.Ok? then {calls[0].call.id} else {}) + GrantedIn(calls[1..])
  }

  function StepCalls(s: Step): seq<ScriptedCall> {
    if s.reply.Says? then s.reply.calls else []
  }

  function GrantedIds(steps: seq<Step>): set<string>
    decreases |steps|
  {
    if steps == [] then {} else GrantedIn(StepCalls(steps[0])) + GrantedIds(steps[1..])
  }

  predicate QuietCompletion(c: Completion) {
    c.Replaced? ==> Quiet(c.events) && Quiet(c.changes)
  }

  predicate QuietQuestion(q: Question) {
    q.questions != [] && (q.answer.Answered? ==> QuietCompletion(q.answer.completion))
  }

  predicate QuietResult(r: ToolResult) {
    Quiet(r.events) && Quiet(r.changes) && (r.question.Some? ==> QuietQuestion(r.question.value))
  }

  predicate QuietCalls(calls: seq<ScriptedCall>) {
    forall i | 0 <= i < |calls| :: QuietResult(calls[i].result)
  }

  predicate QuietCompacting(c: Compacting) {
    !c.NotNeeded? ==> Quiet(c.notices)
  }

  predicate QuietReply(r: ModelReply) {
    Quiet(r.stream) && (r.Says? ==> QuietCalls(r.calls) && QuietCompacting(r.closing.compacting))
  }

  predicate QuietStep(s: Step) {
    QuietCompacting(s.compacting) && QuietReply(s.reply)
  }

  /** The kernel accepts the events so far, starting from `s`. */
  predicate Recorded(t: Turn, s: SessionState, granted: set<string>) {
    RecordAll(s, t.events).Ok? && Permitted(t.events, granted)
  }

  /** It accepts them, and the session is again as it was when the turn began. */
  predicate Settled(t: Turn, s: SessionState, granted: set<string>) {
    RecordAll(s, t.events) == Ok(s) && Permitted(t.events, granted)
  }

  predicate EventsKept(t: Turn, s: SessionState, granted: set<string>) {
    Recorded(t, s, granted) && (!t.verdict.Failed? ==> Settled(t, s, granted))
  }

  lemma EmitSettles(t: Turn, s: SessionState, granted: set<string>, events: seq<AppEvent>)
    requires Settled(t, s, granted) && Permitted(events, granted)
    ensures RecordAll(s, events).Ok? ==> Recorded(Emitting(t, events), s, granted)
    ensures RecordAll(s, events) == Ok(s) ==> Settled(Emitting(t, events), s, granted)
  {
    RecordConcat(s, t.events, events);
  }

  lemma EmitQuiet(t: Turn, s: SessionState, granted: set<string>, events: seq<AppEvent>)
    requires Settled(t, s, granted) && Quiet(events)
    ensures Settled(Emitting(t, events), s, granted)
  {
    UncheckedAreAccepted(s, events);
    EmitSettles(t, s, granted, events);
  }

  lemma EmitQuietLater(t: Turn, s: SessionState, granted: set<string>, events: seq<AppEvent>)
    requires Recorded(t, s, granted) && Quiet(events)
    ensures Recorded(Emitting(t, events), s, granted)
  {
    RecordConcat(s, t.events, events);
    UncheckedAreAccepted(RecordAll(s, t.events).value, events);
  }

  lemma RepairableSettles(t: Turn, s: SessionState, granted: set<string>, turn: TurnId, call: ToolCall, message: string)
    requires Settled(t, s, granted)
    ensures Settled(Repairable(t, turn, call, message), s, granted)
  {
    EmitQuiet(t, s, granted, FailureEvents(turn, call, message));
  }

  lemma ReplyingSettles(t: Turn, s: SessionState, granted: set<string>, call: ToolCall, content: string,
                        success: bool, changes: seq<AppEvent>)
    requires Settled(t, s, granted) && Quiet(changes)
    ensures Settled(Replying(t, call, content, success, changes), s, granted)
  {
    EmitQuiet(t, s, granted, [ToolOutput(call.id, content), ToolCompleted(call.id, success)] + changes);
  }

  lemma AnsweringSettles(t: Turn, s: SessionState, granted: set<string>, call: ToolCall, r: ToolResult, c: Completion)
    requires Settled(t, s, granted) && QuietCompletion(c) && Quiet(r.changes)
    ensures Settled(Answering(t, call, r, c), s, granted)
  {
    match c
    case Replaced(content, success, events, changes) =>
      EmitQuiet(t, s, granted, events);
      ReplyingSettles(Emitting(t, events), s, granted, call, content, success, changes);
    case Kept(content) => ReplyingSettles(t, s, granted, call, content, true, r.changes);
    case Broken(problem) => ReplyingSettles(t, s, granted, call, problem, false, r.changes);
  }

  /** A question and its resolution bring the kernel back to Running. */
  lemma QuestionIsAccepted(s: SessionState, q: Question, resolution: AppEvent)
    requires IsRunning(s) && q.questions != []
    requires resolution == QuestionsFailed(q.requestId) || resolution == QuestionsAnswered(q.requestId)
    ensures RecordAll(s, [QuestionsAsked(q.requestId, q.questions)]).Ok?
    ensures RecordAll(s, [QuestionsAsked(q.requestId, q.questions), resolution]) == Ok(s)
  {
    var asked := s.(lifecycle := WaitingForAnswer, pendingQuestion := Some(q.requestId));
    var both := [QuestionsAsked(q.requestId, q.questions), resolution];
    assert asked.(lifecycle := Running, pendingQuestion := None) == s;
    assert both[1..] == [resolution] && [resolution][1..] == [];
    assert RecordAll(asked, [resolution]) == Ok(s);
    assert RecordAll(asked, []) == Ok(asked);
    assert [QuestionsAsked(q.requestId, q.questions)][1..] == [];
  }

  lemma EmitTwice(t: Turn, a: AppEvent, b: AppEvent)
    ensures Emitting(Emitting(t, [a]), [b]) == Emitting(t, [a, b])
  {
  }

  lemma QuestioningRecords(t: Turn, s: SessionState, granted: set<string>, call: ToolCall, r: ToolResult, q: Question)
    requires Settled(t, s, granted) && IsRunning(s) && QuietQuestion(q) && Quiet(r.changes) && t.verdict == Going
    ensures EventsKept(Questioning(t, call, r, q), s, granted)
  {
    var ask := QuestionsAsked(q.requestId, q.questions);
    var answered, failed := QuestionsAnswered(q.requestId), QuestionsFailed(q.requestId);
    QuestionIsAccepted(s, q, answered);
    QuestionIsAccepted(s, q, failed);
    EmitSettles(t, s, granted, [ask]);
    EmitSettles(t, s, granted, [ask, answered]);
    EmitSettles(t, s, granted, [ask, failed]);
    EmitTwice(t, ask, answered);
    EmitTwice(t, ask, failed);
    match q.answer
    case Dismissed =>
    case NoAnswer(reason) => ReplyingSettles(Emitting(t, [ask, failed]), s, granted, call, reason, false, r.changes);
    case Answered(completion) => AnsweringSettles(Emitting(t, [ask, answered]), s, granted, call, r, completion);
  }

  lemma ExecutingRecords(t: Turn, s: SessionState, granted: set<string>, call: ToolCall, result: ToolResult)
    requires call.id in granted
    requires Settled(t, s, granted) && IsRunning(s) && QuietResult(result) && t.verdict == Going
    ensures EventsKept(Executing(t, call, result), s, granted)
  {
    UncheckedAreAccepted(s, [ToolStarted(call.id, call.name)]);
    EmitSettles(t, s, granted, [ToolStarted(call.id, call.name)]);
    var started := Emitting(t, [ToolStarted(call.id, call.name)]);
    var r := Limited(started, result);
    EmitQuiet(Observing(started, call, r), s, granted, r.events);
    var observed := Emitting(Observing(started, call, r), r.events);
    match r.question
    case None => ReplyingSettles(observed, s, granted, call, r.content, r.success, r.changes);
    case Some(q) => QuestioningRecords(observed, s, granted, call, r, q);
  }

  lemma RefusingRecords(t: Turn, s: SessionState, granted: set<string>, call: ToolCall, text: string, error: Error)
    requires Recorded(t, s, granted) && t.verdict == Going
    requires error != Cancelled ==> Settled(t, s, granted)
    ensures EventsKept(Refusing(t, call, text, error), s, granted)
  {
    EmitQuietLater(t, s, granted, [ToolOutput(call.id, text)]);
    if error != Cancelled {
      EmitQuiet(t, s, granted, [ToolOutput(call.id, text), ToolCompleted(call.id, false)]);
    }
  }

  lemma {:induction false} AsksAreNoLifecycle(a: Authorization, decisions: seq<Decision>)
    ensures Permitted(AskAll(a, decisions).0, {})
    decreases |decisions|
  {
    if decisions != [] {
      AsksAreNoLifecycle(a, decisions[1..]);
    }
  }

  lemma CallingRecords(t: Turn, s: SessionState, granted: set<string>, turn: TurnId, c: ScriptedCall)
    requires AuthorizeOf(c.authorization).1.Ok? ==> c.call.id in granted
    requires Settled(t, s, granted) && IsRunning(s) && QuietResult(c.result) && t.verdict == Going
    ensures EventsKept(Calling(t, turn, c), s, granted)
  {
    var noted := t.(lastCall := Some(Signature(c.call)));
    if c.steered {
      RepairableSettles(t, s, granted, turn, c.call, NOT_RUN);
    } else if t.lastCall == Some(Signature(c.call)) {
    } else if c.malformed.Some? {
      RepairableSettles(noted, s, granted, turn, c.call, c.malformed.value);
    } else {
      AuthorizingRecords(noted, s, granted, turn, c);
    }
  }

  lemma AuthorizingRecords(t: Turn, s: SessionState, granted: set<string>, turn: TurnId, c: ScriptedCall)
    requires AuthorizeOf(c.authorization).1.Ok? ==> c.call.id in granted
    requires Settled(t, s, granted) && IsRunning(s) && QuietResult(c.result) && t.verdict == Going
    ensures EventsKept(Authorizing(t, turn, c), s, granted)
  {
    var proposal := [ToolProposed(turn, c.call.id, c.call.name, c.call.arguments)];
    EmitQuiet(t, s, granted, proposal);
    AuthorizationIsAccepted(s, c.authorization);
    AsksAreNoLifecycle(c.authorization, c.authorization.decisions);
    EmitSettles(Emitting(t, proposal), s, granted, AuthorizeOf(c.authorization).0);
    var asked := Emitting(Emitting(t, proposal), AuthorizeOf(c.authorization).0);
    match AuthorizeOf(c.authorization).1
    case Err(error) => RefusingRecords(asked, s, granted, c.call, c.refusalText, error);
    case Ok(_) => ExecutingRecords(asked, s, granted, c.call, c.result);
  }

  lemma {:induction false} CallingAllRecords(t: Turn, s: SessionState, granted: set<string>, turn: TurnId,
                                             calls: seq<ScriptedCall>)
    requires EventsKept(t, s, granted) && IsRunning(s) && QuietCalls(calls) && GrantedIn(calls) <= granted
    ensures EventsKept(CallingAll(t, turn, calls), s, granted)
    decreases |calls|
  {
    if calls != [] && t.verdict == Going {
      CallingRecords(t, s, granted, turn, calls[0]);
      CallingAllRecords(Calling(t, turn, calls[0]), s, granted, turn, calls[1..]);
    }
  }

  // ---------- Steps ----------

  lemma {:induction false} SteeringIsAccepted(s: SessionState, turn: TurnId, inputs: seq<Steering>)
    requires IsRunning(s) && s.activeTurn == Some(turn)
    ensures RecordAll(s, SteeringEvents(turn, inputs)) == Ok(s)
    decreases |inputs|
  {
    if inputs != [] {
      SteeringIsAccepted(s, turn, inputs[1..]);
      assert SteeringEvents(turn, inputs)[1..] == SteeringEvents(turn, inputs[1..]);
    }
  }

  lemma SteeredSettles(t: Turn, s: SessionState, granted: set<string>, turn: TurnId, inputs: seq<Steering>)
    requires Settled(t, s, granted) && IsRunning(s) && s.activeTurn == Some(turn)
    ensures Settled(Steered(t, turn, inputs), s, granted)
  {
    SteeringIsAccepted(s, turn, inputs);
    EmitSettles(Pushing(t, SteeringMessages(inputs)), s, granted, SteeringEvents(turn, inputs));
  }

  lemma MidTurnRecords(t: Turn, s: SessionState, granted: set<string>, c: Compacting)
    requires Settled(t, s, granted) && QuietCompacting(c) && t.verdict == Going
    ensures EventsKept(MidTurn(t, c), s, granted)
  {
    if !c.NotNeeded? {
      EmitQuiet(t, s, granted, c.notices);
      if c.Compacts? {
        EmitQuiet(Emitting(t, c.notices), s, granted, [CompactionEvent(t.messages, c.summary)]);
      }
    }
  }

  lemma FinalCompactionRecords(t: Turn, s: SessionState, granted: set<string>, c: Compacting)
    requires Settled(t, s, granted) && QuietCompacting(c) && t.verdict == Going
    ensures EventsKept(FinalCompaction(t, c), s, granted)
  {
    if !c.NotNeeded? {
      EmitQuiet(t, s, granted, c.notices);
      if c.Compacts? {
        EmitQuiet(Emitting(t, c.notices), s, granted, [CompactionEvent(t.messages, c.summary)]);
      } else {
        EmitQuiet(t, s, granted, c.notices + [WARNING]);
      }
    }
  }

  lemma ClosedRecords(t: Turn, s: SessionState, granted: set<string>, turn: TurnId, c: Closing)
    requires Settled(t, s, granted) && QuietCompacting(c.compacting) && t.verdict == Going
    ensures EventsKept(ClosedBy(t, turn, c), s, granted)
  {
    FinalCompactionRecords(t, s, granted, c.compacting);
    var compacted := FinalCompaction(t, c.compacting);
    if compacted.verdict == Going {
      EmitQuiet(Saving(compacted), s, granted, if c.verified then [ResponseVerified(turn)] else []);
    }
  }

  lemma RepliedRecords(t: Turn, s: SessionState, granted: set<string>, turn: TurnId, r: ModelReply)
    requires Settled(t, s, granted) && IsRunning(s) && QuietReply(r) && t.verdict == Going
    requires r.Says? ==> GrantedIn(r.calls) <= granted
    ensures EventsKept(Replied(t, turn, r), s, granted)
  {
    EmitQuiet(t, s, granted, r.stream);
    if r.Says? {
      var assistant := TextMessage(Assistant, r.text).(reasoning := r.reasoning, toolCalls := CallsOf(r.calls));
      var said := Pushing(Emitting(t, r.stream), [assistant]);
      if r.calls == [] {
        ClosedRecords(said, s, granted, turn, r.closing);
      } else {
        var calling := said.(observations := [], imageCount := CountImages(said.messages));
        CallingAllRecords(calling, s, granted, turn, r.calls);
      }
    }
  }

  lemma SteppingRecords(t: Turn, s: SessionState, granted: set<string>, turn: TurnId, step: Step)
    requires Settled(t, s, granted) && IsRunning(s) && s.activeTurn == Some(turn)
    requires QuietStep(step) && t.verdict == Going
    requires GrantedIn(StepCalls(step)) <= granted
    ensures EventsKept(Stepping(t, turn, step), s, granted)
  {
    MidTurnRecords(t, s, granted, step.compacting);
    var compacted := MidTurn(t, step.compacting);
    if step.halt.None? && compacted.verdict == Going {
      SteeredSettles(compacted, s, granted, turn, step.steering);
      var steered := Steered(compacted, turn, step.steering);
      if step.overBudget.None? {
        RepliedRecords(steered.(requests := steered.requests + [steered.messages]), s, granted, turn, step.reply);
      }
    }
  }

  lemma {:induction false} SteppingAllRecords(t: Turn, s: SessionState, granted: set<string>, turn: TurnId,
                                              steps: seq<Step>)
    requires EventsKept(t, s, granted) && IsRunning(s) && s.activeTurn == Some(turn)
    requires GrantedIds(steps) <= granted && forall i | 0 <= i < |steps| :: QuietStep(steps[i])
    ensures EventsKept(SteppingAll(t, turn, steps), s, granted)
    decreases |steps|
  {
    if steps != [] && t.verdict == Going {
      SteppingRecords(t, s, granted, turn, steps[0]);
      SteppingAllRecords(Stepping(t, turn, steps[0]), s, granted, turn, steps[1..]);
    }
  }

  lemma OpeningRecords(history: seq<ChatMessage>, prompt: ChatMessage, c: Compacting, s: SessionState,
                       granted: set<string>)
    requires QuietCompacting(c)
    ensures EventsKept(Opening(history, prompt, c), s, granted)
  {
    var t := Turn(history, None, [], 0, [], [], [], Going);
    if !c.NotNeeded? {
      EmitQuiet(t, s, granted, c.notices);
      if c.Compacts? {
        EmitQuiet(Emitting(t, c.notices), s, granted, [CompactionEvent(history, c.summary)]);
      }
    }
  }

  /**
   The kernel accepts every event of a turn, whatever the provider, the tools and the user do;
   the session is Running again whenever the turn has not failed; and wherever the turn is cut
   off, the active turn can still be ended.
   */
  lemma TurnIsAccepted(history: seq<ChatMessage>, prompt: ChatMessage, turn: TurnId, c: Compacting, steps: seq<Step>,
                       s: SessionState, k: nat)
    requires InTurn(s, turn) && s.lifecycle == Running
    requires QuietCompacting(c) && forall i | 0 <= i < |steps| :: QuietStep(steps[i])
    requires k <= |TurnOf(history, prompt, turn, c, steps).events|
    ensures var t := TurnOf(history, prompt, turn, c, steps);
            && RecordAll(s, t.events).Ok?
            && (!t.verdict.Failed? ==> RecordAll(s, t.events) == Ok(s))
            && RecordAll(s, t.events[..k]).Ok?
            && FinishActive(RecordAll(s, t.events[..k]).value, turn).Ok?
  {
    OpeningRecords(history, prompt, c, s, GrantedIds(steps));
    SteppingAllRecords(Opening(history, prompt, c), s, GrantedIds(steps), turn, steps);
    TurnEndsAnywhere(s, turn, TurnOf(history, prompt, turn, c, steps).events, k);
  }

  lemma {:induction false} GrantedIdsAreAuthorized(steps: seq<Step>, id: string) returns (i: nat, j: nat)
    requires id in GrantedIds(steps)
    ensures i < |steps| && j < |StepCalls(steps[i])| && StepCalls(steps[i])[j].call.id == id
    ensures AuthorizeOf(StepCalls(steps[i])[j].authorization).1.Ok?
    decreases |steps|
  {
    if id in GrantedIn(StepCalls(steps[0])) {
      i := 0;
      j := GrantedInIsAuthorized(StepCalls(steps[0]), id);
    } else {
      i, j := GrantedIdsAreAuthorized(steps[1..], id);
      i := i + 1;
    }
  }

  lemma {:induction false} GrantedInIsAuthorized(calls: seq<ScriptedCall>, id: string) returns (j: nat)
    requires id in GrantedIn(calls)
    ensures j < |calls| && calls[j].call.id == id && AuthorizeOf(calls[j].authorization).1.Ok?
    decreases |calls|
  {
    if calls[0].call.id == id && AuthorizeOf(calls[0].authorization).1.Ok? {
      j := 0;
    } else {
      j := GrantedInIsAuthorized(calls[1..], id);
      j := j + 1;
    }
  }

  /** No tool starts without permission: whenever a turn reports that a tool has started, a call
      with that id was neither denied by the policy nor declined by the user. */
  lemma ToolsStartWithPermission(history: seq<ChatMessage>, prompt: ChatMessage, turn: TurnId, c: Compacting,
                                 steps: seq<Step>, s: SessionState, n: nat)
    returns (i: nat, j: nat)
    requires InTurn(s, turn) && s.lifecycle == Running
    requires QuietCompacting(c) && forall i | 0 <= i < |steps| :: QuietStep(steps[i])
    requires n < |TurnOf(history, prompt, turn, c, steps).events|
    requires TurnOf(history, prompt, turn, c, steps).events[n].ToolStarted?
    ensures i < |steps| && j < |StepCalls(steps[i])|
    ensures var call := StepCalls(steps[i])[j];
            && call.call.id == TurnOf(history, prompt, turn, c, steps).events[n].callId
            && call.authorization.refusal.None? && !IsDenied(call.authorization.decisions)
            && forall k | 0 <= k < |call.authorization.decisions|
                          && MustAsk(call.authorization, call.authorization.decisions[k]) ::
                 Consents(call.authorization.decisions[k].approval)
  {
    OpeningRecords(history, prompt, c, s, GrantedIds(steps));
    SteppingAllRecords(Opening(history, prompt, c), s, GrantedIds(steps), turn, steps);
    i, j := GrantedIdsAreAuthorized(steps, TurnOf(history, prompt, turn, c, steps).events[n].callId);
    AuthorizedExactly(StepCalls(steps[i])[j].authorization);
  }

  /** A turn emits only events that may be recorded: a restart agrees with the live session. */
  lemma TurnMayBeRecorded(history: seq<ChatMessage>, prompt: ChatMessage, turn: TurnId, c: Compacting,
                          steps: seq<Step>, s: SessionState)
    requires InTurn(s, turn) && s.lifecycle == Running
    requires QuietCompacting(c) && forall i | 0 <= i < |steps| :: QuietStep(steps[i])
    ensures forall e | e in TurnOf(history, prompt, turn, c, steps).events :: !Journals.IsLifecycleEvent(e)
  {
    OpeningRecords(history, prompt, c, s, GrantedIds(steps));
    SteppingAllRecords(Opening(history, prompt, c), s, GrantedIds(steps), turn, steps);
  }

  // ---------- Messages ----------

  predicate AllPlain(messages: seq<ChatMessage>) {
    forall i | 0 <= i < |messages| :: IsPlainMessage(messages[i])
  }

  predicate AllPaired(lists: seq<seq<ChatMessage>>) {
    forall i | 0 <= i < |lists| :: Paired(lists[i])
  }

  /** The list a declined turn saves. */
  function DeclinedList(messages: seq<ChatMessage>): seq<ChatMessage> {
    messages + (ToolErrors(OpenCalls(messages), DECLINED) + [INTERRUPTED])
  }

  /** `u` is `t` after one reply to `call`. */
  predicate RepliesTo(t: Turn, u: Turn, call: ToolCall) {
    && u.verdict == t.verdict && u.saved == t.saved && u.requests == t.requests
    && |u.messages| == |t.messages| + 1 && u.messages[..|t.messages|] == t.messages
    && Replies(u.messages[|t.messages|], call.id) && u.messages[|t.messages|].toolCalls == []
    && (AllPlain(t.observations) ==> AllPlain(u.observations))
  }

  /** `u` is `t` stopped by a call: nothing is saved, or the open calls are answered first. */
  predicate StopsAt(t: Turn, u: Turn) {
    && u.verdict.Failed? && u.requests == t.requests
    && (u.saved == t.saved || u.saved == t.saved + [DeclinedList(t.messages)])
  }

  lemma PushReplies(t: Turn, u: Turn, call: ToolCall, reply: ChatMessage)
    requires u.verdict == t.verdict && u.saved == t.saved && u.requests == t.requests
    requires u.messages == t.messages + [reply] && Replies(reply, call.id) && reply.toolCalls == []
    requires AllPlain(t.observations) ==> AllPlain(u.observations)
    ensures RepliesTo(t, u, call)
  {
  }

  lemma QuestioningReplies(t: Turn, call: ToolCall, r: ToolResult, q: Question)
    ensures RepliesTo(t, Questioning(t, call, r, q), call) || StopsAt(t, Questioning(t, call, r, q))
  {
    match q.answer
    case Dismissed =>
    case NoAnswer(reason) =>
      PushReplies(t, Questioning(t, call, r, q), call, ToolReply(call.id, call.name, reason));
    case Answered(Replaced(content, _, _, _)) =>
      PushReplies(t, Questioning(t, call, r, q), call, ToolReply(call.id, call.name, content));
    case Answered(Kept(content)) =>
      PushReplies(t, Questioning(t, call, r, q), call, ToolReply(call.id, call.name, content));
    case Answered(Broken(problem)) =>
      PushReplies(t, Questioning(t, call, r, q), call, ToolReply(call.id, call.name, problem));
  }

  lemma ObservingKeepsPlain(t: Turn, call: ToolCall, r: ToolResult)
    requires AllPlain(t.observations)
    ensures AllPlain(Observing(t, call, r).observations)
  {
    assert IsPlainMessage(ImageObservation(call.id, r.images));
  }

  /** Visual output and events leave the list alone until the reply is pushed. */
  lemma QuietlyReplies(t: Turn, mid: Turn, u: Turn, call: ToolCall)
    requires mid.messages == t.messages && mid.saved == t.saved && mid.requests == t.requests
    requires mid.verdict == t.verdict && (AllPlain(t.observations) ==> AllPlain(mid.observations))
    requires RepliesTo(mid, u, call) || StopsAt(mid, u)
    ensures RepliesTo(t, u, call) || StopsAt(t, u)
  {
  }

  lemma ExecutingReplies(t: Turn, call: ToolCall, result: ToolResult)
    ensures RepliesTo(t, Executing(t, call, result), call) || StopsAt(t, Executing(t, call, result))
  {
    var started := Emitting(t, [ToolStarted(call.id, call.name)]);
    var r := Limited(started, result);
    var observed := Emitting(Observing(started, call, r), r.events);
    if AllPlain(t.observations) {
      ObservingKeepsPlain(started, call, r);
    }
    match r.question
    case None =>
      PushReplies(observed, Executing(t, call, result), call, ToolReply(call.id, call.name, r.content));
      QuietlyReplies(t, observed, Executing(t, call, result), call);
    case Some(q) =>
      QuestioningReplies(observed, call, r, q);
      QuietlyReplies(t, observed, Executing(t, call, result), call);
  }

  lemma RefusingReplies(t: Turn, call: ToolCall, text: string, error: Error)
    ensures RepliesTo(t, Refusing(t, call, text, error), call) || StopsAt(t, Refusing(t, call, text, error))
  {
    if error != ApprovalDeclined && error != Cancelled {
      PushReplies(t, Refusing(t, call, text, error), call, ToolError(call, text));
    }
  }

  /** Every call is answered once, or stops the turn. */
  lemma CallingReplies(t: Turn, turn: TurnId, c: ScriptedCall)
    ensures RepliesTo(t, Calling(t, turn, c), c.call) || StopsAt(t, Calling(t, turn, c))
  {
    var noted := t.(lastCall := Some(Signature(c.call)));
    if c.steered {
      PushReplies(t, Calling(t, turn, c), c.call, ToolError(c.call, NOT_RUN));
    } else if t.lastCall == Some(Signature(c.call)) {
    } else if c.malformed.Some? {
      PushReplies(t, Calling(t, turn, c), c.call, ToolError(c.call, c.malformed.value));
    } else {
      var asked := Emitting(Emitting(noted, [ToolProposed(turn, c.call.id, c.call.name, c.call.arguments)]),
                            AuthorizeOf(c.authorization).0);
      match AuthorizeOf(c.authorization).1 {
        case Err(error) =>
          RefusingReplies(asked, c.call, c.refusalText, error);
          QuietlyReplies(t, asked, Calling(t, turn, c), c.call);
        case Ok(_) =>
          ExecutingReplies(asked, c.call, c.result);
          QuietlyReplies(t, asked, Calling(t, turn, c), c.call);
      }
    }
  }

  // ---------- Distinct call ids ----------

  /** The calls have distinct ids, none of them used before. */
  predicate FreshCalls(calls: seq<ScriptedCall>, used: set<string>)
    decreases |calls|
  {
    calls != [] ==> calls[0].call.id !in used && FreshCalls(calls[1..], used + {calls[0].call.id})
  }

  function UsedIds(calls: seq<ScriptedCall>): set<string>
    decreases |calls|
  {
    if calls == [] then {} else {calls[0].call.id} + UsedIds(calls[1..])
  }

  predicate FreshSteps(steps: seq<Step>, used: set<string>)
    decreases |steps|
  {
    steps != [] ==>
      && FreshCalls(StepCalls(steps[0]), used)
      && FreshSteps(steps[1..], used + UsedIds(StepCalls(steps[0])))
  }

  lemma {:induction false} FreshIdsAreUnused(calls: seq<ScriptedCall>, used: set<string>)
    requires FreshCalls(calls, used)
    ensures forall i | 0 <= i < |calls| :: CallIds(CallsOf(calls))[i] !in used
    decreases |calls|
  {
    if calls != [] {
      FreshIdsAreUnused(calls[1..], used + {calls[0].call.id});
      assert forall i | 0 < i < |calls| :: CallIds(CallsOf(calls))[i] == CallIds(CallsOf(calls[1..]))[i - 1];
    }
  }

  lemma AwaitedIdsAreOpen(messages: seq<ChatMessage>, calls: seq<ScriptedCall>, used: set<string>)
    requires Awaiting(messages) == Some(CallIds(CallsOf(calls)))
    requires AnsweredIds(messages) <= used && FreshCalls(calls, used)
    ensures Paired(DeclinedList(messages))
  {
    var errors := ToolErrors(OpenCalls(messages), DECLINED);
    FreshIdsAreUnused(calls, used);
    DeclinedPairsExactly(messages, CallIds(CallsOf(calls)), DECLINED);
    PlainKeepsPaired(messages + errors, [INTERRUPTED]);
    assert messages + errors + [INTERRUPTED] == messages + (errors + [INTERRUPTED]);
  }

  lemma ReplyAwaits(t: Turn, u: Turn, calls: seq<ScriptedCall>, used: set<string>)
    requires calls != [] && RepliesTo(t, u, calls[0].call)
    requires Awaiting(t.messages) == Some(CallIds(CallsOf(calls))) && AnsweredIds(t.messages) <= used
    ensures Awaiting(u.messages) == Some(CallIds(CallsOf(calls[1..])))
    ensures AnsweredIds(u.messages) <= used + {calls[0].call.id}
  {
    var reply := u.messages[|t.messages|];
    assert u.messages == t.messages + [reply];
    PushAwaits(t.messages, reply);
    PushAnswers(t.messages, reply);
    assert CallIds(CallsOf(calls))[1..] == CallIds(CallsOf(calls[1..]));
  }

  /** A batch of calls leaves the list paired, or stops the turn with a paired list at most. */
  lemma {:induction false} CallingAllPairs(t: Turn, turn: TurnId, calls: seq<ScriptedCall>, used: set<string>)
    requires t.verdict == Going && AllPaired(t.saved) && AllPlain(t.observations)
    requires Awaiting(t.messages) == Some(CallIds(CallsOf(calls)))
    requires AnsweredIds(t.messages) <= used && FreshCalls(calls, used)
    ensures var u := CallingAll(t, turn, calls);
            && u.requests == t.requests && AllPaired(u.saved) && u.verdict != Completed
            && (u.verdict == Going ==>
                  Paired(u.messages) && AllPlain(u.observations) && AnsweredIds(u.messages) <= used + UsedIds(calls))
    decreases |calls|
  {
    if calls == [] {
      assert CallIds(CallsOf(calls)) == [];
    } else {
      var next := Calling(t, turn, calls[0]);
      CallingReplies(t, turn, calls[0]);
      if RepliesTo(t, next, calls[0].call) {
        ReplyAwaits(t, next, calls, used);
        CallingAllPairs(next, turn, calls[1..], used + {calls[0].call.id});
      } else {
        AwaitedIdsAreOpen(t.messages, calls, used);
        assert CallingAll(t, turn, calls) == CallingAll(next, turn, calls[1..]) == next;
      }
    }
  }

  // ---------- Pairing over a turn ----------

  predicate TurnPairs(t: Turn, used: set<string>) {
    && AllPaired(t.requests) && AllPaired(t.saved)
    && (t.verdict == Going ==> Paired(t.messages) && AnsweredIds(t.messages) <= used)
  }

  lemma {:induction false} PlainAnswersNothing(messages: seq<ChatMessage>, plain: seq<ChatMessage>)
    requires AllPlain(plain)
    ensures AnsweredIds(messages + plain) == AnsweredIds(messages)
  {
    if plain == [] {
      assert messages + plain == messages;
    } else {
      var n := |plain| - 1;
      PlainAnswersNothing(messages, plain[..n]);
      PushAnswers(messages + plain[..n], plain[n]);
      assert messages + plain == messages + plain[..n] + [plain[n]];
    }
  }

  lemma PushPlain(t: Turn, plain: seq<ChatMessage>)
    requires Paired(t.messages) && AllPlain(plain)
    ensures Paired(Pushing(t, plain).messages) && AnsweredIds(Pushing(t, plain).messages) == AnsweredIds(t.messages)
  {
    PlainKeepsPaired(t.messages, plain);
    PlainAnswersNothing(t.messages, plain);
  }

  lemma CompactedIsPaired(system: string, summary: string)
    ensures Paired(CompactedHistory(system, summary)) && AnsweredIds(CompactedHistory(system, summary)) == {}
  {
    var plain := CompactedHistory(system, summary);
    assert [] + plain == plain;
    PlainKeepsPaired([], plain);
    PlainAnswersNothing([], plain);
  }

  lemma MidTurnPairs(t: Turn, c: Compacting, used: set<string>)
    requires TurnPairs(t, used) && t.verdict == Going
    ensures TurnPairs(MidTurn(t, c), used) && MidTurn(t, c).verdict != Completed
  {
    if c.Compacts? {
      CompactedIsPaired(SystemText(t.messages), c.summary);
      PushPlain(t.(messages := CompactedHistory(SystemText(t.messages), c.summary)), [CONTINUATION]);
    }
  }

  lemma FinalCompactionPairs(t: Turn, c: Compacting, used: set<string>)
    requires TurnPairs(t, used) && t.verdict == Going
    ensures TurnPairs(FinalCompaction(t, c), used)
  {
    if c.Compacts? {
      CompactedIsPaired(SystemText(t.messages), c.summary);
    }
  }

  lemma ClosedPairs(t: Turn, turn: TurnId, c: Closing, used: set<string>)
    requires TurnPairs(t, used) && t.verdict == Going
    ensures TurnPairs(ClosedBy(t, turn, c), used)
  {
    FinalCompactionPairs(t, c.compacting, used);
  }

  lemma InterruptedPairs(t: Turn, text: string, error: Error, used: set<string>)
    requires TurnPairs(t, used) && t.verdict == Going
    ensures TurnPairs(Interrupted(t, text, error), used)
  {
    assert AllPlain(Partial(text) + [INTERRUPTED]);
    PushPlain(t, Partial(text) + [INTERRUPTED]);
  }

  lemma SaidPairs(t: Turn, turn: TurnId, r: ModelReply, used: set<string>)
    requires TurnPairs(t, used) && t.verdict == Going && r.Says? && FreshCalls(r.calls, used)
    ensures TurnPairs(Replied(t, turn, r), used + UsedIds(r.calls))
  {
    var assistant := TextMessage(Assistant, r.text).(reasoning := r.reasoning, toolCalls := CallsOf(r.calls));
    var said := Pushing(Emitting(t, r.stream), [assistant]);
    PushAwaits(t.messages, assistant);
    PushAnswers(t.messages, assistant);
    if r.calls == [] {
      ClosedPairs(said, turn, r.closing, used);
    } else {
      var calling := said.(observations := [], imageCount := CountImages(said.messages));
      CallingAllPairs(calling, turn, r.calls, used);
      var called := CallingAll(calling, turn, r.calls);
      if called.verdict == Going {
        PushPlain(called, called.observations);
      }
    }
  }

  lemma RequestedPairs(t: Turn, turn: TurnId, s: Step, used: set<string>)
    requires TurnPairs(t, used) && t.verdict == Going && FreshCalls(StepCalls(s), used)
    ensures TurnPairs(Requested(t, turn, s), used + UsedIds(StepCalls(s)))
  {
    var sent := t.(requests := t.requests + [t.messages]);
    if s.overBudget.None? {
      match s.reply
      case ProviderFails(stream, text, error) => InterruptedPairs(Emitting(sent, stream), text, error, used);
      case Says(_, _, _, _, _) => SaidPairs(sent, turn, s.reply, used);
    }
  }

  lemma SteppingPairs(t: Turn, turn: TurnId, s: Step, used: set<string>)
    requires TurnPairs(t, used) && t.verdict == Going && FreshCalls(StepCalls(s), used)
    ensures TurnPairs(Stepping(t, turn, s), used + UsedIds(StepCalls(s)))
  {
    MidTurnPairs(t, s.compacting, used);
    var compacted := MidTurn(t, s.compacting);
    if s.halt.None? && compacted.verdict == Going {
      PushPlain(compacted, SteeringMessages(s.steering));
      RequestedPairs(Steered(compacted, turn, s.steering), turn, s, used);
    }
  }

  lemma {:induction false} SteppingAllPairs(t: Turn, turn: TurnId, steps: seq<Step>, used: set<string>)
    requires TurnPairs(t, used) && FreshSteps(steps, used)
    ensures var u := SteppingAll(t, turn, steps);
            AllPaired(u.requests) && AllPaired(u.saved)
    decreases |steps|
  {
    if steps != [] && t.verdict == Going {
      SteppingPairs(t, turn, steps[0], used);
      SteppingAllPairs(Stepping(t, turn, steps[0]), turn, steps[1..], used + UsedIds(StepCalls(steps[0])));
    }
  }

  lemma OpeningPairs(history: seq<ChatMessage>, prompt: ChatMessage, c: Compacting, used: set<string>)
    requires Paired(history) && AnsweredIds(history) <= used && IsPlainMessage(prompt)
    ensures TurnPairs(Opening(history, prompt, c), used)
  {
    var t := Turn(history, None, [], 0, [], [], [], Going);
    match Effective(history, c)
    case NotNeeded => PushPlain(t, [prompt]);
    case CompactionFails(notices, _) => PushPlain(Emitting(t, notices), [prompt, INTERRUPTED]);
    case Compacts(notices, summary) =>
      CompactedIsPaired(SystemText(history), summary);
      PushPlain(Compacted(Emitting(t, notices), summary), [prompt]);
  }

  /**
   Starting from a paired history, every request a turn sends and every history it saves is
   paired, on every path: steered, malformed, denied, failed, declined, interrupted, compacted.
   */
  lemma TurnIsPaired(history: seq<ChatMessage>, prompt: ChatMessage, turn: TurnId, c: Compacting, steps: seq<Step>)
    requires Paired(history) && IsPlainMessage(prompt) && FreshSteps(steps, AnsweredIds(history))
    ensures var t := TurnOf(history, prompt, turn, c, steps);
            && (forall i | 0 <= i < |t.requests| :: Paired(t.requests[i]))
            && (forall i | 0 <= i < |t.saved| :: Paired(t.saved[i]))
  {
    OpeningPairs(history, prompt, c, AnsweredIds(history));
    SteppingAllPairs(Opening(history, prompt, c), turn, steps, AnsweredIds(history));
  }
}
