/**
 The agent turn loop. What the provider, the tools, the user and the compactor do is a script;
 the loop appends to one message list, sends it to the provider, saves it, and emits events.
 A deadline, an abort or a closed event channel drops the loop at some point: what it has sent,
 saved and emitted by then is a prefix of what is described here.
 */
module AgentLoop {
  import opened Prelude
  import opened Vocabulary
  import opened KernelModel
  import opened Chat
  import opened Pairing
  import opened Approvals
  import Journals

  // ---------- The script ----------

  /** How a tool call ends that asks the user structured questions. */
  datatype Completion =
    | Replaced(content: string, success: bool, events: seq<AppEvent>, changes: seq<AppEvent>)
    | Kept(content: string)
    | Broken(problem: string)

  datatype Answer = Dismissed | NoAnswer(reason: string) | Answered(completion: Completion)

  datatype Question = Question(requestId: string, questions: seq<string>, answer: Answer)

  /** The result of an executed tool; a failed execution is a result without success. */
  datatype ToolResult = ToolResult(
    content: string,
    success: bool,
    images: seq<string>,
    events: seq<AppEvent>,
    question: Option<Question>,
    changes: seq<AppEvent>)

  /** One call of the provider and everything that will happen to it. */
  datatype ScriptedCall = ScriptedCall(
    call: ToolCall,
    steered: bool,
    malformed: Option<string>,
    authorization: Authorization,
    refusalText: string,
    result: ToolResult)

  datatype Compacting =
    | NotNeeded
    | Compacts(notices: seq<AppEvent>, summary: string)
    | CompactionFails(notices: seq<AppEvent>, error: Error)

  datatype Steering = Steering(itemId: string, text: string)

  /** What follows a reply without calls. */
  datatype Closing = Closing(pendingBefore: bool, compacting: Compacting, pendingAfter: bool, verified: bool)

  datatype ModelReply =
    | ProviderFails(stream: seq<AppEvent>, streamedText: string, error: Error)
    | Says(stream: seq<AppEvent>, text: string, reasoning: Option<string>, calls: seq<ScriptedCall>, closing: Closing)

  datatype Step = Step(
    halt: Option<Error>,
    compacting: Compacting,
    steering: seq<Steering>,
    overBudget: Option<Error>,
    reply: ModelReply)

  // ---------- The state of a turn ----------

  datatype Verdict = Going | Completed | Failed(error: Error)

  datatype Turn = Turn(
    messages: seq<ChatMessage>,
    lastCall: Option<string>,
    observations: seq<ChatMessage>,
    imageCount: nat,
    requests: seq<seq<ChatMessage>>,
    saved: seq<seq<ChatMessage>>,
    events: seq<AppEvent>,
    verdict: Verdict)

  const MAX_ATTACHMENTS: nat := 10

  const NOT_RUN := "Not run: new user instructions are pending."
  const DECLINED := "Not executed: declined."
  const TOO_MANY_IMAGES := "Cannot view another image."
  const CONTINUATION := TextMessage(User, "[CONTINUATION]")
  const WARNING := Notice("compaction failed")

  function Emitting(t: Turn, events: seq<AppEvent>): Turn {
    t.(events := t.events + events)
  }

  function Pushing(t: Turn, messages: seq<ChatMessage>): Turn {
    t.(messages := t.messages + messages)
  }

  function Saving(t: Turn): Turn {
    t.(saved := t.saved + [t.messages])
  }

  function Stopping(t: Turn, error: Error): Turn {
    t.(verdict := Failed(error))
  }

  // ---------- One tool call ----------

  function Signature(call: ToolCall): string {
    call.name + ":" + call.arguments
  }

  function FailureEvents(turn: TurnId, call: ToolCall, message: string): seq<AppEvent> {
    [ToolProposed(turn, call.id, call.name, call.arguments),
     ToolOutput(call.id, message),
     ToolCompleted(call.id, false)]
  }

  /** A call that does not run is answered with an error the model can repair. */
  function Repairable(t: Turn, turn: TurnId, call: ToolCall, message: string): Turn {
    Pushing(Emitting(t, FailureEvents(turn, call, message)), [ToolError(call, message)])
  }

  /** The user declined: every open call is answered, and the turn ends. */
  function Declining(t: Turn): Turn {
    var filled := Pushing(t, ToolErrors(OpenCalls(t.messages), DECLINED) + [INTERRUPTED]);
    Stopping(Saving(filled), Cancelled)
  }

  function Refusing(t: Turn, call: ToolCall, text: string, error: Error): Turn {
    if error == ApprovalDeclined || error == Cancelled
    then Declining(Emitting(t, [ToolOutput(call.id, text)]))
    else Pushing(Emitting(t, [ToolOutput(call.id, text), ToolCompleted(call.id, false)]), [ToolError(call, text)])
  }

  /** The result after the limit on images in one conversation. */
  function Limited(t: Turn, r: ToolResult): ToolResult {
    if r.success && r.images != [] && t.imageCount + |r.images| > MAX_ATTACHMENTS
    then r.(success := false, content := TOO_MANY_IMAGES, events := [])
    else r
  }

  /** Visual output waits until the whole batch is answered. */
  function Observing(t: Turn, call: ToolCall, r: ToolResult): Turn {
    if r.success && r.images != []
    then t.(imageCount := t.imageCount + |r.images|,
            observations := t.observations + [ImageObservation(call.id, r.images)])
    else t
  }

  function Replying(t: Turn, call: ToolCall, content: string, success: bool, changes: seq<AppEvent>): Turn {
    Pushing(Emitting(t, [ToolOutput(call.id, content), ToolCompleted(call.id, success)] + changes),
            [ToolReply(call.id, call.name, content)])
  }

  function Answering(t: Turn, call: ToolCall, r: ToolResult, completion: Completion): Turn {
    match completion
    case Replaced(content, success, events, changes) => Replying(Emitting(t, events), call, content, success, changes)
    case Kept(content) => Replying(t, call, content, true, r.changes)
    case Broken(problem) => Replying(t, call, problem, false, r.changes)
  }

  function Questioning(t: Turn, call: ToolCall, r: ToolResult, q: Question): Turn {
    var asked := Emitting(t, [QuestionsAsked(q.requestId, q.questions)]);
    match q.answer
    case Dismissed => Stopping(asked, Cancelled)
    case NoAnswer(reason) => Replying(Emitting(asked, [QuestionsFailed(q.requestId)]), call, reason, false, r.changes)
    case Answered(completion) => Answering(Emitting(asked, [QuestionsAnswered(q.requestId)]), call, r, completion)
  }

  function Finishing(t: Turn, call: ToolCall, result: ToolResult): Turn {
    var r := Limited(t, result);
    var observed := Emitting(Observing(t, call, r), r.events);
    match r.question
    case None => Replying(observed, call, r.content, r.success, r.changes)
    case Some(q) => Questioning(observed, call, r, q)
  }

  function Executing(t: Turn, call: ToolCall, r: ToolResult): Turn {
    Finishing(Emitting(t, [ToolStarted(call.id, call.name)]), call, r)
  }

  function Authorizing(t: Turn, turn: TurnId, s: ScriptedCall): Turn {
    var proposed := Emitting(t, [ToolProposed(turn, s.call.id, s.call.name, s.call.arguments)]);
    var asked := Emitting(proposed, AuthorizeOf(s.authorization).0);
    match AuthorizeOf(s.authorization).1
    case Err(error) => Refusing(asked, s.call, s.refusalText, error)
    case Ok(_) => Executing(asked, s.call, s.result)
  }

  function Calling(t: Turn, turn: TurnId, s: ScriptedCall): Turn {
    if s.steered then Repairable(t, turn, s.call, NOT_RUN)
    else if t.lastCall == Some(Signature(s.call)) then Stopping(t, Error.Tool)
    else
      var noted := t.(lastCall := Some(Signature(s.call)));
      if s.malformed.Some? then Repairable(noted, turn, s.call, s.malformed.value)
      else Authorizing(noted, turn, s)
  }

  /** The calls of one reply, in order, until one of them ends the turn. */
  function CallingAll(t: Turn, turn: TurnId, calls: seq<ScriptedCall>): Turn
    decreases |calls|
  {
    if calls == [] || t.verdict != Going then t
    else CallingAll(Calling(t, turn, calls[0]), turn, calls[1..])
  }

  // ---------- One step ----------

  function CountImages(messages: seq<ChatMessage>): nat {
    if messages == [] then 0 else CountImages(messages[..|messages| - 1]) + |messages[|messages| - 1].images|
  }

  function CallsOf(calls: seq<ScriptedCall>): (r: seq<ToolCall>)
    ensures |r| == |calls|
  {
    seq(|calls|, i requires 0 <= i < |calls| => calls[i].call)
  }

  function SystemText(messages: seq<ChatMessage>): string {
    if messages == [] then "" else messages[0].content
  }

  function CompactionEvent(messages: seq<ChatMessage>, summary: string): AppEvent {
    ContextCompacted(summary, if messages == [] then 0 else |messages| - 1)
  }

  /** The list after a compaction, and the event that reports it. */
  function Compacted(t: Turn, summary: string): Turn {
    Emitting(t.(messages := CompactedHistory(SystemText(t.messages), summary)), [CompactionEvent(t.messages, summary)])
  }

  /** There is nothing to compact in a list of at most one message. */
  function Effective(messages: seq<ChatMessage>, c: Compacting): Compacting {
    if |messages| <= 1 then NotNeeded else c
  }

  /** Compaction between two requests adds the request to go on, and saves. */
  function MidTurn(t: Turn, c: Compacting): Turn {
    match if t.requests == [] then NotNeeded else Effective(t.messages, c)
    case NotNeeded => t
    case CompactionFails(notices, error) => Stopping(Emitting(t, notices), error)
    case Compacts(notices, summary) => ContinuedFrom(Emitting(t, notices), summary)
  }

  /** The continuation is saved before the compaction is reported. */
  function ContinuedFrom(t: Turn, summary: string): Turn {
    var compacted := t.(messages := CompactedHistory(SystemText(t.messages), summary) + [CONTINUATION]);
    Emitting(Saving(compacted), [CompactionEvent(t.messages, summary)])
  }

  function SteeringMessages(inputs: seq<Steering>): seq<ChatMessage> {
    seq(|inputs|, i requires 0 <= i < |inputs| => TextMessage(User, inputs[i].text))
  }

  function SteeringEvents(turn: TurnId, inputs: seq<Steering>): seq<AppEvent> {
    seq(|inputs|, i requires 0 <= i < |inputs| => SteeringApplied(turn, inputs[i].itemId, inputs[i].text))
  }

  function Steered(t: Turn, turn: TurnId, inputs: seq<Steering>): Turn {
    var pushed := Emitting(Pushing(t, SteeringMessages(inputs)), SteeringEvents(turn, inputs));
    if inputs == [] then t else pushed.(lastCall := None)
  }

  /** Compaction after the last reply; a failure is reported and left for later. */
  function FinalCompaction(t: Turn, c: Compacting): Turn {
    match Effective(t.messages, c)
    case NotNeeded => t
    case CompactionFails(notices, error) =>
      if error == Cancelled then Stopping(Emitting(t, notices), Cancelled) else Emitting(t, notices + [WARNING])
    case Compacts(notices, summary) => Compacted(Emitting(t, notices), summary)
  }

  function Completing(t: Turn, turn: TurnId, verified: bool): Turn {
    Emitting(Saving(t), if verified then [ResponseVerified(turn)] else []).(verdict := Completed)
  }

  /** A reply without calls: compact if needed, take late input, or complete. */
  function ClosedBy(t: Turn, turn: TurnId, c: Closing): Turn {
    var compacted := FinalCompaction(t, c.compacting);
    if c.pendingBefore then t
    else if compacted.verdict != Going || c.pendingAfter then compacted
    else Completing(compacted, turn, c.verified)
  }

  /** What a reply that broke off leaves in the list. */
  function Partial(streamedText: string): seq<ChatMessage> {
    if streamedText == "" then [] else [TextMessage(Assistant, streamedText)]
  }

  function Interrupted(t: Turn, streamedText: string, error: Error): Turn {
    Stopping(Saving(Pushing(t, Partial(streamedText) + [INTERRUPTED])), error)
  }

  /** Visual output follows when the whole batch is answered. */
  function Observed(t: Turn): Turn {
    if t.verdict == Going then Pushing(t, t.observations).(observations := []) else t
  }

  function Replied(t: Turn, turn: TurnId, r: ModelReply): Turn {
    match r
    case ProviderFails(stream, text, error) => Interrupted(Emitting(t, stream), text, error)
    case Says(stream, text, reasoning, calls, closing) =>
      var assistant := TextMessage(Assistant, text).(reasoning := reasoning, toolCalls := CallsOf(calls));
      var said := Pushing(Emitting(t, stream), [assistant]);
      if calls == [] then ClosedBy(said, turn, closing)
      else Observed(CallingAll(said.(observations := [], imageCount := CountImages(said.messages)), turn, calls))
  }

  function Requested(t: Turn, turn: TurnId, s: Step): Turn {
    if s.overBudget.Some? then Stopping(t, s.overBudget.value)
    else Replied(t.(requests := t.requests + [t.messages]), turn, s.reply)
  }

  function Stepping(t: Turn, turn: TurnId, s: Step): Turn {
    if s.halt.Some? then Stopping(t, s.halt.value)
    else
      var compacted := MidTurn(t, s.compacting);
      if compacted.verdict != Going then compacted
      else Requested(Steered(compacted, turn, s.steering), turn, s)
  }

  function SteppingAll(t: Turn, turn: TurnId, steps: seq<Step>): Turn
    decreases |steps|
  {
    if steps == [] || t.verdict != Going then t
    else SteppingAll(Stepping(t, turn, steps[0]), turn, steps[1..])
  }

  // ---------- The turn ----------

  /** Before the first request: compact the older history if the prompt would not fit. */
  function Opening(history: seq<ChatMessage>, prompt: ChatMessage, c: Compacting): Turn {
    var t := Turn(history, None, [], 0, [], [], [], Going);
    match Effective(history, c)
    case NotNeeded => Pushing(t, [prompt])
    case CompactionFails(notices, error) =>
      Stopping(Saving(Pushing(Emitting(t, notices), [prompt, INTERRUPTED])), error)
    case Compacts(notices, summary) => Pushing(Compacted(Emitting(t, notices), summary), [prompt])
  }

  function TurnOf(history: seq<ChatMessage>, prompt: ChatMessage, turn: TurnId, c: Compacting, steps: seq<Step>): Turn {
    SteppingAll(Opening(history, prompt, c), turn, steps)
  }

  // ---------- The loop ----------

  lemma PushAssociates(t: Turn, a: seq<ChatMessage>, b: seq<ChatMessage>)
    ensures Pushing(Pushing(t, a), b) == Pushing(t, a + b)
  {
    assert t.messages + a + b == t.messages + (a + b);
  }

  /** After `i` decisions: what was asked, and the rest of the authorization still to come. */
  predicate AskedSoFar(a: Authorization, i: nat, asked: seq<AppEvent>)
    requires i <= |a.decisions|
  {
    AskAll(a, a.decisions) == (asked + AskAll(a, a.decisions[i..]).0, AskAll(a, a.decisions[i..]).1)
  }

  lemma NothingAsked(a: Authorization)
    ensures AskedSoFar(a, 0, [])
  {
    assert a.decisions[0..] == a.decisions;
    assert [] + AskAll(a, a.decisions).0 == AskAll(a, a.decisions).0;
  }

  lemma OneMoreAsked(a: Authorization, i: nat, asked: seq<AppEvent>)
    requires i < |a.decisions| && AskedSoFar(a, i, asked)
    ensures var d := a.decisions[i];
            if !MustAsk(a, d) then AskedSoFar(a, i + 1, asked)
            else if Consents(d.approval) then AskedSoFar(a, i + 1, asked + AskEvents(d))
            else AskAll(a, a.decisions) == (asked + AskEvents(d), Err(Refusal(d.approval)))
  {
    var rest := a.decisions[i..];
    assert rest[0] == a.decisions[i] && rest[1..] == a.decisions[i + 1..];
    var more := AskAll(a, rest[1..]).0;
    assert asked + (AskEvents(rest[0]) + more) == (asked + AskEvents(rest[0])) + more;
  }

  /** The running turn: the message list, what was sent, saved and emitted, and the outcome. */
  class TurnRunner {
    const turn: TurnId
    var messages: seq<ChatMessage>
    var lastCall: Option<string>
    var observations: seq<ChatMessage>
    var imageCount: nat
    var requests: seq<seq<ChatMessage>>
    var saved: seq<seq<ChatMessage>>
    var events: seq<AppEvent>
    var verdict: Verdict

    function View(): Turn
      reads this
    {
      Turn(messages, lastCall, observations, imageCount, requests, saved, events, verdict)
    }

    constructor (turn: TurnId, history: seq<ChatMessage>)
      ensures this.turn == turn && View() == Turn(history, None, [], 0, [], [], [], Going)
    {
      this.turn := turn;
      messages := history;
      lastCall := None;
      observations, imageCount := [], 0;
      requests, saved, events := [], [], [];
      verdict := Going;
    }

    method Emit(event: AppEvent)
      modifies this
      ensures View() == Emitting(old(View()), [event])
    {
      events := events + [event];
    }

    method EmitAll(stream: seq<AppEvent>)
      modifies this
      ensures View() == Emitting(old(View()), stream)
    {
      for i := 0 to |stream|
        invariant View() == Emitting(old(View()), stream[..i])
      {
        events := events + [stream[i]];
        assert stream[..i + 1] == stream[..i] + [stream[i]];
      }
      assert stream[..|stream|] == stream;
    }

    method Push(m: ChatMessage)
      modifies this
      ensures View() == Pushing(old(View()), [m])
    {
      messages := messages + [m];
    }

    method Save()
      modifies this
      ensures View() == Saving(old(View()))
    {
      saved := saved + [messages];
    }

    /** Ask the user one question. */
    method AskOnce(d: Decision)
      modifies this
      ensures View() == Emitting(old(View()), AskEvents(d))
    {
      Emit(PermissionRequired(d.requestId));
      if !d.approval.Abandoned? {
        Emit(PermissionResolved(d.requestId, Consents(d.approval)));
      }
    }

    /** Ask the user about each decision in turn, until one is refused. */
    method AskUser(a: Authorization) returns (r: Result<()>)
      modifies this
      ensures View() == Emitting(old(View()), AskAll(a, a.decisions).0) && r == AskAll(a, a.decisions).1
    {
      ghost var asked: seq<AppEvent> := [];
      NothingAsked(a);
      for i := 0 to |a.decisions|
        invariant View() == Emitting(old(View()), asked)
        invariant AskedSoFar(a, i, asked)
      {
        var d := a.decisions[i];
        OneMoreAsked(a, i, asked);
        if MustAsk(a, d) {
          AskOnce(d);
          if !Consents(d.approval) {
            return Err(Refusal(d.approval));
          }
          asked := asked + AskEvents(d);
        }
      }
      r := Ok(());
    }

    /** Deny without asking, or ask the user. */
    method Authorize(a: Authorization) returns (r: Result<()>)
      modifies this
      ensures View() == Emitting(old(View()), AuthorizeOf(a).0) && r == AuthorizeOf(a).1
    {
      if a.refusal.Some? {
        return Err(a.refusal.value);
      }
      for i := 0 to |a.decisions|
        invariant forall j | 0 <= j < i :: a.decisions[j].kind != Deny
        invariant View() == old(View())
      {
        if a.decisions[i].kind == Deny {
          return Err(PermissionDenied);
        }
      }
      r := AskUser(a);
    }

    method FailRepairably(call: ToolCall, message: string)
      modifies this
      ensures View() == Repairable(old(View()), turn, call, message)
    {
      Emit(ToolProposed(turn, call.id, call.name, call.arguments));
      Emit(ToolOutput(call.id, message));
      Emit(ToolCompleted(call.id, false));
      Push(ToolError(call, message));
    }

    /** Answer every open call, note the interruption, save and stop. */
    method Decline()
      modifies this
      ensures View() == Declining(old(View()))
    {
      var open := OpenCalls(messages);
      for i := 0 to |open|
        invariant View() == Pushing(old(View()), ToolErrors(open[..i], DECLINED))
      {
        Push(ToolError(open[i], DECLINED));
        assert open[..i + 1][..i] == open[..i];
      }
      assert open[..|open|] == open;
      PushAssociates(old(View()), ToolErrors(open, DECLINED), [INTERRUPTED]);
      Push(INTERRUPTED);
      Save();
      verdict := Failed(Cancelled);
    }

    method Reply(call: ToolCall, content: string, success: bool, changes: seq<AppEvent>)
      modifies this
      ensures View() == Replying(old(View()), call, content, success, changes)
    {
      Emit(ToolOutput(call.id, content));
      Emit(ToolCompleted(call.id, success));
      EmitAll(changes);
      Push(ToolReply(call.id, call.name, content));
    }

    method Ask(call: ToolCall, r: ToolResult, q: Question)
      modifies this
      ensures View() == Questioning(old(View()), call, r, q)
    {
      Emit(QuestionsAsked(q.requestId, q.questions));
      match q.answer {
        case Dismissed => verdict := Failed(Cancelled);
        case NoAnswer(reason) =>
          Emit(QuestionsFailed(q.requestId));
          Reply(call, reason, false, r.changes);
        case Answered(completion) =>
          Emit(QuestionsAnswered(q.requestId));
          match completion {
            case Replaced(content, success, produced, changes) =>
              EmitAll(produced);
              Reply(call, content, success, changes);
            case Kept(content) => Reply(call, content, true, r.changes);
            case Broken(problem) => Reply(call, problem, false, r.changes);
          }
      }
    }

    /** Keep the visual output for later, unless the conversation already has its fill. */
    method Observe(call: ToolCall, result: ToolResult) returns (r: ToolResult)
      modifies this
      ensures r == Limited(old(View()), result) && View() == Observing(old(View()), call, r)
    {
      r := result;
      if r.success && r.images != [] {
        if imageCount + |r.images| > MAX_ATTACHMENTS {
          r := r.(success := false, content := TOO_MANY_IMAGES, events := []);
        } else {
          imageCount := imageCount + |r.images|;
          observations := observations + [ImageObservation(call.id, r.images)];
        }
      }
    }

    method Execute(call: ToolCall, result: ToolResult)
      modifies this
      ensures View() == Executing(old(View()), call, result)
    {
      Emit(ToolStarted(call.id, call.name));
      var r := Observe(call, result);
      EmitAll(r.events);
      if r.question.Some? {
        Ask(call, r, r.question.value);
      } else {
        Reply(call, r.content, r.success, r.changes);
      }
    }

    method Call(s: ScriptedCall)
      modifies this
      ensures View() == Calling(old(View()), turn, s)
    {
      if s.steered {
        FailRepairably(s.call, NOT_RUN);
        return;
      }
      if lastCall == Some(Signature(s.call)) {
        verdict := Failed(Error.Tool);
        return;
      }
      lastCall := Some(Signature(s.call));
      if s.malformed.Some? {
        FailRepairably(s.call, s.malformed.value);
        return;
      }
      Emit(ToolProposed(turn, s.call.id, s.call.name, s.call.arguments));
      var authorized := Authorize(s.authorization);
      if authorized.Err? {
        Emit(ToolOutput(s.call.id, s.refusalText));
        if authorized.error == ApprovalDeclined || authorized.error == Cancelled {
          Decline();
        } else {
          Emit(ToolCompleted(s.call.id, false));
          Push(ToolError(s.call, s.refusalText));
        }
      } else {
        Execute(s.call, s.result);
      }
    }

    method CallAll(calls: seq<ScriptedCall>)
      modifies this
      ensures View() == CallingAll(old(View()), turn, calls)
    {
      var i := 0;
      while i < |calls| && verdict == Going
        invariant i <= |calls|
        invariant CallingAll(old(View()), turn, calls) == CallingAll(View(), turn, calls[i..])
      {
        assert calls[i..][0] == calls[i] && calls[i..][1..] == calls[i + 1..];
        Call(calls[i]);
        i := i + 1;
      }
    }

    method Compact(c: Compacting)
      modifies this
      ensures View() == MidTurn(old(View()), c)
    {
      if requests != [] && |messages| > 1 {
        match c {
          case NotNeeded =>
          case CompactionFails(notices, error) =>
            EmitAll(notices);
            verdict := Failed(error);
          case Compacts(notices, summary) =>
            EmitAll(notices);
            var report := CompactionEvent(messages, summary);
            messages := CompactedHistory(SystemText(messages), summary) + [CONTINUATION];
            Save();
            Emit(report);
        }
      }
    }

    method TakeSteering(inputs: seq<Steering>)
      modifies this
      ensures View() == Steered(old(View()), turn, inputs)
    {
      for i := 0 to |inputs|
        invariant View() == Steered(old(View()), turn, inputs[..i])
      {
        Push(TextMessage(User, inputs[i].text));
        Emit(SteeringApplied(turn, inputs[i].itemId, inputs[i].text));
        lastCall := None;
        assert SteeringMessages(inputs[..i + 1]) == SteeringMessages(inputs[..i]) + [TextMessage(User, inputs[i].text)];
        assert SteeringEvents(turn, inputs[..i + 1])
            == SteeringEvents(turn, inputs[..i]) + [SteeringApplied(turn, inputs[i].itemId, inputs[i].text)];
      }
      assert inputs[..|inputs|] == inputs;
    }

    method Close(c: Closing)
      requires verdict == Going
      modifies this
      ensures View() == ClosedBy(old(View()), turn, c)
    {
      if c.pendingBefore {
        return;
      }
      if |messages| > 1 {
        match c.compacting {
          case NotNeeded =>
          case CompactionFails(notices, error) =>
            EmitAll(notices);
            if error == Cancelled {
              verdict := Failed(Cancelled);
              return;
            }
            Emit(WARNING);
          case Compacts(notices, summary) =>
            EmitAll(notices);
            var report := CompactionEvent(messages, summary);
            messages := CompactedHistory(SystemText(messages), summary);
            Emit(report);
        }
      }
      if c.pendingAfter {
        return;
      }
      Save();
      if c.verified {
        Emit(ResponseVerified(turn));
      }
      verdict := Completed;
    }

    /** The provider failed: keep what it streamed, note the interruption, save and stop. */
    method Interrupt(streamedText: string, error: Error)
      modifies this
      ensures View() == Interrupted(old(View()), streamedText, error)
    {
      if streamedText != "" {
        Push(TextMessage(Assistant, streamedText));
      }
      assert View() == Pushing(old(View()), Partial(streamedText));
      PushAssociates(old(View()), Partial(streamedText), [INTERRUPTED]);
      Push(INTERRUPTED);
      ghost var noted := Pushing(old(View()), Partial(streamedText) + [INTERRUPTED]);
      assert View() == noted;
      Save();
      assert View() == Saving(noted);
      verdict := Failed(error);
    }

    /** Run the calls of a reply; what they observed follows when all are answered. */
    method CallBatch(calls: seq<ScriptedCall>)
      requires verdict == Going
      modifies this
      ensures View() == Observed(CallingAll(old(View()).(observations := [], imageCount := CountImages(old(messages))),
                                            turn, calls))
    {
      observations, imageCount := [], CountImages(messages);
      CallAll(calls);
      if verdict == Going {
        messages := messages + observations;
        observations := [];
      }
    }

    method Take(r: ModelReply)
      requires verdict == Going
      modifies this
      ensures View() == Replied(old(View()), turn, r)
    {
      EmitAll(r.stream);
      match r {
        case ProviderFails(_, streamedText, error) => Interrupt(streamedText, error);
        case Says(_, text, reasoning, calls, closing) =>
          Push(TextMessage(Assistant, text).(reasoning := reasoning, toolCalls := CallsOf(calls)));
          if calls == [] {
            Close(closing);
          } else {
            CallBatch(calls);
          }
      }
    }

    method TakeStep(s: Step)
      requires verdict == Going
      modifies this
      ensures View() == Stepping(old(View()), turn, s)
    {
      if s.halt.Some? {
        verdict := Failed(s.halt.value);
        return;
      }
      Compact(s.compacting);
      if verdict != Going {
        return;
      }
      TakeSteering(s.steering);
      if s.overBudget.Some? {
        verdict := Failed(s.overBudget.value);
        return;
      }
      requests := requests + [messages];
      Take(s.reply);
    }

    /** Compact the older history if the prompt would not fit, then take the prompt. */
    method Open(prompt: ChatMessage, opening: Compacting)
      requires View() == Turn(messages, None, [], 0, [], [], [], Going)
      modifies this
      ensures View() == Opening(old(messages), prompt, opening)
    {
      if |messages| <= 1 || opening.NotNeeded? {
        Push(prompt);
        return;
      }
      EmitAll(opening.notices);
      ghost var begun := View();
      if opening.CompactionFails? {
        Push(prompt);
        PushAssociates(begun, [prompt], [INTERRUPTED]);
        Push(INTERRUPTED);
        assert [prompt] + [INTERRUPTED] == [prompt, INTERRUPTED];
        assert View() == Pushing(begun, [prompt, INTERRUPTED]);
        Save();
        verdict := Failed(opening.error);
      } else {
        var report := CompactionEvent(messages, opening.summary);
        messages := CompactedHistory(SystemText(messages), opening.summary);
        Emit(report);
        Push(prompt);
      }
    }

    /** Run one turn on a fresh runner. */
    method Run(prompt: ChatMessage, opening: Compacting, steps: seq<Step>)
      requires View() == Turn(messages, None, [], 0, [], [], [], Going)
      modifies this
      ensures View() == TurnOf(old(messages), prompt, turn, opening, steps)
    {
      Open(prompt, opening);
      ghost var begun := View();
      assert steps[0..] == steps;
      var i := 0;
      while i < |steps| && verdict == Going
        invariant i <= |steps|
        invariant SteppingAll(begun, turn, steps) == SteppingAll(View(), turn, steps[i..])
      {
        assert steps[i..][0] == steps[i] && steps[i..][1..] == steps[i + 1..];
        TakeStep(steps[i]);
        i := i + 1;
      }
    }
  }
}
