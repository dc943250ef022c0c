/**
 What a turn sends and stores, message by message, in terms of its script: the prompt, the
 steering, what the provider said, what each tool gave back, and nothing else.
 */
module TurnContents {
  import opened Prelude
  import opened Vocabulary
  import opened Chat
  import opened Pairing
  import opened Approvals
  import opened AgentLoop

  // ---------- What one call gives back ----------

  /** What the model is told of a call: that it did not run, or what it gave. */
  datatype Outcome = Repair(message: string) | Gave(content: string)

  const IMAGE_LIMIT: nat := 10

  /** An executed tool shows its images, unless the conversation already shows as many as it may. */
  predicate ShowsIts(r: ToolResult, shown: nat) {
    r.success && r.images != [] && shown + |r.images| <= IMAGE_LIMIT
  }

  function ResultOutcome(r: ToolResult, shown: nat): Option<Outcome> {
    match r.question
    case None =>
      if r.success && r.images != [] && !ShowsIts(r, shown) then Some(Gave("Cannot view another image."))
      else Some(Gave(r.content))
    case Some(q) => if q.answer.Dismissed? then None else Some(Gave(WordsOf(q.answer)))
  }

  /** What the model is told of a question. */
  function WordsOf(answer: Answer): string
    requires !answer.Dismissed?
  {
    match answer
    case NoAnswer(reason) => reason
    case Answered(Replaced(content, _, _, _)) => content
    case Answered(Kept(content)) => content
    case Answered(Broken(problem)) => problem
  }

  predicate Executes(s: ScriptedCall) {
    !s.steered && s.malformed.None? && AuthorizeOf(s.authorization).1.Ok?
  }

  /** The outcome of a call when `shown` images are shown already; None when it ends the turn. */
  function OutcomeOf(s: ScriptedCall, shown: nat): Option<Outcome> {
    if s.steered then Some(Repair("Not run: new user instructions are pending."))
    else if s.malformed.Some? then Some(Repair(s.malformed.value))
    else match AuthorizeOf(s.authorization).1
      case Ok(_) => ResultOutcome(s.result, shown)
      case Err(error) =>
        if error == ApprovalDeclined || error == Cancelled then None else Some(Repair(s.refusalText))
  }

  function ImagesShownBy(s: ScriptedCall, shown: nat): nat {
    if Executes(s) && ShowsIts(s.result, shown) then |s.result.images| else 0
  }

  const REPAIRABLE := "REPAIRABLE TOOL ERROR: "

  /** The message answers the call with its outcome. */
  ghost predicate Answers(m: ChatMessage, s: ScriptedCall, shown: nat) {
    match OutcomeOf(s, shown)
    case None => false
    case Some(Repair(message)) => SaysOutput(m, s.call.id, s.call.name, REPAIRABLE + message)
    case Some(Gave(content)) => SaysOutput(m, s.call.id, s.call.name, content)
  }

  /** One answer for each call, in order. */
  ghost predicate AnswerAll(replies: seq<ChatMessage>, calls: seq<ScriptedCall>, shown: nat)
    decreases |calls|
  {
    && |replies| == |calls|
    && (calls != [] ==>
          && Answers(replies[0], calls[0], shown)
          && AnswerAll(replies[1..], calls[1..], shown + ImagesShownBy(calls[0], shown)))
  }

  /** One message for the images of each call that shows some, in order. */
  ghost predicate ShowAll(views: seq<ChatMessage>, calls: seq<ScriptedCall>, shown: nat)
    decreases |calls|
  {
    if calls == [] then views == []
    else if ImagesShownBy(calls[0], shown) == 0 then ShowAll(views, calls[1..], shown)
    else
      && views != [] && ShowsImages(views[0], calls[0].call.id, calls[0].result.images)
      && ShowAll(views[1..], calls[1..], shown + ImagesShownBy(calls[0], shown))
  }

  // ---------- What a list says after another ----------

  /** The assistant's message: the text, the reasoning and the calls of a reply. */
  predicate IsReplyMessage(m: ChatMessage, text: string, reasoning: Option<string>, calls: seq<ScriptedCall>) {
    && m == ChatMessage(Assistant, text, [], [], reasoning, None, m.toolCalls)
    && |m.toolCalls| == |calls| && forall k | 0 <= k < |calls| :: m.toolCalls[k] == calls[k].call
  }

  function ImagesIn(messages: seq<ChatMessage>): nat {
    if messages == [] then 0 else ImagesIn(messages[..|messages| - 1]) + |messages[|messages| - 1].images|
  }

  /** A reply with calls adds its message, an answer for each call, and the images they show. */
  ghost predicate AddsBatch(before: seq<ChatMessage>, after: seq<ChatMessage>, text: string,
                            reasoning: Option<string>, calls: seq<ScriptedCall>)
  {
    var n := |before| + 1;
    && n + |calls| <= |after| && before <= after && IsReplyMessage(after[n - 1], text, reasoning, calls)
    && AnswerAll(after[n..n + |calls|], calls, ImagesIn(before))
    && ShowAll(after[n + |calls|..], calls, ImagesIn(before))
  }

  /** A reply without calls adds its message, or is compacted with everything before it. */
  ghost predicate AddsClosing(before: seq<ChatMessage>, after: seq<ChatMessage>, text: string,
                              reasoning: Option<string>, closing: Closing)
  {
    if !closing.pendingBefore && closing.compacting.Compacts?
    then before != [] && StandsFor(after, before[0].content, closing.compacting.summary)
    else |after| == |before| + 1 && before <= after && IsReplyMessage(after[|before|], text, reasoning, [])
  }

  /** What the list is after a reply that did not end the turn. */
  ghost predicate AddsReply(before: seq<ChatMessage>, after: seq<ChatMessage>, r: ModelReply) {
    && r.Says?
    && if r.calls != [] then AddsBatch(before, after, r.text, r.reasoning, r.calls)
       else (r.closing.pendingBefore || r.closing.pendingAfter)
            && AddsClosing(before, after, r.text, r.reasoning, r.closing)
  }

  predicate AddsSteering(before: seq<ChatMessage>, after: seq<ChatMessage>, inputs: seq<Steering>) {
    && |after| == |before| + |inputs| && before <= after
    && forall k | 0 <= k < |inputs| ::
         after[|before| + k] == ChatMessage(User, inputs[k].text, [], [], None, None, [])
  }

  /** A later request is the list so far, or what a compaction made of it and the request to go
      on, and the steering that has come. */
  ghost predicate Sends(list: seq<ChatMessage>, s: Step, request: seq<ChatMessage>) {
    if s.compacting.Compacts? && |list| > 1
    then && |request| >= 3 && StandsFor(request[..2], list[0].content, s.compacting.summary)
         && request[2] == ChatMessage(User, "[CONTINUATION]", [], [], None, None, [])
         && AddsSteering(request[..3], request, s.steering)
    else AddsSteering(list, request, s.steering)
  }

  ghost predicate LeadsTo(request: seq<ChatMessage>, r: ModelReply, next: Step, later: seq<ChatMessage>) {
    exists list :: AddsReply(request, list, r) && Sends(list, next, later)
  }

  /** A turn opens with the history, or what a compaction made of it, and the prompt. */
  ghost predicate Opens(history: seq<ChatMessage>, prompt: ChatMessage, c: Compacting, list: seq<ChatMessage>) {
    if |history| <= 1 || c.NotNeeded? then list == history + [prompt]
    else c.Compacts? && |list| == 3 && StandsFor(list[..2], history[0].content, c.summary) && list[2] == prompt
  }

  ghost predicate SendsFirst(history: seq<ChatMessage>, prompt: ChatMessage, c: Compacting, s: Step,
                             request: seq<ChatMessage>)
  {
    exists list :: Opens(history, prompt, c, list) && AddsSteering(list, request, s.steering)
  }

  const INTERRUPTION := ChatMessage(System, "[INTERRUPTED TURN]", [], [], None, None, [])

  /** The list a provider failure leaves: what it had streamed, and the note. */
  predicate AddsPartial(before: seq<ChatMessage>, after: seq<ChatMessage>, text: string) {
    if text == "" then after == before + [INTERRUPTION]
    else after == before + [ChatMessage(Assistant, text, [], [], None, None, [])] + [INTERRUPTION]
  }

  // ---------- One call ----------

  lemma Joined<T>(first: seq<T>, second: seq<T>, third: seq<T>)
    ensures first + second + third == first + (second + third)
  {
  }

  lemma CountsImages(messages: seq<ChatMessage>)
    ensures CountImages(messages) == ImagesIn(messages)
  {
    if messages != [] {
      CountsImages(messages[..|messages| - 1]);
    }
  }

  lemma ToolErrorTells(call: ToolCall, message: string)
    ensures SaysOutput(ToolError(call, message), call.id, call.name, REPAIRABLE + message)
  {
    UntrustedTells(call.name, REPAIRABLE + message);
  }

  function Words(o: Outcome): string {
    match o
    case Repair(message) => message
    case Gave(content) => content
  }

  predicate SucceedsWith(answer: Answer) {
    && answer.Answered?
    && match answer.completion
       case Replaced(_, success, _, _) => success
       case Kept(_) => true
       case Broken(_) => false
  }

  /** Whether a tool that was executed counts as a success. */
  predicate Succeeds(r: ToolResult, shown: nat) {
    match r.question
    case None => r.success && (r.images == [] || ShowsIts(r, shown))
    case Some(q) => SucceedsWith(q.answer)
  }

  /** What an executed tool reports while it runs; nothing when its images are too many. */
  function Produced(r: ToolResult, shown: nat): seq<AppEvent> {
    if r.success && r.images != [] && !ShowsIts(r, shown) then [] else r.events
  }

  function AskReport(question: Option<Question>): seq<AppEvent> {
    match question
    case None => []
    case Some(q) =>
      [QuestionsAsked(q.requestId, q.questions)] +
      match q.answer
      case Dismissed => []
      case NoAnswer(_) => [QuestionsFailed(q.requestId)]
      case Answered(Replaced(_, _, events, _)) => [QuestionsAnswered(q.requestId)] + events
      case Answered(_) => [QuestionsAnswered(q.requestId)]
  }

  function ChangesOf(r: ToolResult): seq<AppEvent> {
    if r.question.Some? && r.question.value.answer.Answered? && r.question.value.answer.completion.Replaced?
    then r.question.value.answer.completion.changes
    else r.changes
  }

  /** What a run adds: the start, what it reports, what it asks, the output, what it changes. */
  function RunReport(call: ToolCall, r: ToolResult, shown: nat, words: string): seq<AppEvent> {
    [ToolStarted(call.id, call.name)] + Produced(r, shown) + AskReport(r.question)
    + [ToolOutput(call.id, words), ToolCompleted(call.id, Succeeds(r, shown))] + ChangesOf(r)
  }

  /** All that the journal says of a call: the proposal, what was asked about it, and its run, or
      that it did not run; with the very words the model is given. */
  function CallReport(turn: TurnId, s: ScriptedCall, shown: nat): seq<AppEvent>
    requires OutcomeOf(s, shown).Some?
  {
    var words := Words(OutcomeOf(s, shown).value);
    [ToolProposed(turn, s.call.id, s.call.name, s.call.arguments)]
    + (if s.steered || s.malformed.Some? then [] else AuthorizeOf(s.authorization).0)
    + if Executes(s) then RunReport(s.call, s.result, shown, words)
      else [ToolOutput(s.call.id, words), ToolCompleted(s.call.id, false)]
  }

  predicate AllAnswered(calls: seq<ScriptedCall>, shown: nat)
    decreases |calls|
  {
    calls != [] ==> OutcomeOf(calls[0], shown).Some? && AllAnswered(calls[1..], shown + ImagesShownBy(calls[0], shown))
  }

  /** The calls of a reply, one after the other. */
  function BatchReport(turn: TurnId, calls: seq<ScriptedCall>, shown: nat): seq<AppEvent>
    requires AllAnswered(calls, shown)
    decreases |calls|
  {
    if calls == [] then []
    else CallReport(turn, calls[0], shown)
         + BatchReport(turn, calls[1..], shown + ImagesShownBy(calls[0], shown))
  }

  /** Only the message list, the events and what is kept of images may differ. */
  predicate OnlyTold(t: Turn, u: Turn) {
    && u == t.(messages := u.messages, events := u.events, observations := u.observations,
               imageCount := u.imageCount, lastCall := u.lastCall)
    && t.events <= u.events
  }

  /** One more message, with this content, and this in the journal. */
  ghost predicate Gives(t: Turn, u: Turn, call: ToolCall, content: string, report: seq<AppEvent>) {
    && |u.messages| == |t.messages| + 1 && t.messages <= u.messages
    && SaysOutput(u.messages[|t.messages|], call.id, call.name, content)
    && u.events == t.events + report
    && OnlyTold(t, u)
  }

  predicate SameImages(t: Turn, u: Turn) {
    u.observations == t.observations && u.imageCount == t.imageCount
  }

  lemma ReplyingTells(t: Turn, call: ToolCall, content: string, success: bool, changes: seq<AppEvent>)
    ensures var u := Replying(t, call, content, success, changes);
            && Gives(t, u, call, content, [ToolOutput(call.id, content), ToolCompleted(call.id, success)] + changes)
            && SameImages(t, u) && u.lastCall == t.lastCall
  {
    ToolReplyTells(call.id, call.name, content);
  }

  lemma RepairableTells(t: Turn, turn: TurnId, call: ToolCall, message: string)
    ensures var u := Repairable(t, turn, call, message);
            && Gives(t, u, call, REPAIRABLE + message,
                     [ToolProposed(turn, call.id, call.name, call.arguments), ToolOutput(call.id, message),
                      ToolCompleted(call.id, false)])
            && SameImages(t, u)
  {
    ToolErrorTells(call, message);
  }

  /** Events that come before those of what follows. */
  lemma GivesAfter(t: Turn, before: seq<AppEvent>, u: Turn, call: ToolCall, content: string, report: seq<AppEvent>)
    requires Gives(Emitting(t, before), u, call, content, report)
    ensures Gives(t, u, call, content, before + report)
  {
    assert t.events + before + report == t.events + (before + report);
  }

  /** What a question that was not dismissed adds. */
  function AnswerReport(call: ToolCall, r: ToolResult, q: Question): seq<AppEvent>
    requires !q.answer.Dismissed?
  {
    AskReport(Some(q)) + ([ToolOutput(call.id, WordsOf(q.answer)), ToolCompleted(call.id, SucceedsWith(q.answer))]
                          + ChangesOf(r.(question := Some(q))))
  }

  /** What was asked is journaled, then the reply is given. */
  lemma AnsweringTells(t: Turn, call: ToolCall, r: ToolResult, q: Question)
    requires !q.answer.Dismissed?
    ensures Questioning(t, call, r, q)
            == Replying(Emitting(t, AskReport(Some(q))), call, WordsOf(q.answer), SucceedsWith(q.answer),
                        ChangesOf(r.(question := Some(q))))
  {
    var asked := [QuestionsAsked(q.requestId, q.questions)];
    match q.answer
    case NoAnswer(_) =>
      EmittingTwice(t, asked, [QuestionsFailed(q.requestId)]);
    case Answered(completion) =>
      EmittingTwice(t, asked, [QuestionsAnswered(q.requestId)]);
      if completion.Replaced? {
        EmittingTwice(t, asked + [QuestionsAnswered(q.requestId)], completion.events);
        assert asked + [QuestionsAnswered(q.requestId)] + completion.events == AskReport(Some(q));
      }
  }

  lemma EmittingTwice(t: Turn, events: seq<AppEvent>, more: seq<AppEvent>)
    ensures Emitting(Emitting(t, events), more) == Emitting(t, events + more)
  {
    assert t.events + events + more == t.events + (events + more);
  }

  lemma QuestioningTells(t: Turn, call: ToolCall, r: ToolResult, q: Question)
    requires t.verdict == Going
    ensures var u := Questioning(t, call, r, q);
            && t.events <= u.events && u.requests == t.requests && u.verdict != Completed
            && if q.answer.Dismissed? then u.verdict != Going
               else Gives(t, u, call, WordsOf(q.answer), AnswerReport(call, r, q)) && SameImages(t, u)
  {
    if !q.answer.Dismissed? {
      var asked, changes := AskReport(Some(q)), ChangesOf(r.(question := Some(q)));
      AnsweringTells(t, call, r, q);
      ReplyingTells(Emitting(t, asked), call, WordsOf(q.answer), SucceedsWith(q.answer), changes);
      GivesAfter(t, asked, Questioning(t, call, r, q), call, WordsOf(q.answer),
                 [ToolOutput(call.id, WordsOf(q.answer)), ToolCompleted(call.id, SucceedsWith(q.answer))] + changes);
    }
  }

  /** What the images of a call do: nothing, or one observation kept for the end of the batch. */
  ghost predicate KeepsImages(t: Turn, u: Turn, call: ToolCall, r: ToolResult, shows: bool) {
    if !shows then SameImages(t, u)
    else
      && u.imageCount == t.imageCount + |r.images|
      && |u.observations| == |t.observations| + 1 && t.observations <= u.observations
      && ShowsImages(u.observations[|t.observations|], call.id, r.images)
  }

  lemma ObservingTells(t: Turn, call: ToolCall, result: ToolResult)
    ensures var r := Limited(t, result);
            var u := Emitting(Observing(t, call, r), r.events);
            && OnlyTold(t, u) && u.messages == t.messages && u.events == t.events + Produced(result, t.imageCount)
            && KeepsImages(t, u, call, result, ShowsIts(result, t.imageCount))
            && r.question == result.question && r.changes == result.changes
            && (result.question.None? ==> ResultOutcome(result, t.imageCount) == Some(Gave(r.content)))
  {
    ImageObservationTells(call.id, result.images);
  }

  /** The turn while a tool runs: its start, its images and its own events. */
  function Running(t: Turn, call: ToolCall, result: ToolResult): Turn {
    var started := Emitting(t, [ToolStarted(call.id, call.name)]);
    var r := Limited(started, result);
    Emitting(Observing(started, call, r), r.events)
  }

  lemma RunningTells(t: Turn, call: ToolCall, result: ToolResult)
    ensures var u := Running(t, call, result);
            && OnlyTold(t, u) && u.messages == t.messages && u.lastCall == t.lastCall
            && u.events == t.events + ([ToolStarted(call.id, call.name)] + Produced(result, t.imageCount))
            && KeepsImages(t, u, call, result, ShowsIts(result, t.imageCount))
  {
    var started := Emitting(t, [ToolStarted(call.id, call.name)]);
    ObservingTells(started, call, result);
    Joined(t.events, [ToolStarted(call.id, call.name)], Produced(result, t.imageCount));
  }

  lemma ExecutingTells(t: Turn, call: ToolCall, result: ToolResult)
    requires t.verdict == Going
    ensures var u, outcome := Executing(t, call, result), ResultOutcome(result, t.imageCount);
            && t.events <= u.events && u.requests == t.requests && u.verdict != Completed
            && if outcome.None? then u.verdict != Going
               else && Gives(t, u, call, Words(outcome.value),
                             RunReport(call, result, t.imageCount, Words(outcome.value)))
                    && outcome.value.Gave? && KeepsImages(t, u, call, result, ShowsIts(result, t.imageCount))
  {
    var running, r := Running(t, call, result), Limited(t, result);
    RunningTells(t, call, result);
    match result.question
    case None =>
      ReplyingTells(running, call, r.content, r.success, r.changes);
      RunIsReported(t.events, call, result, t.imageCount, r.content);
    case Some(q) =>
      QuestioningTells(running, call, r, q);
      if !q.answer.Dismissed? {
        RunIsReported(t.events, call, result, t.imageCount, WordsOf(q.answer));
      }
  }

  lemma RunIsReported(before: seq<AppEvent>, call: ToolCall, r: ToolResult, shown: nat, words: string)
    ensures before + ([ToolStarted(call.id, call.name)] + Produced(r, shown))
            + (AskReport(r.question)
               + ([ToolOutput(call.id, words), ToolCompleted(call.id, Succeeds(r, shown))] + ChangesOf(r)))
            == before + RunReport(call, r, shown, words)
  {
    var a, b := [ToolStarted(call.id, call.name)] + Produced(r, shown), AskReport(r.question);
    var c, d := [ToolOutput(call.id, words), ToolCompleted(call.id, Succeeds(r, shown))], ChangesOf(r);
    FourJoined(before, a, b, c, d);
  }

  lemma FourJoined<T>(before: seq<T>, a: seq<T>, b: seq<T>, c: seq<T>, d: seq<T>)
    ensures before + a + (b + (c + d)) == before + (a + b + c + d)
  {
  }

  /** A call that does not end the turn adds its answer, and keeps its images for later. */
  ghost predicate CallTold(t: Turn, u: Turn, s: ScriptedCall) {
    && |u.messages| == |t.messages| + 1 && t.messages <= u.messages
    && Answers(u.messages[|t.messages|], s, t.imageCount)
    && KeepsImages(t, u, s.call, s.result, ImagesShownBy(s, t.imageCount) > 0)
    && OnlyTold(t, u)
  }

  predicate CallReported(before: seq<AppEvent>, after: seq<AppEvent>, turn: TurnId, s: ScriptedCall, shown: nat) {
    OutcomeOf(s, shown).Some? && after == before + CallReport(turn, s, shown)
  }

  lemma RefusingTells(t: Turn, call: ToolCall, text: string, error: Error)
    requires t.verdict == Going
    ensures var u := Refusing(t, call, text, error);
            && t.events <= u.events && u.requests == t.requests && u.verdict != Completed
            && if error == ApprovalDeclined || error == Cancelled then u.verdict != Going
               else && Gives(t, u, call, REPAIRABLE + text,
                             [ToolOutput(call.id, text), ToolCompleted(call.id, false)])
                    && SameImages(t, u)
  {
    ToolErrorTells(call, text);
  }

  lemma AuthorizingTells(t: Turn, turn: TurnId, s: ScriptedCall)
    requires t.verdict == Going && !s.steered && s.malformed.None?
    ensures var u := Authorizing(t, turn, s);
            && t.events <= u.events && u.requests == t.requests && u.verdict != Completed
            && (u.verdict == Going ==> CallTold(t, u, s) && CallReported(t.events, u.events, turn, s, t.imageCount))
            && (u.verdict == Going <==> OutcomeOf(s, t.imageCount).Some?)
  {
    var proposed := [ToolProposed(turn, s.call.id, s.call.name, s.call.arguments)];
    var asking := AuthorizeOf(s.authorization).0;
    var asked := Emitting(Emitting(t, proposed), asking);
    EmittingTwice(t, proposed, asking);
    var outcome, u := OutcomeOf(s, t.imageCount), Authorizing(t, turn, s);
    match AuthorizeOf(s.authorization).1
    case Err(error) =>
      RefusingTells(asked, s.call, s.refusalText, error);
      if outcome.Some? {
        GivesAfter(t, proposed + asking, u, s.call, REPAIRABLE + s.refusalText,
                   [ToolOutput(s.call.id, s.refusalText), ToolCompleted(s.call.id, false)]);
      }
    case Ok(_) =>
      ExecutingTells(asked, s.call, s.result);
      if outcome.Some? {
        GivesAfter(t, proposed + asking, u, s.call, Words(outcome.value),
                   RunReport(s.call, s.result, t.imageCount, Words(outcome.value)));
      }
  }

  lemma CallingTells(t: Turn, turn: TurnId, s: ScriptedCall)
    requires t.verdict == Going
    ensures var u := Calling(t, turn, s);
            && t.events <= u.events && u.requests == t.requests && u.verdict != Completed
            && (u.verdict == Going ==> CallTold(t, u, s) && CallReported(t.events, u.events, turn, s, t.imageCount))
  {
    var noted := t.(lastCall := Some(Signature(s.call)));
    if s.steered {
      RepairableTells(t, turn, s.call, NOT_RUN);
    } else if t.lastCall == Some(Signature(s.call)) {
    } else if s.malformed.Some? {
      RepairableTells(noted, turn, s.call, s.malformed.value);
    } else {
      AuthorizingTells(noted, turn, s);
    }
  }

  lemma CallSays(t: Turn, turn: TurnId, s: ScriptedCall)
    requires t.verdict == Going
    ensures var u := Calling(t, turn, s);
            && t.events <= u.events && u.requests == t.requests && u.verdict != Completed
            && (u.verdict == Going ==> CallTold(t, u, s))
  {
    CallingTells(t, turn, s);
  }

  lemma CallReports(t: Turn, turn: TurnId, s: ScriptedCall)
    requires t.verdict == Going && Calling(t, turn, s).verdict == Going
    ensures var u := Calling(t, turn, s);
            && CallReported(t.events, u.events, turn, s, t.imageCount)
            && u.imageCount == t.imageCount + ImagesShownBy(s, t.imageCount)
  {
    CallingTells(t, turn, s);
  }

  // ---------- A batch of calls ----------

  lemma FirstAnswer(reply: ChatMessage, replies: seq<ChatMessage>, calls: seq<ScriptedCall>, shown: nat)
    requires calls != [] && Answers(reply, calls[0], shown)
    requires AnswerAll(replies, calls[1..], shown + ImagesShownBy(calls[0], shown))
    ensures AnswerAll([reply] + replies, calls, shown)
  {
    assert ([reply] + replies)[1..] == replies;
  }

  /** The messages a batch has added to a turn. */
  ghost predicate BatchTold(t: Turn, u: Turn, calls: seq<ScriptedCall>) {
    && |u.messages| == |t.messages| + |calls| && t.messages <= u.messages
    && AnswerAll(u.messages[|t.messages|..], calls, t.imageCount)
    && t.observations <= u.observations && ShowAll(u.observations[|t.observations|..], calls, t.imageCount)
    && OnlyTold(t, u)
  }

  lemma NothingCalled(t: Turn)
    ensures BatchTold(t, t, [])
  {
  }

  /** The answer of the first call stands before those of the others. */
  lemma OneAnswered(before: seq<ChatMessage>, first: seq<ChatMessage>, after: seq<ChatMessage>,
                    calls: seq<ScriptedCall>, shown: nat)
    requires calls != [] && |first| == |before| + 1 && before <= first <= after
    requires Answers(first[|before|], calls[0], shown)
    requires AnswerAll(after[|first|..], calls[1..], shown + ImagesShownBy(calls[0], shown))
    ensures AnswerAll(after[|before|..], calls, shown) && before <= after
  {
    assert after[|before|..] == [first[|before|]] + after[|first|..];
    FirstAnswer(first[|before|], after[|first|..], calls, shown);
  }

  lemma FirstShown(view: ChatMessage, views: seq<ChatMessage>, calls: seq<ScriptedCall>, shown: nat)
    requires calls != [] && ImagesShownBy(calls[0], shown) > 0
    requires ShowsImages(view, calls[0].call.id, calls[0].result.images)
    requires ShowAll(views, calls[1..], shown + ImagesShownBy(calls[0], shown))
    ensures ShowAll([view] + views, calls, shown)
  {
    assert ([view] + views)[1..] == views;
  }

  /** So do its images. */
  lemma OneShown(before: seq<ChatMessage>, first: seq<ChatMessage>, after: seq<ChatMessage>,
                 calls: seq<ScriptedCall>, shown: nat)
    requires calls != [] && before <= first <= after
    requires if ImagesShownBy(calls[0], shown) == 0 then first == before
             else |first| == |before| + 1
                  && ShowsImages(first[|before|], calls[0].call.id, calls[0].result.images)
    requires ShowAll(after[|first|..], calls[1..], shown + ImagesShownBy(calls[0], shown))
    ensures before <= after && ShowAll(after[|before|..], calls, shown)
  {
    if ImagesShownBy(calls[0], shown) > 0 {
      assert after[|before|..] == [first[|before|]] + after[|first|..];
      FirstShown(first[|before|], after[|first|..], calls, shown);
    }
  }

  lemma OneCalled(t: Turn, v: Turn, u: Turn, calls: seq<ScriptedCall>)
    requires calls != [] && CallTold(t, v, calls[0]) && BatchTold(v, u, calls[1..])
    ensures BatchTold(t, u, calls)
  {
    assert v.imageCount == t.imageCount + ImagesShownBy(calls[0], t.imageCount);
    OneAnswered(t.messages, v.messages, u.messages, calls, t.imageCount);
    OneShown(t.observations, v.observations, u.observations, calls, t.imageCount);
  }

  lemma {:induction false} BatchTells(t: Turn, turn: TurnId, calls: seq<ScriptedCall>)
    ensures var u := CallingAll(t, turn, calls);
            && t.events <= u.events && u.requests == t.requests
            && (u.verdict == Going ==> BatchTold(t, u, calls))
            && (u.verdict == Completed ==> t.verdict == Completed)
    decreases |calls|
  {
    if calls == [] || t.verdict != Going {
      NothingCalled(t);
    } else {
      var v := Calling(t, turn, calls[0]);
      CallSays(t, turn, calls[0]);
      BatchTells(v, turn, calls[1..]);
      if CallingAll(v, turn, calls[1..]).verdict == Going {
        OneCalled(t, v, CallingAll(v, turn, calls[1..]), calls);
      }
    }
  }

  /** What a batch has added to the journal. */
  predicate BatchReported(before: seq<AppEvent>, after: seq<AppEvent>, turn: TurnId, calls: seq<ScriptedCall>,
                          shown: nat)
  {
    AllAnswered(calls, shown) && after == before + BatchReport(turn, calls, shown)
  }

  lemma OneReported(before: seq<AppEvent>, first: seq<AppEvent>, after: seq<AppEvent>, turn: TurnId,
                    calls: seq<ScriptedCall>, shown: nat)
    requires calls != [] && CallReported(before, first, turn, calls[0], shown)
    requires BatchReported(first, after, turn, calls[1..], shown + ImagesShownBy(calls[0], shown))
    ensures BatchReported(before, after, turn, calls, shown)
  {
    Joined(before, CallReport(turn, calls[0], shown),
           BatchReport(turn, calls[1..], shown + ImagesShownBy(calls[0], shown)));
  }

  lemma FirstReports(t: Turn, turn: TurnId, calls: seq<ScriptedCall>, after: seq<AppEvent>)
    requires calls != [] && t.verdict == Going && Calling(t, turn, calls[0]).verdict == Going
    requires var v := Calling(t, turn, calls[0]); BatchReported(v.events, after, turn, calls[1..], v.imageCount)
    ensures BatchReported(t.events, after, turn, calls, t.imageCount)
  {
    CallReports(t, turn, calls[0]);
    OneReported(t.events, Calling(t, turn, calls[0]).events, after, turn, calls, t.imageCount);
  }

  /** A batch that did not end the turn went on after its first call. */
  lemma GoesOn(t: Turn, turn: TurnId, calls: seq<ScriptedCall>)
    requires calls != [] && t.verdict == Going && CallingAll(t, turn, calls).verdict == Going
    ensures var v := Calling(t, turn, calls[0]);
            v.verdict == Going && CallingAll(t, turn, calls) == CallingAll(v, turn, calls[1..])
  {
  }

  lemma {:induction false} BatchReports(t: Turn, turn: TurnId, calls: seq<ScriptedCall>)
    requires t.verdict == Going && CallingAll(t, turn, calls).verdict == Going
    ensures BatchReported(t.events, CallingAll(t, turn, calls).events, turn, calls, t.imageCount)
    decreases |calls|
  {
    if calls != [] {
      GoesOn(t, turn, calls);
      BatchReports(Calling(t, turn, calls[0]), turn, calls[1..]);
      FirstReports(t, turn, calls, CallingAll(t, turn, calls).events);
    }
  }

  // ---------- A reply ----------

  function SaidMessage(r: ModelReply): ChatMessage
    requires r.Says?
  {
    TextMessage(Assistant, r.text).(reasoning := r.reasoning, toolCalls := CallsOf(r.calls))
  }

  /** What a reply that did not end the turn has told. */
  ghost predicate ReplyTold(t: Turn, u: Turn, r: ModelReply) {
    AddsReply(t.messages, u.messages, r) && u.requests == t.requests
  }

  lemma BatchRepliedTells(t: Turn, turn: TurnId, r: ModelReply)
    requires r.Says? && r.calls != [] && t.verdict == Going
    ensures var u := Replied(t, turn, r);
            && u.requests == t.requests && u.verdict != Completed
            && (u.verdict == Going ==> ReplyTold(t, u, r))
  {
    var said := Pushing(Emitting(t, r.stream), [SaidMessage(r)]);
    var calling := said.(observations := [], imageCount := CountImages(said.messages));
    var called := CallingAll(calling, turn, r.calls);
    BatchTells(calling, turn, r.calls);
    if called.verdict == Going {
      CountsImages(said.messages);
      assert said.messages[..|said.messages| - 1] == t.messages;
      var after, n := called.messages + called.observations, |t.messages| + 1;
      assert Replied(t, turn, r).messages == after;
      assert after[n..n + |r.calls|] == called.messages[n..];
      assert after[n + |r.calls|..] == called.observations == called.observations[0..];
    }
  }

  lemma BatchRepliedReports(t: Turn, turn: TurnId, r: ModelReply)
    requires r.Says? && r.calls != [] && t.verdict == Going
    ensures var u := Replied(t, turn, r);
            && t.events + r.stream <= u.events && u.requests == t.requests
            && (u.verdict == Going ==>
                  BatchReported(t.events + r.stream, u.events, turn, r.calls, ImagesIn(t.messages)))
  {
    var said := Pushing(Emitting(t, r.stream), [SaidMessage(r)]);
    var calling := said.(observations := [], imageCount := CountImages(said.messages));
    BatchTells(calling, turn, r.calls);
    if CallingAll(calling, turn, r.calls).verdict == Going {
      CountsImages(said.messages);
      assert said.messages[..|said.messages| - 1] == t.messages;
      BatchReports(calling, turn, r.calls);
    }
  }

  lemma ClosedTells(t: Turn, turn: TurnId, r: ModelReply)
    requires r.Says? && r.calls == [] && t.verdict == Going && t.messages != []
    ensures var u := Replied(t, turn, r);
            && u.requests == t.requests && (u.verdict == Going ==> ReplyTold(t, u, r))
            && (u.verdict == Completed ==>
                  && !r.closing.pendingBefore && !r.closing.pendingAfter
                  && u.saved == t.saved + [u.messages]
                  && AddsClosing(t.messages, u.messages, r.text, r.reasoning, r.closing))
  {
    var said := Pushing(Emitting(t, r.stream), [SaidMessage(r)]);
    if r.closing.compacting.Compacts? {
      CompactedHistoryTells(SystemText(said.messages), r.closing.compacting.summary);
      assert SystemText(said.messages) == t.messages[0].content;
    }
  }

  lemma PartialTells(t: Turn, turn: TurnId, r: ModelReply)
    requires r.ProviderFails?
    ensures var u := Replied(t, turn, r);
            && u.verdict == Failed(r.error) && u.requests == t.requests && u.saved == t.saved + [u.messages]
            && AddsPartial(t.messages, u.messages, r.streamedText)
  {
  }

  /** A turn that the user declined: the batch so far, an answer that it was declined for every
      open call, and the note. */
  ghost predicate AddsDeclined(before: seq<ChatMessage>, after: seq<ChatMessage>, open: nat) {
    && |after| == |before| + open + 1 && before <= after && after[|after| - 1] == INTERRUPTION
    && forall k | |before| <= k < |after| - 1 :: SaysDeclined(after[k])
  }

  ghost predicate SaysDeclined(m: ChatMessage) {
    exists call: ToolCall :: SaysOutput(m, call.id, call.name, REPAIRABLE + "Not executed: declined.")
  }

  lemma {:induction false} ErrorsTell(calls: seq<ToolCall>)
    ensures forall k | 0 <= k < |calls| :: SaysDeclined(ToolErrors(calls, DECLINED)[k])
  {
    if calls != [] {
      ErrorsTell(calls[..|calls| - 1]);
      ToolErrorTells(calls[|calls| - 1], DECLINED);
    }
  }

  /** Declining stores the list with an answer for every open call and the note, and stops. */
  lemma DecliningTells(t: Turn)
    ensures var u := Declining(t);
            && u.verdict == Failed(Cancelled) && u.saved == t.saved + [u.messages]
            && AddsDeclined(t.messages, u.messages, |OpenCalls(t.messages)|)
  {
    var open := OpenCalls(t.messages);
    ErrorsTell(open);
    var errors := ToolErrors(open, DECLINED);
    assert Declining(t).messages == t.messages + errors + [INTERRUPTED];
    forall k | |t.messages| <= k < |t.messages| + |open|
      ensures SaysDeclined(Declining(t).messages[k])
    {
      assert Declining(t).messages[k] == errors[k - |t.messages|];
    }
  }

  /** A no of the user, or an abandoned wait, stops the turn: nothing runs, the call gets its
      output, and the list is stored with an answer for every open call and the note. */
  lemma DeclinedCallStops(t: Turn, turn: TurnId, s: ScriptedCall)
    requires !s.steered && s.malformed.None? && t.lastCall != Some(Signature(s.call)) && t.verdict == Going
    requires AuthorizeOf(s.authorization).1 in {Err(ApprovalDeclined), Err(Cancelled)}
    ensures var u := Calling(t, turn, s);
            && u.verdict == Failed(Cancelled) && u.saved == t.saved + [u.messages] && u.requests == t.requests
            && AddsDeclined(t.messages, u.messages, |OpenCalls(t.messages)|)
            && u.events == t.events + [ToolProposed(turn, s.call.id, s.call.name, s.call.arguments)]
                           + AuthorizeOf(s.authorization).0 + [ToolOutput(s.call.id, s.refusalText)]
  {
    var noted := t.(lastCall := Some(Signature(s.call)));
    var proposed := Emitting(noted, [ToolProposed(turn, s.call.id, s.call.name, s.call.arguments)]);
    var asked := Emitting(proposed, AuthorizeOf(s.authorization).0);
    DecliningTells(Emitting(asked, [ToolOutput(s.call.id, s.refusalText)]));
  }

  // ---------- The turn ----------

  /** Everything a turn has sent so far follows from its script. */
  ghost predicate SentAll(history: seq<ChatMessage>, prompt: ChatMessage, c: Compacting, steps: seq<Step>,
                          requests: seq<seq<ChatMessage>>)
  {
    && |requests| <= |steps|
    && (requests != [] ==> SendsFirst(history, prompt, c, steps[0], requests[0]))
    && forall i | 0 <= i < |requests| - 1 :: LeadsTo(requests[i], steps[i].reply, steps[i + 1], requests[i + 1])
  }

  /** The list a turn that goes on holds, by its last request. */
  ghost predicate HoldsList(history: seq<ChatMessage>, prompt: ChatMessage, c: Compacting, steps: seq<Step>, t: Turn) {
    && |t.requests| == |steps| && t.messages != []
    && if t.requests == [] then Opens(history, prompt, c, t.messages)
       else AddsReply(t.requests[|t.requests| - 1], t.messages, steps[|t.requests| - 1].reply)
  }

  /** What a turn has stored that was completed, whose provider failed, or that never began. */
  ghost predicate StoresLast(history: seq<ChatMessage>, prompt: ChatMessage, c: Compacting, steps: seq<Step>, t: Turn) {
    var n := |t.requests|;
    && (|history| > 1 && c.CompactionFails? ==> n == 0 && t.saved == [history + [prompt, INTERRUPTION]])
    && (t.verdict == Completed ==>
          && 0 < n <= |steps| && steps[n - 1].reply.Says? && steps[n - 1].reply.calls == [] && t.saved != []
          && AddsClosing(t.requests[n - 1], t.saved[|t.saved| - 1], steps[n - 1].reply.text,
                         steps[n - 1].reply.reasoning, steps[n - 1].reply.closing))
    && (0 < n <= |steps| && steps[n - 1].reply.ProviderFails? ==>
          && t.saved != []
          && AddsPartial(t.requests[n - 1], t.saved[|t.saved| - 1], steps[n - 1].reply.streamedText))
  }

  ghost predicate Tells(history: seq<ChatMessage>, prompt: ChatMessage, c: Compacting, steps: seq<Step>, t: Turn) {
    && SentAll(history, prompt, c, steps, t.requests)
    && (t.verdict == Going ==> HoldsList(history, prompt, c, steps, t))
    && StoresLast(history, prompt, c, steps, t)
  }

  lemma OpeningTells(history: seq<ChatMessage>, prompt: ChatMessage, c: Compacting)
    ensures Tells(history, prompt, c, [], Opening(history, prompt, c))
  {
    if |history| > 1 && c.Compacts? {
      CompactedHistoryTells(SystemText(history), c.summary);
      var list := Opening(history, prompt, c).messages;
      assert list[..2] == CompactedHistory(SystemText(history), c.summary);
    }
  }

  function SteeringReport(turn: TurnId, inputs: seq<Steering>): seq<AppEvent> {
    seq(|inputs|, k requires 0 <= k < |inputs| => SteeringApplied(turn, inputs[k].itemId, inputs[k].text))
  }

  lemma SteeredTells(t: Turn, turn: TurnId, inputs: seq<Steering>)
    ensures var u := Steered(t, turn, inputs);
            && AddsSteering(t.messages, u.messages, inputs)
            && u.requests == t.requests && u.saved == t.saved && u.verdict == t.verdict
            && u.events == t.events + SteeringReport(turn, inputs)
  {
    assert SteeringEvents(turn, inputs) == SteeringReport(turn, inputs);
  }

  /** What a step makes of the list before its request. */
  lemma CompactedTells(t: Turn, c: Compacting)
    requires t.verdict == Going && MidTurn(t, c).verdict == Going && t.messages != []
    ensures var u := MidTurn(t, c);
            && u.requests == t.requests && u.messages != []
            && if t.requests != [] && c.Compacts? && |t.messages| > 1
               then && |u.messages| == 3 && StandsFor(u.messages[..2], t.messages[0].content, c.summary)
                    && u.messages[2] == ChatMessage(User, "[CONTINUATION]", [], [], None, None, [])
               else u.messages == t.messages
  {
    if t.requests != [] && c.Compacts? && |t.messages| > 1 {
      CompactedHistoryTells(SystemText(t.messages), c.summary);
      assert MidTurn(t, c).messages[..2] == CompactedHistory(SystemText(t.messages), c.summary);
    }
  }

  /** Steps that are not taken change nothing of what was sent and stored. */
  lemma MoreSteps(history: seq<ChatMessage>, prompt: ChatMessage, c: Compacting, steps: seq<Step>, more: seq<Step>,
                  t: Turn)
    requires Tells(history, prompt, c, steps, t)
    ensures SentAll(history, prompt, c, steps + more, t.requests)
    ensures t.verdict != Going ==> Tells(history, prompt, c, steps + more, t)
  {
    assert forall i | 0 <= i < |steps| :: (steps + more)[i] == steps[i];
  }

  /** A step that ends the turn before its request. */
  lemma StopTells(history: seq<ChatMessage>, prompt: ChatMessage, c: Compacting, steps: seq<Step>, t: Turn, s: Step,
                  u: Turn)
    requires Tells(history, prompt, c, steps, t) && t.verdict == Going
    requires u.requests == t.requests && u.verdict.Failed?
    ensures Tells(history, prompt, c, steps + [s], u)
  {
    MoreSteps(history, prompt, c, steps, [s], t);
    var n := |t.requests|;
    assert n > 0 ==> (steps + [s])[n - 1] == steps[n - 1] && steps[n - 1].reply.Says?;
  }

  /** What is sent next follows from the list the turn holds. */
  lemma RequestFollows(history: seq<ChatMessage>, prompt: ChatMessage, c: Compacting, steps: seq<Step>, t: Turn,
                       turn: TurnId, s: Step)
    requires Tells(history, prompt, c, steps, t) && t.verdict == Going
    requires MidTurn(t, s.compacting).verdict == Going
    ensures var request := Steered(MidTurn(t, s.compacting), turn, s.steering).messages;
            && request != []
            && SentAll(history, prompt, c, steps + [s], t.requests + [request])
  {
    var compacted := MidTurn(t, s.compacting);
    var request := Steered(compacted, turn, s.steering).messages;
    CompactedTells(t, s.compacting);
    SteeredTells(compacted, turn, s.steering);
    var all, n, requests := steps + [s], |steps|, t.requests + [request];
    assert forall i | 0 <= i < n :: all[i] == steps[i] && requests[i] == t.requests[i];
    assert all[n] == s && requests[n] == request;
    if n == 0 {
      assert Opens(history, prompt, c, t.messages) && AddsSteering(t.messages, request, s.steering);
    } else {
      SendsNext(t.messages, compacted.messages, s, request);
      assert AddsReply(t.requests[n - 1], t.messages, steps[n - 1].reply);
      assert LeadsTo(requests[n - 1], all[n - 1].reply, all[n], requests[n]);
      assert SendsFirst(history, prompt, c, all[0], requests[0]);
    }
  }

  lemma SendsNext(list: seq<ChatMessage>, compacted: seq<ChatMessage>, s: Step, request: seq<ChatMessage>)
    requires AddsSteering(compacted, request, s.steering)
    requires if s.compacting.Compacts? && |list| > 1
             then && |compacted| == 3 && StandsFor(compacted[..2], list[0].content, s.compacting.summary)
                  && compacted[2] == ChatMessage(User, "[CONTINUATION]", [], [], None, None, [])
             else compacted == list
    ensures Sends(list, s, request)
  {
    if s.compacting.Compacts? && |list| > 1 {
      assert request[..3] == compacted && request[..2] == compacted[..2];
    }
  }

  lemma RequestedTells(history: seq<ChatMessage>, prompt: ChatMessage, c: Compacting, steps: seq<Step>, t: Turn,
                       turn: TurnId, s: Step)
    requires SentAll(history, prompt, c, steps + [s], t.requests + [t.messages]) && t.messages != []
    requires |t.requests| == |steps| && t.verdict == Going && (|history| > 1 ==> !c.CompactionFails?)
    ensures Tells(history, prompt, c, steps + [s], Replied(t.(requests := t.requests + [t.messages]), turn, s.reply))
  {
    var sent := t.(requests := t.requests + [t.messages]);
    assert (steps + [s])[|steps|] == s && sent.requests[|steps|] == t.messages;
    match s.reply
    case ProviderFails(_, _, _) => PartialTells(sent, turn, s.reply);
    case Says(_, _, _, calls, _) =>
      if calls == [] {
        ClosedTells(sent, turn, s.reply);
      } else {
        BatchRepliedTells(sent, turn, s.reply);
      }
  }

  lemma StepTells(history: seq<ChatMessage>, prompt: ChatMessage, c: Compacting, steps: seq<Step>, t: Turn,
                  turn: TurnId, s: Step)
    requires Tells(history, prompt, c, steps, t) && t.verdict == Going
    ensures Tells(history, prompt, c, steps + [s], Stepping(t, turn, s))
  {
    var compacted := MidTurn(t, s.compacting);
    if s.halt.Some? || compacted.verdict != Going {
      StopTells(history, prompt, c, steps, t, s, Stepping(t, turn, s));
    } else {
      var steered := Steered(compacted, turn, s.steering);
      CompactedTells(t, s.compacting);
      SteeredTells(compacted, turn, s.steering);
      if s.overBudget.Some? {
        StopTells(history, prompt, c, steps, t, s, Stepping(t, turn, s));
      } else {
        RequestFollows(history, prompt, c, steps, t, turn, s);
        RequestedTells(history, prompt, c, steps, steered, turn, s);
      }
    }
  }

  lemma {:induction false} StepsTell(history: seq<ChatMessage>, prompt: ChatMessage, c: Compacting, before: seq<Step>,
                                     t: Turn, turn: TurnId, steps: seq<Step>, all: seq<Step>)
    requires Tells(history, prompt, c, before, t) && all == before + steps
    ensures Tells(history, prompt, c, all, SteppingAll(t, turn, steps))
    decreases |steps|
  {
    if steps == [] {
      assert all == before;
    } else if t.verdict != Going {
      MoreSteps(history, prompt, c, before, steps, t);
    } else {
      StepTells(history, prompt, c, before, t, turn, steps[0]);
      assert before + [steps[0]] + steps[1..] == all;
      StepsTell(history, prompt, c, before + [steps[0]], Stepping(t, turn, steps[0]), turn, steps[1..], all);
    }
  }

  /**
   What a turn sends, for every script. The first request is the history, or what a compaction
   made of it, then the prompt, then the steering that has come. Each later request is the one
   before, then the message of the reply, one answer for each call with what that call gave, the
   images they show, and the steering; unless a compaction lies between. A completed turn stores
   its last request with the reply, one whose provider failed with what it had streamed.
   */
  lemma TurnTells(history: seq<ChatMessage>, prompt: ChatMessage, turn: TurnId, c: Compacting, steps: seq<Step>)
    ensures Tells(history, prompt, c, steps, TurnOf(history, prompt, turn, c, steps))
  {
    OpeningTells(history, prompt, c);
    assert [] + steps == steps;
    StepsTell(history, prompt, c, [], Opening(history, prompt, c), turn, steps, steps);
  }

  // ---------- The journal of a turn ----------

  predicate PartAt(events: seq<AppEvent>, part: seq<AppEvent>, k: int) {
    0 <= k <= |events| - |part| && events[k..k + |part|] == part
  }

  predicate BatchAnswered(s: Step, shown: nat) {
    s.reply.Says? ==> AllAnswered(s.reply.calls, shown)
  }

  /** What a step that sent its request journals in one piece: its steering, what the provider
      streamed, and, unless the turn ended in it, every call of the batch. */
  function StepReport(turn: TurnId, s: Step, shown: nat, finished: bool): seq<AppEvent>
    requires finished ==> BatchAnswered(s, shown)
  {
    SteeringReport(turn, s.steering) + s.reply.stream
    + if finished && s.reply.Says? then BatchReport(turn, s.reply.calls, shown) else []
  }

  ghost predicate StepJournaled(events: seq<AppEvent>, turn: TurnId, s: Step, shown: nat, finished: bool) {
    && (finished ==> BatchAnswered(s, shown))
    && exists k :: PartAt(events, StepReport(turn, s, shown, finished), k)
  }

  /** Every step that sent a request is journaled, all but the last with every call. */
  ghost predicate Journaled(turn: TurnId, steps: seq<Step>, t: Turn) {
    && |t.requests| <= |steps| && (t.verdict == Going ==> |t.requests| == |steps|)
    && forall i | 0 <= i < |t.requests| ::
         StepJournaled(t.events, turn, steps[i], ImagesIn(t.requests[i]), i < |t.requests| - 1 || t.verdict == Going)
  }

  lemma PartStays(events: seq<AppEvent>, part: seq<AppEvent>, more: seq<AppEvent>, less: seq<AppEvent>, k: int)
    requires PartAt(events, part, k) && events <= more && less <= part
    ensures PartAt(more, less, k)
  {
    assert more[k..k + |less|] == events[k..k + |part|][..|less|];
  }

  lemma StepStaysJournaled(events: seq<AppEvent>, more: seq<AppEvent>, turn: TurnId, s: Step, shown: nat,
                           finished: bool)
    requires StepJournaled(events, turn, s, shown, true) && events <= more
    ensures StepJournaled(more, turn, s, shown, finished)
  {
    var part := StepReport(turn, s, shown, true);
    var k :| PartAt(events, part, k);
    PartStays(events, part, more, StepReport(turn, s, shown, finished), k);
  }

  /** A turn that has gone on, with the same requests or one more. */
  lemma StaysJournaled(turn: TurnId, steps: seq<Step>, t: Turn, s: Step, u: Turn)
    requires Journaled(turn, steps, t) && t.verdict == Going && t.events <= u.events
    requires || (u.requests == t.requests && u.verdict != Going)
             || (&& |u.requests| == |t.requests| + 1 && t.requests <= u.requests
                 && StepJournaled(u.events, turn, s, ImagesIn(u.requests[|t.requests|]), u.verdict == Going))
    ensures Journaled(turn, steps + [s], u)
  {
    var n := |steps|;
    forall i | 0 <= i < n
      ensures (steps + [s])[i] == steps[i]
      ensures StepJournaled(u.events, turn, steps[i], ImagesIn(u.requests[i]),
                            i < |u.requests| - 1 || u.verdict == Going)
    {
      StepStaysJournaled(t.events, u.events, turn, steps[i], ImagesIn(t.requests[i]),
                         i < |u.requests| - 1 || u.verdict == Going);
    }
  }

  lemma RepliedJournals(t: Turn, turn: TurnId, r: ModelReply)
    requires t.verdict == Going && t.messages != []
    ensures var u := Replied(t, turn, r);
            && u.requests == t.requests && t.events + r.stream <= u.events
            && (u.verdict == Going && r.Says? ==>
                  && AllAnswered(r.calls, ImagesIn(t.messages))
                  && t.events + r.stream + BatchReport(turn, r.calls, ImagesIn(t.messages)) <= u.events)
  {
    match r
    case ProviderFails(_, _, _) =>
    case Says(_, _, _, calls, _) =>
      var said := Pushing(Emitting(t, r.stream), [SaidMessage(r)]);
      if calls == [] {
        ClosedTells(t, turn, r);
        ClosingGrows(said, turn, r.closing);
      } else {
        BatchRepliedReports(t, turn, r);
      }
  }

  lemma ClosingGrows(t: Turn, turn: TurnId, c: Closing)
    ensures t.events <= ClosedBy(t, turn, c).events
  {
  }

  lemma MidTurnGrows(t: Turn, c: Compacting)
    ensures t.events <= MidTurn(t, c).events && MidTurn(t, c).requests == t.requests
    ensures t.messages != [] ==> MidTurn(t, c).messages != []
  {
  }

  /** A step that sends its request. */
  lemma SentJournals(t: Turn, turn: TurnId, s: Step)
    requires t.verdict == Going && t.messages != [] && s.halt.None? && s.overBudget.None?
    requires MidTurn(t, s.compacting).verdict == Going
    ensures var u := Stepping(t, turn, s);
            && t.events <= u.events && |u.requests| == |t.requests| + 1 && t.requests <= u.requests
            && StepJournaled(u.events, turn, s, ImagesIn(u.requests[|t.requests|]), u.verdict == Going)
            && (u.verdict == Going ==> u.messages != [])
  {
    var compacted := MidTurn(t, s.compacting);
    var steered := Steered(compacted, turn, s.steering);
    MidTurnGrows(t, s.compacting);
    SteeredTells(compacted, turn, s.steering);
    var sent := steered.(requests := steered.requests + [steered.messages]);
    var u, shown := Replied(sent, turn, s.reply), ImagesIn(steered.messages);
    RepliedJournals(sent, turn, s.reply);
    if u.verdict == Going {
      GoingHolds(sent, turn, s.reply);
    }
    StepIsJournaled(compacted.events, sent.events, u.events, turn, s, shown, u.verdict == Going);
  }

  lemma StepIsJournaled(before: seq<AppEvent>, steered: seq<AppEvent>, after: seq<AppEvent>, turn: TurnId, s: Step,
                        shown: nat, finished: bool)
    requires steered == before + SteeringReport(turn, s.steering) && steered + s.reply.stream <= after
    requires finished && s.reply.Says? ==>
               && AllAnswered(s.reply.calls, shown)
               && steered + s.reply.stream + BatchReport(turn, s.reply.calls, shown) <= after
    ensures StepJournaled(after, turn, s, shown, finished)
  {
    var calls := if finished && s.reply.Says? then BatchReport(turn, s.reply.calls, shown) else [];
    PartOf(before, SteeringReport(turn, s.steering), s.reply.stream, calls, after);
    assert PartAt(after, StepReport(turn, s, shown, finished), |before|);
  }

  lemma PartOf(before: seq<AppEvent>, a: seq<AppEvent>, b: seq<AppEvent>, c: seq<AppEvent>, after: seq<AppEvent>)
    requires before + a + b + c <= after
    ensures PartAt(after, a + b + c, |before|)
  {
    assert before + a + b + c == before + (a + b + c);
    assert after[|before|..|before| + |a + b + c|] == (before + (a + b + c))[|before|..];
  }

  lemma StepJournals(turn: TurnId, steps: seq<Step>, t: Turn, s: Step)
    requires Journaled(turn, steps, t) && t.verdict == Going && t.messages != []
    ensures Journaled(turn, steps + [s], Stepping(t, turn, s))
    ensures Stepping(t, turn, s).verdict == Going ==> Stepping(t, turn, s).messages != []
  {
    var compacted := MidTurn(t, s.compacting);
    MidTurnGrows(t, s.compacting);
    if s.halt.None? && compacted.verdict == Going {
      SteeredTells(compacted, turn, s.steering);
      if s.overBudget.None? {
        SentJournals(t, turn, s);
      }
    }
    StaysJournaled(turn, steps, t, s, Stepping(t, turn, s));
  }

  lemma GoingHolds(t: Turn, turn: TurnId, r: ModelReply)
    requires t.verdict == Going && t.messages != [] && Replied(t, turn, r).verdict == Going
    ensures Replied(t, turn, r).messages != []
  {
    if r.Says? && r.calls != [] {
      BatchRepliedTells(t, turn, r);
    }
  }

  lemma {:induction false} StepsJournal(turn: TurnId, before: seq<Step>, t: Turn, steps: seq<Step>)
    requires Journaled(turn, before, t) && (t.verdict == Going ==> t.messages != [])
    ensures Journaled(turn, before + steps, SteppingAll(t, turn, steps))
    decreases |steps|
  {
    if steps == [] {
      assert before + steps == before;
    } else if t.verdict != Going {
      assert forall i | 0 <= i < |before| :: (before + steps)[i] == before[i];
      assert SteppingAll(t, turn, steps) == t;
    } else {
      StepJournals(turn, before, t, steps[0]);
      StepsJournal(turn, before + [steps[0]], Stepping(t, turn, steps[0]), steps[1..]);
      assert before + [steps[0]] + steps[1..] == before + steps;
    }
  }

  /**
   What a turn journals, for every script: of every request it sent, in one piece, the steering,
   everything the provider streamed, and, unless the turn ended there, for each call in order its
   proposal, what was asked, the start and what it reported, the very words the model was given,
   whether it succeeded, and what it changed.
   */
  lemma TurnJournals(history: seq<ChatMessage>, prompt: ChatMessage, turn: TurnId, c: Compacting, steps: seq<Step>)
    ensures Journaled(turn, steps, TurnOf(history, prompt, turn, c, steps))
  {
    StepsJournal(turn, [], Opening(history, prompt, c), steps);
    assert [] + steps == steps;
  }
}
