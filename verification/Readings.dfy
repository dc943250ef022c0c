/**
 When a restored conversation answers every tool call. A journal is read event by event for the
 calls it has proposed and not yet answered; the reading says exactly whether the conversation
 that the journal restores is paired.
 */
module Readings {
  import opened Prelude
  import opened Vocabulary
  import opened Chat
  import opened Pairing
  import opened History

  /** What a journal has proposed and not answered (None when something came in between), whether
      the assistant spoke last, and which proposed calls will show an image. */
  datatype Reading = Reading(waiting: Option<seq<string>>, speaking: bool, viewed: set<string>)

  const NOTHING_READ := Reading(Some([]), false, {})

  /** A message that answers no call may come only when none waits. */
  function Heard(s: Reading, speaking: bool): Reading {
    s.(waiting := if s.waiting == Some([]) then Some([]) else None, speaking := speaking)
  }

  function Proposed(s: Reading, callId: string): Reading {
    s.(waiting := if s.waiting.Some? && (s.speaking || s.waiting.value == [])
                  then Some(s.waiting.value + [callId]) else None,
       speaking := true)
  }

  function Output(s: Reading, callId: string): Reading {
    s.(waiting := if s.waiting.Some? && s.waiting.value != [] && s.waiting.value[0] == callId
                  then Some(s.waiting.value[1..]) else None,
       speaking := false)
  }

  function Read(s: Reading, e: AppEvent): Reading {
    match e
    case PromptAccepted(_, _, _) => Heard(s, false)
    case SteeringApplied(_, _, _) => Heard(s, false)
    case TextDelta(_, _) => Heard(s, true)
    case ReasoningDelta(_, _) => Heard(s, true)
    case ToolProposed(_, callId, name, _) =>
      Proposed(s, callId).(viewed := if name == VIEW_IMAGE then s.viewed + {callId} else s.viewed)
    case ToolOutput(callId, _) => Output(s, callId)
    case ToolCompleted(callId, success) =>
      (if callId in s.viewed && success then Heard(s, false) else s).(viewed := s.viewed - {callId})
    case TurnCancelled(_) => Heard(s, false)
    case ErrorRaised(Some(_), _) => Heard(s, false)
    case ContextCompacted(_, _) => NOTHING_READ
    case _ => s
  }

  function ReadAll(s: Reading, events: seq<AppEvent>): Reading
    decreases |events|
  {
    if events == [] then s else ReadAll(Read(s, events[0]), events[1..])
  }

  lemma {:induction false} ReadConcat(s: Reading, a: seq<AppEvent>, b: seq<AppEvent>)
    ensures ReadAll(s, a + b) == ReadAll(ReadAll(s, a), b)
    decreases |a|
  {
    if a == [] {
      assert a + b == b;
    } else {
      assert (a + b)[0] == a[0] && (a + b)[1..] == a[1..] + b;
      ReadConcat(Read(s, a[0]), a[1..], b);
    }
  }

  // ---------- The reading of a replay ----------

  /** Messages as a replay makes them. */
  predicate WellMade(m: ChatMessage) {
    && (m.role == Role.Tool ==> m.toolCalls == [])
    && (m.role != Role.Tool ==> m.toolCallId == None)
    && (m.role != Assistant ==> m.toolCalls == [])
  }

  predicate AllWellMade(messages: seq<ChatMessage>) {
    forall i | 0 <= i < |messages| :: WellMade(messages[i])
  }

  predicate SpeaksLast(messages: seq<ChatMessage>) {
    messages != [] && messages[|messages| - 1].role == Assistant
  }

  /** The reading matches the messages. */
  predicate Matches(s: Reading, messages: seq<ChatMessage>) {
    && messages != [] && AllWellMade(messages)
    && s.waiting == Awaiting(messages) && s.speaking == SpeaksLast(messages)
  }

  lemma PushMatches(s: Reading, messages: seq<ChatMessage>, m: ChatMessage)
    requires Matches(s, messages) && WellMade(m)
    ensures m.role != Role.Tool && m.toolCalls == [] ==> Matches(Heard(s, m.role == Assistant), messages + [m])
    ensures m.role == Role.Tool && m.toolCallId.Some? ==> Matches(Output(s, m.toolCallId.value), messages + [m])
    ensures m.role == Assistant && |m.toolCalls| == 1 && !s.speaking ==>
              Matches(Proposed(s, m.toolCalls[0].id), messages + [m])
  {
    PushAwaits(messages, m);
    if |m.toolCalls| == 1 {
      assert CallIds(m.toolCalls) == [] + [m.toolCalls[0].id];
    }
  }

  lemma OnLastAwaits(messages: seq<ChatMessage>, m: ChatMessage)
    requires messages != []
    ensures Awaiting(OnLast(messages, m))
            == match Awaiting(messages[..|messages| - 1])
               case None => None
               case Some(waiting) => AwaitAfter(waiting, m)
  {
    assert OnLast(messages, m)[..|messages| - 1] == messages[..|messages| - 1];
  }

  lemma AddCallMatches(s: Reading, messages: seq<ChatMessage>, call: ToolCall)
    requires Matches(s, messages)
    ensures Matches(Proposed(s, call.id), AddCall(messages, call))
  {
    if SpeaksLast(messages) {
      var last := messages[|messages| - 1];
      var longer := last.(toolCalls := last.toolCalls + [call]);
      OnLastAwaits(messages, longer);
      assert CallIds(longer.toolCalls) == CallIds(last.toolCalls) + [call.id];
      assert CallIds([]) == [];
    } else {
      PushMatches(s, messages, TextMessage(Assistant, "").(toolCalls := [call]));
    }
  }

  lemma RespeakMatches(s: Reading, messages: seq<ChatMessage>, m: ChatMessage)
    requires Matches(s, messages) && Continues(messages) && m.role == Assistant && m.toolCalls == [] && WellMade(m)
    ensures Matches(Heard(s, true), OnLast(messages, m))
  {
    OnLastAwaits(messages, m);
  }

  lemma AddTextMatches(s: Reading, messages: seq<ChatMessage>, text: string)
    requires Matches(s, messages)
    ensures Matches(Heard(s, true), AddText(messages, text))
  {
    if Continues(messages) {
      var last := messages[|messages| - 1];
      RespeakMatches(s, messages, last.(content := last.content + text));
    } else {
      PushMatches(s, messages, TextMessage(Assistant, text));
    }
  }

  lemma AddReasoningMatches(s: Reading, messages: seq<ChatMessage>, text: string)
    requires Matches(s, messages)
    ensures Matches(Heard(s, true), AddReasoning(messages, text))
  {
    if Continues(messages) {
      var last := messages[|messages| - 1];
      var spoken := (if last.reasoning.Some? then last.reasoning.value else "") + text;
      RespeakMatches(s, messages, last.(reasoning := Some(spoken)));
    } else {
      PushMatches(s, messages, TextMessage(Assistant, "").(reasoning := Some(text)));
    }
  }

  /** The reading keeps the marks of a replay as well. */
  predicate Follows(s: Reading, r: Replay) {
    Matches(s, r.messages) && s.viewed == r.viewed.Keys
  }

  lemma PushedFollows(s: Reading, r: Replay, e: AppEvent)
    requires Matches(s, r.messages)
    requires e.PromptAccepted? || e.SteeringApplied? || e.TurnCancelled? || e.ErrorRaised?
    ensures Matches(Read(s, e), Spoken(r.messages, r.toolNames, e))
  {
    match e
    case PromptAccepted(_, text, attachments) => PushMatches(s, r.messages, UserMessage(text, attachments));
    case SteeringApplied(_, _, text) => PushMatches(s, r.messages, TextMessage(User, text));
    case TurnCancelled(_) => PushMatches(s, r.messages, INTERRUPTED);
    case ErrorRaised(_, _) => PushMatches(s, r.messages, INTERRUPTED);
  }

  lemma SpokenFollows(s: Reading, r: Replay, e: AppEvent)
    requires Matches(s, r.messages) && !e.ToolCompleted? && !e.ContextCompacted?
    ensures Matches(Read(s, e), Spoken(r.messages, r.toolNames, e))
  {
    match e
    case ToolProposed(_, callId, name, arguments) => AddCallMatches(s, r.messages, ToolCall(callId, name, arguments));
    case ToolOutput(callId, content) =>
      PushMatches(s, r.messages, ToolReply(callId, NameOf(r.toolNames, callId), content));
    case TextDelta(_, text) => AddTextMatches(s, r.messages, text);
    case ReasoningDelta(_, text) => AddReasoningMatches(s, r.messages, text);
    case PromptAccepted(_, _, _) => PushedFollows(s, r, e);
    case SteeringApplied(_, _, _) => PushedFollows(s, r, e);
    case TurnCancelled(_) => PushedFollows(s, r, e);
    case ErrorRaised(_, _) => PushedFollows(s, r, e);
    case _ =>
  }

  lemma FinishedFollows(s: Reading, r: Replay, images: Images, callId: string, success: bool)
    requires Follows(s, r) && Finished(r, images, callId, success).Ok?
    ensures Follows(Read(s, ToolCompleted(callId, success)), Finished(r, images, callId, success).value)
  {
    if callId in r.viewed && success {
      var image := images.view(r.viewed[callId]).value;
      PushMatches(s, r.messages, ImageObservation(callId, [image]));
    }
  }

  lemma CompactionFollows(s: Reading, r: Replay, summary: string)
    requires Follows(s, r)
    ensures Follows(NOTHING_READ, AfterCompaction(r, summary))
  {
    var compacted := CompactedHistory("", summary);
    PushAwaits([], compacted[0]);
    PushAwaits([compacted[0]], compacted[1]);
    assert [] + [compacted[0]] == [compacted[0]] && [compacted[0]] + [compacted[1]] == compacted;
    if PendingPrompt(r) != [] {
      PushMatches(NOTHING_READ, compacted, r.messages[|r.messages| - 1]);
    } else {
      assert compacted + [] == compacted;
    }
  }

  lemma MarkedViews(s: Reading, r: Replay, images: Images, e: AppEvent)
    requires s.viewed == r.viewed.Keys && !e.ToolCompleted? && !e.ContextCompacted?
    ensures Read(s, e).viewed == Marked(r, images, e).viewed.Keys
  {
  }

  lemma NotedFollows(s: Reading, r: Replay, images: Images, e: AppEvent)
    requires Follows(s, r) && !e.ToolCompleted? && !e.ContextCompacted?
    ensures Follows(Read(s, e), Noted(r, images, e))
  {
    SpokenFollows(s, r, e);
    MarkedViews(s, r, images, e);
  }

  lemma StepFollows(s: Reading, r: Replay, images: Images, e: AppEvent)
    requires Follows(s, r) && Step(r, images, e).Ok?
    ensures Follows(Read(s, e), Step(r, images, e).value)
  {
    if e.ToolCompleted? {
      FinishedFollows(s, r, images, e.callId, e.success);
    } else if e.ContextCompacted? {
      CompactionFollows(s, r, e.summary);
    } else {
      NotedFollows(s, r, images, e);
    }
  }

  lemma {:induction false} StepsFollow(s: Reading, r: Replay, images: Images, events: seq<AppEvent>)
    requires Follows(s, r) && Steps(r, images, events).Ok?
    ensures Follows(ReadAll(s, events), Steps(r, images, events).value)
    decreases |events|
  {
    if events != [] {
      StepFollows(s, r, images, events[0]);
      StepsFollow(Read(s, events[0]), Step(r, images, events[0]).value, images, events[1..]);
    }
  }

  lemma {:induction false} FirstSystemText(messages: seq<ChatMessage>, system: string)
    requires messages != [] && messages[0].role == System && WellMade(messages[0])
    ensures Awaiting(messages[0 := TextMessage(System, system)]) == Awaiting(messages)
  {
    var n := |messages| - 1;
    var changed := messages[0 := TextMessage(System, system)];
    if n > 0 {
      FirstSystemText(messages[..n], system);
      assert changed[..n] == messages[..n][0 := TextMessage(System, system)];
    }
  }

  lemma {:induction false} SystemFirst(r: Replay, images: Images, events: seq<AppEvent>)
    requires r.messages != [] && r.messages[0].role == System && Steps(r, images, events).Ok?
    ensures Steps(r, images, events).value.messages != [] && Steps(r, images, events).value.messages[0].role == System
    decreases |events|
  {
    if events != [] {
      StepKeepsSame(r, r, images, events[0]);
      SystemFirst(Step(r, images, events[0]).value, images, events[1..]);
    }
  }

  /**
   A restored conversation is paired exactly when its journal reads well: since the last
   compaction every proposed call got its output, in order, before any message that is not the
   output of a waiting call.
   */
  lemma RestoredPairsExactly(images: Images, events: seq<AppEvent>, system: string)
    requires Steps(START, images, events).Ok?
    ensures Restored(images, events, system).Ok?
    ensures Paired(Restored(images, events, system).value) <==> ReadAll(NOTHING_READ, events).waiting == Some([])
  {
    var r := Steps(START, images, events).value;
    PushAwaits([], START.messages[0]);
    assert [] + [START.messages[0]] == START.messages;
    StepsFollow(NOTHING_READ, START, images, events);
    SystemFirst(START, images, events);
    FirstSystemText(r.messages, system);
    var titled := r.messages[0 := TextMessage(System, system)];
    if CrashNote(r) == [] {
      assert titled + [] == titled;
    } else {
      PushAwaits(titled, CRASHED);
    }
  }
}
