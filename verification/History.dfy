/**
 Rebuilding a conversation from its journal, and how far the rebuilt message list agrees with
 the list a running engine holds after a compaction.
 */
module History {
  import opened Prelude
  import opened Vocabulary
  import opened Chat

  /** What the replay asks of its surroundings: the image a call names, and the image's contents. */
  datatype Images = Images(idIn: string -> string, view: string -> Option<string>)

  datatype Replay = Replay(
    messages: seq<ChatMessage>,
    activeTurns: set<TurnId>,
    activeTools: set<string>,
    toolNames: map<string, string>,
    viewed: map<string, string>)

  const VIEW_IMAGE := "view_image"

  /** The note that the previous process ended during active work. */
  const CRASHED := TextMessage(System, "[PROCESS ENDED]")

  /** Whether streamed text continues the last message. */
  predicate Continues(messages: seq<ChatMessage>) {
    messages != [] && messages[|messages| - 1].role == Assistant && messages[|messages| - 1].toolCalls == []
  }

  function OnLast(messages: seq<ChatMessage>, m: ChatMessage): seq<ChatMessage>
    requires messages != []
  {
    messages[|messages| - 1 := m]
  }

  function AddText(messages: seq<ChatMessage>, text: string): seq<ChatMessage> {
    if Continues(messages) then
      var last := messages[|messages| - 1];
      OnLast(messages, last.(content := last.content + text))
    else messages + [TextMessage(Assistant, text)]
  }

  function AddReasoning(messages: seq<ChatMessage>, text: string): seq<ChatMessage> {
    if Continues(messages) then
      var last := messages[|messages| - 1];
      OnLast(messages, last.(reasoning := Some((if last.reasoning.Some? then last.reasoning.value else "") + text)))
    else messages + [TextMessage(Assistant, "").(reasoning := Some(text))]
  }

  function AddCall(messages: seq<ChatMessage>, call: ToolCall): seq<ChatMessage> {
    if messages != [] && messages[|messages| - 1].role == Assistant then
      var last := messages[|messages| - 1];
      OnLast(messages, last.(toolCalls := last.toolCalls + [call]))
    else messages + [TextMessage(Assistant, "").(toolCalls := [call])]
  }

  function NameOf(names: map<string, string>, callId: string): string {
    if callId in names then names[callId] else "restored_tool"
  }

  /** The prompt a compaction in the middle of a turn leaves standing. */
  function PendingPrompt(r: Replay): seq<ChatMessage> {
    if r.activeTurns != {} && r.messages != [] && r.messages[|r.messages| - 1].role == User
    then [r.messages[|r.messages| - 1]] else []
  }

  function AfterCompaction(r: Replay, summary: string): Replay {
    Replay(CompactedHistory("", summary) + PendingPrompt(r), r.activeTurns, {}, map[], map[])
  }

  function Finished(r: Replay, images: Images, callId: string, success: bool): Result<Replay> {
    var done := r.(activeTools := r.activeTools - {callId}, viewed := r.viewed - {callId});
    if callId in r.viewed && success then
      var image := images.view(r.viewed[callId]);
      if image.None? then Err(Error.Tool)
      else Ok(done.(messages := r.messages + [ImageObservation(callId, [image.value])]))
    else Ok(done)
  }

  /** The message list after an event that only adds to it. */
  function Spoken(messages: seq<ChatMessage>, toolNames: map<string, string>, e: AppEvent): seq<ChatMessage> {
    match e
    case PromptAccepted(_, text, attachments) => messages + [UserMessage(text, attachments)]
    case SteeringApplied(_, _, text) => messages + [TextMessage(User, text)]
    case TextDelta(_, text) => AddText(messages, text)
    case ReasoningDelta(_, text) => AddReasoning(messages, text)
    case ToolProposed(_, callId, name, arguments) => AddCall(messages, ToolCall(callId, name, arguments))
    case ToolOutput(callId, content) => messages + [ToolReply(callId, NameOf(toolNames, callId), content)]
    case TurnCancelled(_) => messages + [INTERRUPTED]
    case ErrorRaised(Some(_), _) => messages + [INTERRUPTED]
    case _ => messages
  }

  /** The marks of running work after an event. */
  function Marked(r: Replay, images: Images, e: AppEvent): Replay {
    match e
    case ToolProposed(_, callId, name, arguments) =>
      r.(toolNames := r.toolNames[callId := name],
         viewed := if name == VIEW_IMAGE then r.viewed[callId := images.idIn(arguments)] else r.viewed)
    case TurnStarted(t) => r.(activeTurns := r.activeTurns + {t})
    case TurnCompleted(t) => r.(activeTurns := r.activeTurns - {t})
    case TurnCancelled(t) => r.(activeTurns := r.activeTurns - {t})
    case ErrorRaised(Some(t), _) => r.(activeTurns := r.activeTurns - {t})
    case ToolStarted(callId, _) => r.(activeTools := r.activeTools + {callId})
    case _ => r
  }

  function Noted(r: Replay, images: Images, e: AppEvent): Replay {
    Marked(r, images, e).(messages := Spoken(r.messages, r.toolNames, e))
  }

  function Step(r: Replay, images: Images, e: AppEvent): Result<Replay> {
    match e
    case ToolCompleted(callId, success) => Finished(r, images, callId, success)
    case ContextCompacted(summary, _) => Ok(AfterCompaction(r, summary))
    case _ => Ok(Noted(r, images, e))
  }

  function Steps(r: Replay, images: Images, events: seq<AppEvent>): Result<Replay>
    decreases |events|
  {
    if events == [] then Ok(r)
    else match Step(r, images, events[0])
      case Ok(next) => Steps(next, images, events[1..])
      case Err(error) => Err(error)
  }

  /** Replay starts with the system slot in place; its text is filled in at the end. */
  const START := Replay([TextMessage(System, "")], {}, {}, map[], map[])

  function CrashNote(r: Replay): seq<ChatMessage> {
    if r.activeTurns != {} || r.activeTools != {} then [CRASHED] else []
  }

  function Close(r: Replay, system: string): seq<ChatMessage> {
    if r.messages == [] then [] else r.messages[0 := TextMessage(System, system)] + CrashNote(r)
  }

  function Restored(images: Images, events: seq<AppEvent>, system: string): Result<seq<ChatMessage>> {
    match Steps(START, images, events)
    case Ok(r) => Ok(Close(r, system))
    case Err(error) => Err(error)
  }

  /** Rebuild one conversation; a journal of another conversation is refused. */
  method RestoreSession(images: Images, sessionId: SessionId, journal: seq<EventEnvelope>, system: string)
    returns (history: Result<seq<ChatMessage>>)
    ensures (exists i | 0 <= i < |journal| :: journal[i].sessionId != sessionId) ==> history == Err(Storage)
    ensures (forall i | 0 <= i < |journal| :: journal[i].sessionId == sessionId) ==>
              history == Restored(images, EventsOf(journal), system)
  {
    for i := 0 to |journal|
      invariant forall j | 0 <= j < i :: journal[j].sessionId == sessionId
    {
      if journal[i].sessionId != sessionId {
        return Err(Storage);
      }
    }
    var r := START;
    ghost var events := EventsOf(journal);
    for i := 0 to |journal|
      invariant r.messages != []
      invariant Steps(START, images, events) == Steps(r, images, events[i..])
    {
      assert events[i..][1..] == events[i + 1..] && events[i..][0] == journal[i].event;
      KeepsSystemSlot(r, images, journal[i].event);
      var next := Step(r, images, journal[i].event);
      if next.Err? {
        return Err(next.error);
      }
      r := next.value;
    }
    history := Ok(Close(r, system));
  }

  lemma KeepsSystemSlot(r: Replay, images: Images, e: AppEvent)
    requires r.messages != []
    ensures Step(r, images, e).Ok? ==> Step(r, images, e).value.messages != []
  {
  }

  lemma {:induction false} StepsConcat(r: Replay, images: Images, a: seq<AppEvent>, b: seq<AppEvent>)
    ensures Steps(r, images, a + b)
            == match Steps(r, images, a)
               case Ok(mid) => Steps(mid, images, b)
               case Err(error) => Err(error)
    decreases |a|
  {
    if a == [] {
      assert a + b == b;
    } else {
      assert (a + b)[0] == a[0] && (a + b)[1..] == a[1..] + b;
      match Step(r, images, a[0]) {
        case Ok(next) => StepsConcat(next, images, a[1..], b);
        case Err(_) =>
      }
    }
  }

  // ---------- Which turns a replay holds active ----------

  predicate EndedIn(events: seq<AppEvent>, t: TurnId) {
    exists j | 0 <= j < |events| :: TerminalTurn(events[j]) == Some(t)
  }

  /** A turn that started and has no terminal event after its last start. */
  predicate OpenIn(events: seq<AppEvent>, t: TurnId) {
    exists i | 0 <= i < |events| :: events[i] == TurnStarted(t) && !EndedIn(events[i + 1..], t)
  }

  predicate EveryTurnEnded(events: seq<AppEvent>) {
    forall i | 0 <= i < |events| && events[i].TurnStarted? :: EndedIn(events[i + 1..], events[i].turnId)
  }

  lemma {:induction false} ActiveTurnsAreOpen(r: Replay, images: Images, events: seq<AppEvent>, t: TurnId)
    requires Steps(r, images, events).Ok?
    ensures t in Steps(r, images, events).value.activeTurns
            <==> OpenIn(events, t) || (t in r.activeTurns && !EndedIn(events, t))
    decreases |events|
  {
    if events != [] {
      var next := Step(r, images, events[0]).value;
      var rest := events[1..];
      ActiveTurnsAreOpen(next, images, rest, t);
      EndedInTail(events, t);
      OpenInTail(events, t);
    }
  }

  lemma EndedInTail(events: seq<AppEvent>, t: TurnId)
    requires events != []
    ensures EndedIn(events, t) <==> TerminalTurn(events[0]) == Some(t) || EndedIn(events[1..], t)
  {
    var rest := events[1..];
    if EndedIn(rest, t) {
      var j :| 0 <= j < |rest| && TerminalTurn(rest[j]) == Some(t);
      assert events[j + 1] == rest[j];
    }
    if EndedIn(events, t) && TerminalTurn(events[0]) != Some(t) {
      var j :| 0 <= j < |events| && TerminalTurn(events[j]) == Some(t);
      assert rest[j - 1] == events[j];
    }
  }

  lemma OpenInTail(events: seq<AppEvent>, t: TurnId)
    requires events != []
    ensures OpenIn(events, t) <==> (events[0] == TurnStarted(t) && !EndedIn(events[1..], t)) || OpenIn(events[1..], t)
  {
    var rest := events[1..];
    if OpenIn(rest, t) {
      var i :| 0 <= i < |rest| && rest[i] == TurnStarted(t) && !EndedIn(rest[i + 1..], t);
      assert events[i + 1] == rest[i] && events[i + 2..] == rest[i + 1..];
    }
    if OpenIn(events, t) && !(events[0] == TurnStarted(t) && !EndedIn(events[1..], t)) {
      var i :| 0 <= i < |events| && events[i] == TurnStarted(t) && !EndedIn(events[i + 1..], t);
      assert rest[i - 1] == events[i] && rest[i..] == events[i + 1..];
    }
  }

  /** A replay holds no turn active exactly when every turn of the journal has ended. */
  lemma NoTurnActiveExactly(images: Images, events: seq<AppEvent>)
    requires Steps(START, images, events).Ok?
    ensures Steps(START, images, events).value.activeTurns == {} <==> EveryTurnEnded(events)
  {
    var active := Steps(START, images, events).value.activeTurns;
    if EveryTurnEnded(events) && active != {} {
      var t :| t in active;
      ActiveTurnsAreOpen(START, images, events, t);
    }
    if active == {} {
      forall i | 0 <= i < |events| && events[i].TurnStarted?
        ensures EndedIn(events[i + 1..], events[i].turnId)
      {
        ActiveTurnsAreOpen(START, images, events, events[i].turnId);
      }
    }
  }

  // ---------- The system text does not steer a replay ----------

  /** Two lists that differ in the text of the system slot at most. */
  predicate SameTail(a: seq<ChatMessage>, b: seq<ChatMessage>) {
    && a != [] && b != [] && a[0].role == System && b[0].role == System
    && a[1..] == b[1..]
  }

  predicate SameButSystem(a: Replay, b: Replay) {
    && SameTail(a.messages, b.messages)
    && a.activeTurns == b.activeTurns && a.activeTools == b.activeTools
    && a.toolNames == b.toolNames && a.viewed == b.viewed
  }

  lemma SameLast(a: seq<ChatMessage>, b: seq<ChatMessage>)
    requires SameTail(a, b)
    ensures |a| == |b|
    ensures |a| == 1 || a[|a| - 1] == b[|b| - 1]
  {
    assert |a| == |a[1..]| + 1 && |b| == |b[1..]| + 1;
    if |a| > 1 {
      assert a[1..][|a| - 2] == a[|a| - 1] && b[1..][|b| - 2] == b[|b| - 1];
    }
  }

  lemma PushSame(a: seq<ChatMessage>, b: seq<ChatMessage>, m: ChatMessage)
    requires SameTail(a, b)
    ensures SameTail(a + [m], b + [m])
  {
    assert (a + [m])[1..] == a[1..] + [m] && (b + [m])[1..] == b[1..] + [m];
  }

  lemma OnLastSame(a: seq<ChatMessage>, b: seq<ChatMessage>, m: ChatMessage)
    requires SameTail(a, b) && |a| > 1
    ensures |a| == |b| && SameTail(OnLast(a, m), OnLast(b, m))
  {
    SameLast(a, b);
    assert OnLast(a, m)[1..] == a[1..][|a| - 2 := m] && OnLast(b, m)[1..] == b[1..][|b| - 2 := m];
  }

  lemma AddTextSame(a: seq<ChatMessage>, b: seq<ChatMessage>, text: string)
    requires SameTail(a, b)
    ensures SameTail(AddText(a, text), AddText(b, text))
  {
    SameLast(a, b);
    if Continues(a) {
      OnLastSame(a, b, a[|a| - 1].(content := a[|a| - 1].content + text));
    } else {
      PushSame(a, b, TextMessage(Assistant, text));
    }
  }

  lemma AddReasoningSame(a: seq<ChatMessage>, b: seq<ChatMessage>, text: string)
    requires SameTail(a, b)
    ensures SameTail(AddReasoning(a, text), AddReasoning(b, text))
  {
    SameLast(a, b);
    if Continues(a) {
      var last := a[|a| - 1];
      OnLastSame(a, b, last.(reasoning := Some((if last.reasoning.Some? then last.reasoning.value else "") + text)));
    } else {
      PushSame(a, b, TextMessage(Assistant, "").(reasoning := Some(text)));
    }
  }

  lemma AddCallSame(a: seq<ChatMessage>, b: seq<ChatMessage>, call: ToolCall)
    requires SameTail(a, b)
    ensures SameTail(AddCall(a, call), AddCall(b, call))
  {
    SameLast(a, b);
    if a[|a| - 1].role == Assistant {
      OnLastSame(a, b, a[|a| - 1].(toolCalls := a[|a| - 1].toolCalls + [call]));
    } else {
      PushSame(a, b, TextMessage(Assistant, "").(toolCalls := [call]));
    }
  }

  lemma FinishedSame(a: Replay, b: Replay, images: Images, callId: string, success: bool)
    requires SameButSystem(a, b)
    ensures match Finished(a, images, callId, success)
            case Ok(x) => Finished(b, images, callId, success).Ok?
                          && SameButSystem(x, Finished(b, images, callId, success).value)
            case Err(error) => Finished(b, images, callId, success) == Err(error)
  {
    if callId in a.viewed && success && images.view(a.viewed[callId]).Some? {
      PushSame(a.messages, b.messages, ImageObservation(callId, [images.view(a.viewed[callId]).value]));
    }
  }

  lemma CompactionSame(a: Replay, b: Replay, summary: string)
    requires SameButSystem(a, b)
    ensures SameButSystem(AfterCompaction(a, summary), AfterCompaction(b, summary))
  {
    SameLast(a.messages, b.messages);
  }

  lemma SpokenSame(a: seq<ChatMessage>, b: seq<ChatMessage>, names: map<string, string>, e: AppEvent)
    requires SameTail(a, b)
    ensures SameTail(Spoken(a, names, e), Spoken(b, names, e))
  {
    match e
    case PromptAccepted(_, text, attachments) => PushSame(a, b, UserMessage(text, attachments));
    case SteeringApplied(_, _, text) => PushSame(a, b, TextMessage(User, text));
    case TextDelta(_, text) => AddTextSame(a, b, text);
    case ReasoningDelta(_, text) => AddReasoningSame(a, b, text);
    case ToolProposed(_, callId, name, arguments) => AddCallSame(a, b, ToolCall(callId, name, arguments));
    case ToolOutput(callId, content) => PushSame(a, b, ToolReply(callId, NameOf(names, callId), content));
    case TurnCancelled(_) => PushSame(a, b, INTERRUPTED);
    case ErrorRaised(_, _) => PushSame(a, b, INTERRUPTED);
    case _ =>
  }

  lemma NotedSame(a: Replay, b: Replay, images: Images, e: AppEvent)
    requires SameButSystem(a, b)
    ensures SameButSystem(Noted(a, images, e), Noted(b, images, e))
  {
    SpokenSame(a.messages, b.messages, a.toolNames, e);
    var x, y := Marked(a, images, e), Marked(b, images, e);
    assert x.(messages := []) == y.(messages := []);
  }

  lemma StepKeepsSame(a: Replay, b: Replay, images: Images, e: AppEvent)
    requires SameButSystem(a, b)
    ensures match Step(a, images, e)
            case Ok(x) => Step(b, images, e).Ok? && SameButSystem(x, Step(b, images, e).value)
            case Err(error) => Step(b, images, e) == Err(error)
  {
    if e.ToolCompleted? {
      FinishedSame(a, b, images, e.callId, e.success);
    } else if e.ContextCompacted? {
      CompactionSame(a, b, e.summary);
    } else {
      NotedSame(a, b, images, e);
    }
  }

  lemma {:induction false} StepsKeepSame(a: Replay, b: Replay, images: Images, events: seq<AppEvent>)
    requires SameButSystem(a, b)
    ensures match Steps(a, images, events)
            case Ok(x) => Steps(b, images, events).Ok? && SameButSystem(x, Steps(b, images, events).value)
            case Err(error) => Steps(b, images, events) == Err(error)
    decreases |events|
  {
    if events != [] {
      StepKeepsSame(a, b, images, events[0]);
      if Step(a, images, events[0]).Ok? {
        StepsKeepSame(Step(a, images, events[0]).value, Step(b, images, events[0]).value, images, events[1..]);
      }
    }
  }

  // ---------- Agreement with the running engine ----------

  /** The turns a journal leaves without an end. */
  function ActiveAfter(images: Images, events: seq<AppEvent>): set<TurnId>
    requires Steps(START, images, events).Ok?
  {
    Steps(START, images, events).value.activeTurns
  }

  /**
   A journal that ends in a compaction restores the compacted list exactly when every turn before
   it has ended; a turn that died leaves its crash note behind the list.
   */
  lemma CompactionReplays(images: Images, before: seq<AppEvent>, summary: string, count: nat,
                          system: string, liveSystem: string)
    requires Steps(START, images, before).Ok?
    ensures var restored := Restored(images, before + [ContextCompacted(summary, count)], system);
            var compacted := [TextMessage(System, system)] + CompactedHistory(liveSystem, summary)[1..];
            && restored.Ok?
            && (restored.value == compacted <==> EveryTurnEnded(before))
            && (!EveryTurnEnded(before) ==>
                  compacted < restored.value && restored.value[|restored.value| - 1] == CRASHED)
  {
    NoTurnActiveExactly(images, before);
    StepsConcat(START, images, before, [ContextCompacted(summary, count)]);
    var r := Steps(START, images, before).value;
    assert Steps(AfterCompaction(r, summary), images, []) == Ok(AfterCompaction(r, summary));
    assert [ContextCompacted(summary, count)][1..] == [];
    var messages := CompactedHistory("", summary) + PendingPrompt(r);
    var titled := messages[0 := TextMessage(System, system)];
    assert titled == [TextMessage(System, system)] + CompactedHistory(liveSystem, summary)[1..] + PendingPrompt(r);
    if EveryTurnEnded(before) {
      assert titled + [] == titled;
    }
  }

  /** The events between the start of a turn and its first request leave the replay alone. */
  predicate IsPreparation(e: AppEvent) {
    e.Notice? || e.ModelChanged? || e.ThinkingLevelChanged? || e.SecurityStatusChanged?
  }

  lemma {:induction false} PreparationIsSilent(r: Replay, images: Images, events: seq<AppEvent>)
    requires forall e | e in events :: IsPreparation(e)
    ensures Steps(r, images, events) == Ok(r)
    decreases |events|
  {
    if events != [] {
      assert events[0] in events;
      PreparationIsSilent(r, images, events[1..]);
    }
  }

  function TurnOpening(t: TurnId, text: string, attachments: seq<Attachment>): seq<AppEvent> {
    [PromptAccepted(t, text, attachments), TurnStarted(t)]
  }

  /** A compacted list and the prompt behind it. */
  function LiveAfterCompaction(system: string, summary: string, prompt: ChatMessage): seq<ChatMessage> {
    CompactedHistory(system, summary) + [prompt]
  }

  lemma OpeningAddsPrompt(r: Replay, images: Images, t: TurnId, text: string, attachments: seq<Attachment>)
    ensures Steps(r, images, TurnOpening(t, text, attachments))
            == Ok(r.(messages := r.messages + [UserMessage(text, attachments)], activeTurns := r.activeTurns + {t}))
  {
    var opening := TurnOpening(t, text, attachments);
    assert opening[1..] == [TurnStarted(t)] && opening[1..][1..] == [];
    var prompted := r.(messages := r.messages + [UserMessage(text, attachments)]);
    assert Steps(prompted, images, [TurnStarted(t)]) == Ok(prompted.(activeTurns := r.activeTurns + {t}));
  }

  /** After the compaction the replay holds exactly the live list, with the system slot empty. */
  lemma OpeningCompaction(images: Images, before: seq<AppEvent>, t: TurnId, text: string,
                          attachments: seq<Attachment>, preparation: seq<AppEvent>, summary: string, count: nat)
    requires Steps(START, images, before).Ok? && forall e | e in preparation :: IsPreparation(e)
    ensures Steps(START, images, before + TurnOpening(t, text, attachments) + preparation
                                 + [ContextCompacted(summary, count)])
            == Ok(Replay(LiveAfterCompaction("", summary, UserMessage(text, attachments)),
                         ActiveAfter(images, before) + {t}, {}, map[], map[]))
  {
    var r := Steps(START, images, before).value;
    StepsConcat(START, images, before, TurnOpening(t, text, attachments));
    OpeningAddsPrompt(r, images, t, text, attachments);
    var begun := Steps(START, images, before + TurnOpening(t, text, attachments)).value;
    StepsConcat(START, images, before + TurnOpening(t, text, attachments), preparation);
    PreparationIsSilent(begun, images, preparation);
    StepsConcat(START, images, before + TurnOpening(t, text, attachments) + preparation,
                [ContextCompacted(summary, count)]);
    assert begun.activeTurns == ActiveAfter(images, before) + {t};
  }

  lemma CloseKeepsTail(a: Replay, b: Replay, system: string)
    requires SameButSystem(a, b)
    ensures Close(a, system) == Close(b, system)
  {
    var x := TextMessage(System, system);
    assert a.messages[0 := x] == [x] + a.messages[1..];
    assert b.messages[0 := x] == [x] + b.messages[1..];
  }

  /** From a compaction before a turn's first request on, replaying the journal is replaying what
      follows on the compacted list with the prompt, whatever the system text, with this turn and
      those that died before it active. */
  lemma ReplaysOnLive(images: Images, before: seq<AppEvent>, t: TurnId, text: string,
                      attachments: seq<Attachment>, preparation: seq<AppEvent>, summary: string, count: nat,
                      after: seq<AppEvent>, system: string, liveSystem: string)
    requires Steps(START, images, before).Ok? && forall e | e in preparation :: IsPreparation(e)
    ensures var prompt := UserMessage(text, attachments);
            var journal := before + TurnOpening(t, text, attachments) + preparation
                           + [ContextCompacted(summary, count)];
            var active := ActiveAfter(images, before) + {t};
            var live := Replay(LiveAfterCompaction(liveSystem, summary, prompt), active, {}, map[], map[]);
            Restored(images, journal + after, system)
            == match Steps(live, images, after)
               case Ok(r) => Ok(Close(r, system))
               case Err(error) => Err(error)
  {
    var journal := before + TurnOpening(t, text, attachments) + preparation + [ContextCompacted(summary, count)];
    var prompt := UserMessage(text, attachments);
    var active := ActiveAfter(images, before) + {t};
    var live := Replay(LiveAfterCompaction(liveSystem, summary, prompt), active, {}, map[], map[]);
    var replayed := Replay(LiveAfterCompaction("", summary, prompt), active, {}, map[], map[]);
    OpeningCompaction(images, before, t, text, attachments, preparation, summary, count);
    StepsConcat(START, images, journal, after);
    assert live.messages[1..] == replayed.messages[1..];
    StepsKeepSame(replayed, live, images, after);
    if Steps(live, images, after).Ok? {
      CloseKeepsTail(Steps(replayed, images, after).value, Steps(live, images, after).value, system);
    }
  }
}
