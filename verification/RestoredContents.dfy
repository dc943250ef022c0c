/**
 What a restored conversation says, in terms of its journal: what was said since the last
 compaction falls into blocks, and each block is one message with exactly its words.
 */
module RestoredContents {
  import opened Prelude
  import opened Vocabulary
  import opened Chat
  import opened History

  // ---------- What a journal says ----------

  /** The tool a call was proposed for, as far as the events tell. */
  function NameIn(events: seq<AppEvent>, id: string): string {
    if events == [] then "restored_tool"
    else
      var e := events[|events| - 1];
      if e.ToolProposed? && e.callId == id then e.name else NameIn(events[..|events| - 1], id)
  }

  /** The arguments of a call of the image viewer under this id that has not completed. */
  function ViewIn(events: seq<AppEvent>, id: string): Option<string> {
    if events == [] then None
    else
      var e := events[|events| - 1];
      if e.ToolProposed? && e.callId == id && e.name == "view_image" then Some(e.arguments)
      else if e.ToolCompleted? && e.callId == id then None
      else ViewIn(events[..|events| - 1], id)
  }

  /** An event that says something, the tool its call was proposed for, and the arguments of the
      image viewer whose image it shows. */
  datatype Said = Said(event: AppEvent, name: string, view: string)

  predicate IsStreamed(e: AppEvent) {
    e.TextDelta? || e.ReasoningDelta?
  }

  predicate IsAssistants(e: AppEvent) {
    IsStreamed(e) || e.ToolProposed?
  }

  /** What one event says behind others, if it says anything. */
  function SaidBy(before: seq<AppEvent>, e: AppEvent): seq<Said> {
    match e
    case ToolOutput(id, _) => [Said(e, NameIn(before, id), "")]
    case ToolCompleted(id, success) =>
      var view := ViewIn(before, id);
      if success && view.Some? then [Said(e, "", view.value)] else []
    case ErrorRaised(turn, _) => if turn.Some? then [Said(e, "", "")] else []
    case _ =>
      if IsAssistants(e) || e.PromptAccepted? || e.SteeringApplied? || e.TurnCancelled?
      then [Said(e, "", "")] else []
  }

  function SaidIn(events: seq<AppEvent>): seq<Said> {
    if events == [] then []
    else SaidIn(events[..|events| - 1]) + SaidBy(events[..|events| - 1], events[|events| - 1])
  }

  // ---------- Blocks ----------

  /** The second goes on with the message of the first: streamed output continues streamed output,
      and a call joins what the assistant said or called right before it. */
  predicate Joins(a: Said, b: Said) {
    || (IsStreamed(a.event) && IsStreamed(b.event))
    || (IsAssistants(a.event) && b.event.ToolProposed?)
  }

  /** Go on with the last block, or begin one. */
  function Put(blocks: seq<seq<Said>>, x: Said): seq<seq<Said>> {
    if GoesOn(blocks, x) then blocks[..|blocks| - 1] + [blocks[|blocks| - 1] + [x]] else blocks + [[x]]
  }

  predicate GoesOn(blocks: seq<seq<Said>>, x: Said) {
    blocks != [] && blocks[|blocks| - 1] != [] && Joins(blocks[|blocks| - 1][|blocks[|blocks| - 1]| - 1], x)
  }

  function Blocks(said: seq<Said>): seq<seq<Said>> {
    if said == [] then [] else Put(Blocks(said[..|said| - 1]), said[|said| - 1])
  }

  function Laid(blocks: seq<seq<Said>>): seq<Said> {
    if blocks == [] then [] else Laid(blocks[..|blocks| - 1]) + blocks[|blocks| - 1]
  }

  /** Everything in it joins what is right before it. */
  predicate IsRun(block: seq<Said>) {
    block != [] && forall k | 0 < k < |block| :: Joins(block[k - 1], block[k])
  }

  predicate AllRuns(blocks: seq<seq<Said>>) {
    forall j | 0 <= j < |blocks| :: IsRun(blocks[j])
  }

  /** Block `j` does not go on with the one before. */
  predicate StartsAnew(blocks: seq<seq<Said>>, j: nat)
    requires 0 < j < |blocks| && blocks[j] != []
  {
    !GoesOn(blocks[..j], blocks[j][0])
  }

  predicate CutApart(blocks: seq<seq<Said>>)
    requires AllRuns(blocks)
  {
    forall j | 0 < j < |blocks| :: StartsAnew(blocks, j)
  }

  lemma LaidOneMore(blocks: seq<seq<Said>>, block: seq<Said>)
    ensures Laid(blocks + [block]) == Laid(blocks) + block
  {
    assert (blocks + [block])[..|blocks|] == blocks;
  }

  lemma PutLays(blocks: seq<seq<Said>>, x: Said)
    ensures Laid(Put(blocks, x)) == Laid(blocks) + [x]
  {
    if GoesOn(blocks, x) {
      var m := |blocks| - 1;
      LaidOneMore(blocks[..m], blocks[m] + [x]);
      assert Laid(blocks[..m]) + (blocks[m] + [x]) == Laid(blocks) + [x];
    } else {
      LaidOneMore(blocks, [x]);
    }
  }

  lemma GrowRun(block: seq<Said>, x: Said)
    requires IsRun(block) && Joins(block[|block| - 1], x)
    ensures IsRun(block + [x])
  {
  }

  lemma PutKeepsRuns(blocks: seq<seq<Said>>, x: Said)
    requires AllRuns(blocks)
    ensures AllRuns(Put(blocks, x))
  {
    if GoesOn(blocks, x) {
      GrowRun(blocks[|blocks| - 1], x);
    } else {
      assert IsRun([x]);
    }
  }

  lemma PutCutsApart(blocks: seq<seq<Said>>, x: Said)
    requires AllRuns(blocks) && CutApart(blocks)
    ensures AllRuns(Put(blocks, x)) && CutApart(Put(blocks, x))
  {
    PutKeepsRuns(blocks, x);
    var next := Put(blocks, x);
    forall j | 0 < j < |next|
      ensures StartsAnew(next, j)
    {
      if j < |blocks| {
        assert StartsAnew(blocks, j) && next[..j] == blocks[..j] && next[j][0] == blocks[j][0];
      } else {
        assert next[..j] == blocks;
      }
    }
  }

  lemma {:induction false} BlocksAreRuns(said: seq<Said>)
    ensures AllRuns(Blocks(said))
  {
    if said != [] {
      BlocksAreRuns(said[..|said| - 1]);
      PutKeepsRuns(Blocks(said[..|said| - 1]), said[|said| - 1]);
    }
  }

  /** The blocks are what was said, in order, and they are as long as they can be: each is a run in
      which everything joins, and none goes on with the one before. */
  lemma {:induction false} BlocksAreMaximalRuns(said: seq<Said>)
    ensures Laid(Blocks(said)) == said
    ensures AllRuns(Blocks(said)) && CutApart(Blocks(said))
  {
    if said != [] {
      var n := |said| - 1;
      BlocksAreMaximalRuns(said[..n]);
      PutLays(Blocks(said[..n]), said[n]);
      PutCutsApart(Blocks(said[..n]), said[n]);
      assert said[..n] + [said[n]] == said;
    }
  }

  // ---------- The message of a block ----------

  /** The streamed text, put together. */
  function TextOf(block: seq<Said>): string {
    if block == [] then ""
    else
      var e := block[|block| - 1].event;
      TextOf(block[..|block| - 1]) + if e.TextDelta? then e.text else ""
  }

  /** The streamed reasoning, put together, if there was any. */
  function ReasoningOf(block: seq<Said>): Option<string> {
    if block == [] then None
    else
      var e, before := block[|block| - 1].event, ReasoningOf(block[..|block| - 1]);
      if !e.ReasoningDelta? then before
      else Some((if before.Some? then before.value else "") + e.text)
  }

  function CallsIn(block: seq<Said>): seq<ToolCall> {
    if block == [] then []
    else
      var e := block[|block| - 1].event;
      CallsIn(block[..|block| - 1]) + if e.ToolProposed? then [ToolCall(e.callId, e.name, e.arguments)] else []
  }

  /** The message of a block. */
  function MessageOf(block: seq<Said>, images: Images): ChatMessage {
    if block == [] then INTERRUPTED
    else match block[0].event
      case PromptAccepted(_, text, attachments) => UserMessage(text, attachments)
      case SteeringApplied(_, _, text) => ChatMessage(User, text, [], [], None, None, [])
      case ToolOutput(id, content) => ToolReply(id, block[0].name, content)
      case ToolCompleted(id, _) =>
        var image := images.view(images.idIn(block[0].view));
        ImageObservation(id, if image.Some? then [image.value] else [])
      case TurnCancelled(_) => INTERRUPTED
      case ErrorRaised(_, _) => INTERRUPTED
      case _ =>
        if IsAssistants(block[0].event)
        then ChatMessage(Assistant, TextOf(block), [], [], ReasoningOf(block), None, CallsIn(block))
        else INTERRUPTED
  }

  function Messages(blocks: seq<seq<Said>>, images: Images): (r: seq<ChatMessage>)
    ensures |r| == |blocks|
  {
    seq(|blocks|, j requires 0 <= j < |blocks| => MessageOf(blocks[j], images))
  }

  lemma OneMoreSaid(block: seq<Said>, x: Said)
    ensures TextOf(block + [x]) == if x.event.TextDelta? then TextOf(block) + x.event.text else TextOf(block)
    ensures CallsIn(block + [x])
            == if x.event.ToolProposed?
               then CallsIn(block) + [ToolCall(x.event.callId, x.event.name, x.event.arguments)] else CallsIn(block)
    ensures ReasoningOf(block + [x])
            == if !x.event.ReasoningDelta? then ReasoningOf(block)
               else Some((if ReasoningOf(block).Some? then ReasoningOf(block).value else "") + x.event.text)
  {
    assert (block + [x])[..|block|] == block;
    assert TextOf(block) + "" == TextOf(block) && CallsIn(block) + [] == CallsIn(block);
  }

  /** A block of the assistant is streamed output and then calls: it has no calls exactly when it
      ends in streamed output. */
  lemma {:induction false} AssistantBlock(block: seq<Said>)
    requires IsRun(block)
    ensures IsAssistants(block[0].event) <==> IsAssistants(block[|block| - 1].event)
    ensures IsAssistants(block[0].event) ==> (CallsIn(block) == [] <==> IsStreamed(block[|block| - 1].event))
  {
    var n := |block| - 1;
    if n > 0 {
      AssistantBlock(block[..n]);
      assert Joins(block[n - 1], block[n]);
    }
  }

  // ---------- The assistant's events ----------

  /** A list as a replay finds it: nobody is in the middle of speaking. */
  predicate IsBase(base: seq<ChatMessage>) {
    base != [] && base[|base| - 1].role != Assistant
  }

  /** A block that stands for a message of the assistant. */
  predicate IsAssistantBlock(block: seq<Said>) {
    IsRun(block) && IsAssistants(block[0].event)
  }

  lemma BlockSpeaks(block: seq<Said>, images: Images)
    requires IsRun(block)
    ensures MessageOf(block, images).role == Assistant <==> IsAssistants(block[|block| - 1].event)
    ensures IsAssistants(block[|block| - 1].event) ==>
              && IsAssistantBlock(block)
              && (MessageOf(block, images).toolCalls == [] <==> IsStreamed(block[|block| - 1].event))
  {
    AssistantBlock(block);
  }

  lemma ReplacesLast(base: seq<ChatMessage>, blocks: seq<seq<Said>>, block: seq<Said>, images: Images)
    requires blocks != []
    ensures var all := base + Messages(blocks, images);
            && all[|all| - 1] == MessageOf(blocks[|blocks| - 1], images)
            && OnLast(all, MessageOf(block, images))
               == base + Messages(blocks[..|blocks| - 1] + [block], images)
  {
    var all, m := base + Messages(blocks, images), |blocks| - 1;
    assert OnLast(all, MessageOf(block, images)) == base + Messages(blocks, images)[m := MessageOf(block, images)];
    assert Messages(blocks, images)[m := MessageOf(block, images)] == Messages(blocks[..m] + [block], images);
  }

  lemma AddsLast(base: seq<ChatMessage>, blocks: seq<seq<Said>>, block: seq<Said>, images: Images)
    ensures base + Messages(blocks, images) + [MessageOf(block, images)] == base + Messages(blocks + [block], images)
  {
    assert Messages(blocks, images) + [MessageOf(block, images)] == Messages(blocks + [block], images);
  }

  /** Who speaks at the end of the list. */
  lemma LastSpeaks(base: seq<ChatMessage>, blocks: seq<seq<Said>>, x: Said, images: Images)
    requires IsBase(base) && AllRuns(blocks)
    ensures var all := base + Messages(blocks, images);
            && (IsStreamed(x.event) ==> (GoesOn(blocks, x) <==> Continues(all)))
            && (x.event.ToolProposed? ==> (GoesOn(blocks, x) <==> all[|all| - 1].role == Assistant))
    ensures GoesOn(blocks, x) ==> IsAssistantBlock(blocks[|blocks| - 1])
  {
    if blocks != [] {
      ReplacesLast(base, blocks, [], images);
      BlockSpeaks(blocks[|blocks| - 1], images);
    } else {
      assert base + Messages(blocks, images) == base;
    }
  }

  lemma FirstSaid(x: Said)
    ensures TextOf([x]) == (if x.event.TextDelta? then x.event.text else "")
    ensures ReasoningOf([x]) == (if x.event.ReasoningDelta? then Some(x.event.text) else None)
    ensures CallsIn([x])
            == if x.event.ToolProposed? then [ToolCall(x.event.callId, x.event.name, x.event.arguments)] else []
  {
    var before := [x][..0];
    assert TextOf(before) == "" && ReasoningOf(before) == None && CallsIn(before) == [];
    if x.event.TextDelta? || x.event.ReasoningDelta? {
      assert "" + x.event.text == x.event.text;
    }
  }

  /** What one more event adds to the message of a block. */
  lemma MoreOfBlock(block: seq<Said>, x: Said, images: Images)
    requires IsAssistantBlock(block) && IsAssistants(x.event)
    ensures var m := MessageOf(block, images);
            MessageOf(block + [x], images)
            == match x.event
               case TextDelta(_, text) => m.(content := m.content + text)
               case ReasoningDelta(_, text) =>
                 m.(reasoning := Some((if m.reasoning.Some? then m.reasoning.value else "") + text))
               case _ => m.(toolCalls := m.toolCalls + [ToolCall(x.event.callId, x.event.name, x.event.arguments)])
  {
    OneMoreSaid(block, x);
    assert (block + [x])[0] == block[0];
  }

  lemma FirstOfBlock(x: Said, images: Images)
    requires IsAssistants(x.event)
    ensures MessageOf([x], images)
            == match x.event
               case TextDelta(_, text) => TextMessage(Assistant, text)
               case ReasoningDelta(_, text) => TextMessage(Assistant, "").(reasoning := Some(text))
               case _ =>
                 TextMessage(Assistant, "")
                 .(toolCalls := [ToolCall(x.event.callId, x.event.name, x.event.arguments)])
  {
    FirstSaid(x);
  }

  lemma TextTells(base: seq<ChatMessage>, blocks: seq<seq<Said>>, x: Said, images: Images)
    requires IsBase(base) && AllRuns(blocks) && x.event.TextDelta?
    ensures AddText(base + Messages(blocks, images), x.event.text)
            == base + Messages(Put(blocks, x), images)
  {
    LastSpeaks(base, blocks, x, images);
    if GoesOn(blocks, x) {
      MoreOfBlock(blocks[|blocks| - 1], x, images);
      ReplacesLast(base, blocks, blocks[|blocks| - 1] + [x], images);
    } else {
      FirstOfBlock(x, images);
      AddsLast(base, blocks, [x], images);
    }
  }

  lemma ReasoningTells(base: seq<ChatMessage>, blocks: seq<seq<Said>>, x: Said, images: Images)
    requires IsBase(base) && AllRuns(blocks) && x.event.ReasoningDelta?
    ensures AddReasoning(base + Messages(blocks, images), x.event.text)
            == base + Messages(Put(blocks, x), images)
  {
    LastSpeaks(base, blocks, x, images);
    if GoesOn(blocks, x) {
      MoreOfBlock(blocks[|blocks| - 1], x, images);
      ReplacesLast(base, blocks, blocks[|blocks| - 1] + [x], images);
    } else {
      FirstOfBlock(x, images);
      AddsLast(base, blocks, [x], images);
    }
  }

  lemma CallTells(base: seq<ChatMessage>, blocks: seq<seq<Said>>, x: Said, images: Images)
    requires IsBase(base) && AllRuns(blocks) && x.event.ToolProposed?
    ensures AddCall(base + Messages(blocks, images), ToolCall(x.event.callId, x.event.name, x.event.arguments))
            == base + Messages(Put(blocks, x), images)
  {
    LastSpeaks(base, blocks, x, images);
    if GoesOn(blocks, x) {
      MoreOfBlock(blocks[|blocks| - 1], x, images);
      ReplacesLast(base, blocks, blocks[|blocks| - 1] + [x], images);
    } else {
      FirstOfBlock(x, images);
      AddsLast(base, blocks, [x], images);
    }
  }

  lemma AssistantTells(base: seq<ChatMessage>, blocks: seq<seq<Said>>, x: Said, names: map<string, string>,
                       images: Images)
    requires IsBase(base) && AllRuns(blocks) && IsAssistants(x.event)
    ensures Spoken(base + Messages(blocks, images), names, x.event) == base + Messages(Put(blocks, x), images)
  {
    match x.event
    case TextDelta(_, _) => TextTells(base, blocks, x, images);
    case ReasoningDelta(_, _) => ReasoningTells(base, blocks, x, images);
    case ToolProposed(_, _, _, _) => CallTells(base, blocks, x, images);
  }

  // ---------- The other events ----------

  predicate StandsAlone(e: AppEvent) {
    || e.PromptAccepted? || e.SteeringApplied? || e.ToolOutput? || e.TurnCancelled?
    || (e.ErrorRaised? && e.failedTurn.Some?)
  }

  lemma LoneTells(base: seq<ChatMessage>, blocks: seq<seq<Said>>, x: Said, names: map<string, string>, images: Images)
    requires StandsAlone(x.event) && (x.event.ToolOutput? ==> NameOf(names, x.event.callId) == x.name)
    ensures Spoken(base + Messages(blocks, images), names, x.event) == base + Messages(Put(blocks, x), images)
  {
    AddsLast(base, blocks, [x], images);
  }

  lemma ImageTells(base: seq<ChatMessage>, blocks: seq<seq<Said>>, x: Said, image: string, images: Images)
    requires x.event.ToolCompleted? && images.view(images.idIn(x.view)) == Some(image)
    ensures base + Messages(blocks, images) + [ImageObservation(x.event.callId, [image])]
            == base + Messages(Put(blocks, x), images)
  {
    AddsLast(base, blocks, [x], images);
  }

  // ---------- The replay ----------

  /** The blocks of everything said in the events. */
  function BlocksOf(events: seq<AppEvent>): seq<seq<Said>> {
    Blocks(SaidIn(events))
  }

  lemma BlocksOneMore(events: seq<AppEvent>, e: AppEvent)
    ensures AllRuns(BlocksOf(events))
    ensures BlocksOf(events + [e])
            == if SaidBy(events, e) == [] then BlocksOf(events) else Put(BlocksOf(events), SaidBy(events, e)[0])
  {
    BlocksAreRuns(SaidIn(events));
    var said := SaidIn(events);
    assert (events + [e])[..|events|] == events;
    if SaidBy(events, e) == [] {
      assert said + [] == said;
    } else {
      var x := SaidBy(events, e)[0];
      assert SaidBy(events, e) == [x] && (said + [x])[..|said|] == said;
    }
  }

  /** The replay knows the tool and the image of a call. */
  predicate KnowsCall(r: Replay, images: Images, events: seq<AppEvent>, id: string) {
    && NameOf(r.toolNames, id) == NameIn(events, id)
    && (id in r.viewed <==> ViewIn(events, id).Some?)
    && (id in r.viewed ==> r.viewed[id] == images.idIn(ViewIn(events, id).value))
  }

  ghost predicate Knows(r: Replay, images: Images, events: seq<AppEvent>) {
    forall id :: KnowsCall(r, images, events, id)
  }

  lemma NameAfter(events: seq<AppEvent>, e: AppEvent, id: string)
    ensures NameIn(events + [e], id) == if e.ToolProposed? && e.callId == id then e.name else NameIn(events, id)
    ensures ViewIn(events + [e], id)
            == if e.ToolProposed? && e.callId == id && e.name == "view_image" then Some(e.arguments)
               else if e.ToolCompleted? && e.callId == id then None else ViewIn(events, id)
  {
    assert (events + [e])[..|events|] == events;
  }

  /** The marks of a replay after an event. */
  lemma MarksAfter(r: Replay, images: Images, e: AppEvent)
    requires !e.ContextCompacted? && Step(r, images, e).Ok?
    ensures var next := Step(r, images, e).value;
            && next.toolNames == (if e.ToolProposed? then r.toolNames[e.callId := e.name] else r.toolNames)
            && next.viewed == if e.ToolCompleted? then r.viewed - {e.callId}
                              else if e.ToolProposed? && e.name == VIEW_IMAGE
                              then r.viewed[e.callId := images.idIn(e.arguments)] else r.viewed
  {
  }

  lemma StepKnows(r: Replay, images: Images, events: seq<AppEvent>, e: AppEvent)
    requires Knows(r, images, events) && !e.ContextCompacted? && Step(r, images, e).Ok?
    ensures Knows(Step(r, images, e).value, images, events + [e])
  {
    MarksAfter(r, images, e);
    var next := Step(r, images, e).value;
    forall id
      ensures KnowsCall(next, images, events + [e], id)
    {
      assert KnowsCall(r, images, events, id);
      NameAfter(events, e, id);
    }
  }

  lemma CompletionSays(r: Replay, base: seq<ChatMessage>, images: Images, events: seq<AppEvent>, e: AppEvent)
    requires Knows(r, images, events) && r.messages == base + Messages(BlocksOf(events), images)
    requires e.ToolCompleted? && Step(r, images, e).Ok?
    ensures Step(r, images, e).value.messages == base + Messages(BlocksOf(events + [e]), images)
  {
    BlocksOneMore(events, e);
    var view := ViewIn(events, e.callId);
    assert KnowsCall(r, images, events, e.callId);
    if e.success && view.Some? {
      assert r.viewed[e.callId] == images.idIn(view.value);
      ImageTells(base, BlocksOf(events), SaidBy(events, e)[0], images.view(r.viewed[e.callId]).value, images);
    }
  }

  lemma NotedSays(r: Replay, base: seq<ChatMessage>, images: Images, events: seq<AppEvent>, e: AppEvent)
    requires IsBase(base) && Knows(r, images, events) && !e.ToolCompleted? && !e.ContextCompacted?
    ensures Spoken(base + Messages(BlocksOf(events), images), r.toolNames, e)
            == base + Messages(BlocksOf(events + [e]), images)
  {
    BlocksOneMore(events, e);
    if IsAssistants(e) {
      assert SaidBy(events, e) == [Said(e, "", "")];
      AssistantTells(base, BlocksOf(events), Said(e, "", ""), r.toolNames, images);
    } else if StandsAlone(e) {
      assert e.ToolOutput? ==> KnowsCall(r, images, events, e.callId);
      LoneTells(base, BlocksOf(events), SaidBy(events, e)[0], r.toolNames, images);
    }
  }

  lemma StepSays(r: Replay, base: seq<ChatMessage>, images: Images, events: seq<AppEvent>, e: AppEvent)
    requires IsBase(base) && Knows(r, images, events) && r.messages == base + Messages(BlocksOf(events), images)
    requires !e.ContextCompacted? && Step(r, images, e).Ok?
    ensures Step(r, images, e).value.messages == base + Messages(BlocksOf(events + [e]), images)
  {
    if e.ToolCompleted? {
      CompletionSays(r, base, images, events, e);
    } else {
      NotedSays(r, base, images, events, e);
      assert Step(r, images, e) == Ok(Noted(r, images, e));
    }
  }

  /** Behind a list on which nobody is speaking, a replay adds one message for each block. */
  lemma {:induction false} StepsSay(r: Replay, images: Images, events: seq<AppEvent>)
    requires IsBase(r.messages) && r.toolNames == map[] && r.viewed == map[]
    requires (forall i | 0 <= i < |events| :: !events[i].ContextCompacted?) && Steps(r, images, events).Ok?
    ensures Knows(Steps(r, images, events).value, images, events)
    ensures Steps(r, images, events).value.messages == r.messages + Messages(BlocksOf(events), images)
  {
    if events == [] {
      assert r.messages + Messages(BlocksOf(events), images) == r.messages;
    } else {
      var n := |events| - 1;
      assert events[..n] + [events[n]] == events;
      StepsConcat(r, images, events[..n], [events[n]]);
      StepsSay(r, images, events[..n]);
      var mid := Steps(r, images, events[..n]).value;
      OneStep(mid, images, events[n]);
      StepSays(mid, r.messages, images, events[..n], events[n]);
      StepKnows(mid, images, events[..n], events[n]);
    }
  }

  lemma OneStep(r: Replay, images: Images, e: AppEvent)
    ensures Steps(r, images, [e]) == Step(r, images, e)
  {
    assert [e][1..] == [];
    if Step(r, images, e).Ok? {
      assert Steps(Step(r, images, e).value, images, []) == Step(r, images, e);
    }
  }

  // ---------- Main results ----------

  predicate HasNoCompaction(events: seq<AppEvent>) {
    forall i | 0 <= i < |events| :: !events[i].ContextCompacted?
  }

  /** The note a crash leaves behind the conversation. */
  const CRASH_NOTE := ChatMessage(System, "[PROCESS ENDED]", [], [], None, None, [])

  lemma Titled(r: Replay, rest: seq<ChatMessage>, first: ChatMessage, system: string)
    requires r.messages == [first] + rest
    ensures var titled := [ChatMessage(System, system, [], [], None, None, [])] + rest;
            Close(r, system) == titled || Close(r, system) == titled + [CRASH_NOTE]
  {
    assert r.messages[0 := TextMessage(System, system)] == [TextMessage(System, system)] + rest;
    assert [TextMessage(System, system)] + rest + [] == [TextMessage(System, system)] + rest;
  }

  /**
   A conversation that was never compacted restores to the system text, then one message for each
   block of what its journal says, in order, then at most the note about a crash.
   */
  lemma RestoredSays(images: Images, events: seq<AppEvent>, system: string)
    requires HasNoCompaction(events) && Steps(START, images, events).Ok?
    ensures var said := [ChatMessage(System, system, [], [], None, None, [])] + Messages(BlocksOf(events), images);
            && Restored(images, events, system).Ok?
            && (|| Restored(images, events, system).value == said
                || Restored(images, events, system).value == said + [CRASH_NOTE])
  {
    StepsSay(START, images, events);
    Titled(Steps(START, images, events).value, Messages(BlocksOf(events), images), START.messages[0], system);
  }

  /** The message a compaction leaves standing behind its summary: the last one, if it was the
      user's and a turn is under way. */
  function LeftStanding(images: Images, before: seq<AppEvent>): seq<ChatMessage>
    requires Steps(START, images, before).Ok?
  {
    var r := Steps(START, images, before).value;
    var n := |r.messages|;
    if n > 0 && r.messages[n - 1].role == User && r.activeTurns != {} then [r.messages[n - 1]] else []
  }

  /**
   A conversation that was compacted restores to the system text, the summary of its last
   compaction, the message left standing, and one message for each block of what was said since.
   */
  lemma RestoredSaysSince(images: Images, before: seq<AppEvent>, summary: string, count: nat, since: seq<AppEvent>,
                          system: string)
    requires HasNoCompaction(since) && Steps(START, images, before).Ok?
    requires Steps(START, images, before + [ContextCompacted(summary, count)] + since).Ok?
    ensures var restored := Restored(images, before + [ContextCompacted(summary, count)] + since, system);
            && restored.Ok? && |restored.value| >= 2 && StandsFor(restored.value[..2], system, summary)
            && var said := restored.value[..2] + LeftStanding(images, before) + Messages(BlocksOf(since), images);
               restored.value == said || restored.value == said + [CRASH_NOTE]
  {
    var r, e := Steps(START, images, before).value, ContextCompacted(summary, count);
    StepsConcat(START, images, before + [e], since);
    StepsConcat(START, images, before, [e]);
    OneStep(r, images, e);
    var compacted := AfterCompaction(r, summary);
    assert Steps(START, images, before + [e]) == Ok(compacted);
    StepsSay(compacted, images, since);
    SummaryThenRest(images, compacted, Steps(compacted, images, since).value, LeftStanding(images, before),
                    Messages(BlocksOf(since), images), summary, system);
  }

  lemma SummaryThenRest(images: Images, compacted: Replay, r: Replay, standing: seq<ChatMessage>,
                        said: seq<ChatMessage>, summary: string, system: string)
    requires compacted.messages == CompactedHistory("", summary) + standing && r.messages == compacted.messages + said
    ensures var restored := Close(r, system);
            && |restored| >= 2 && StandsFor(restored[..2], system, summary)
            && (|| restored == restored[..2] + standing + said
                || restored == restored[..2] + standing + said + [CRASH_NOTE])
  {
    var head := CompactedHistory(system, summary);
    var rest := [head[1]] + standing + said;
    assert r.messages == [CompactedHistory("", summary)[0]] + rest;
    Titled(r, rest, CompactedHistory("", summary)[0], system);
    CompactedHistoryTells(system, summary);
    assert [head[0]] + rest == head + standing + said;
    assert (head + standing + said)[..2] == head && (head + standing + said + [CRASH_NOTE])[..2] == head;
  }

  /** The message of an output or of an image says so. */
  lemma MessageTells(block: seq<Said>, images: Images)
    requires block != []
    ensures var m, e := MessageOf(block, images), block[0].event;
            && (e.PromptAccepted? ==> SaysPrompt(m, e.text, e.attachments))
            && (e.ToolOutput? ==> SaysOutput(m, e.callId, block[0].name, e.content))
            && (e.ToolCompleted? && images.view(images.idIn(block[0].view)).Some? ==>
                  ShowsImages(m, e.callId, [images.view(images.idIn(block[0].view)).value]))
            && (e.TurnCancelled? || e.ErrorRaised? ==>
                  m == ChatMessage(System, "[INTERRUPTED TURN]", [], [], None, None, []))
  {
    match block[0].event
    case PromptAccepted(_, text, attachments) => UserMessageTells(text, attachments);
    case ToolOutput(id, content) => ToolReplyTells(id, block[0].name, content);
    case ToolCompleted(id, _) =>
      var image := images.view(images.idIn(block[0].view));
      ImageObservationTells(id, if image.Some? then [image.value] else []);
    case _ =>
  }
}
