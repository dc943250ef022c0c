/**
 A conversation over many turns: turns that run to their end or are cut off, compactions on
 request, and restarts that rebuild the message list from the journal.
 */
module Conversations {
  import opened Prelude
  import opened Vocabulary
  import opened Chat
  import opened Pairing
  import opened AgentLoop
  import opened AgentTurns
  import opened History
  import opened Readings
  import opened TurnReadings
  import opened TurnContents

  /** The list the engine has stored, the journal, and every request sent so far. */
  datatype Conversation = Conversation(
    history: seq<ChatMessage>,
    journal: seq<AppEvent>,
    requests: seq<seq<ChatMessage>>)

  const EMPTY := Conversation([], [], [])

  /**
   A turn stores its list `saves` times and emits `emitted` events before it ends or is cut off,
   and is then recorded as ended or not. A compaction replaces the stored list, and is recorded or
   not. A restart replaces the list by the one its journal restores.
   */
  datatype Act =
    | TakeTurn(turn: TurnId, text: string, attachments: seq<Attachment>, system: string, compacting: Compacting,
               steps: seq<Step>, emitted: nat, saves: nat, ending: seq<AppEvent>)
    | Compact(notices: seq<AppEvent>, summary: string, recorded: bool)
    | Restart(images: Images, system: string)

  /** A turn begins by writing the system text of the day. */
  function Refreshed(history: seq<ChatMessage>, system: string): seq<ChatMessage> {
    if history != [] && history[0].role == System then history[0 := history[0].(content := system)]
    else [TextMessage(System, system)] + history
  }

  function TurnIn(c: Conversation, a: Act): Turn
    requires a.TakeTurn?
  {
    TurnOf(Refreshed(c.history, a.system), UserMessage(a.text, a.attachments), a.turn, a.compacting, a.steps)
  }

  /** What the calls of a turn may be, and where it may be cut off. */
  predicate Possible(c: Conversation, a: Act) {
    match a
    case TakeTurn(_, _, _, system, compacting, steps, emitted, saves, ending) =>
      && emitted <= |TurnIn(c, a).events| && saves <= |TurnIn(c, a).saved| && IsEnding(ending)
      && SilentCompacting(compacting) && (forall i | 0 <= i < |steps| :: SilentStep(steps[i]))
      && FreshSteps(steps, AnsweredIds(Refreshed(c.history, system)))
    case Compact(notices, _, _) => AllSilent(notices)
    case Restart(images, _) => Steps(START, images, c.journal).Ok?
  }

  /** The journal was not cut off between a proposed call and its output. */
  predicate OutsideCalls(c: Conversation, a: Act)
    requires Possible(c, a)
  {
    a.TakeTurn? ==> !CallOpen(TurnIn(c, a).events[..a.emitted])
  }

  function After(c: Conversation, a: Act): Conversation
    requires Possible(c, a)
  {
    match a
    case TakeTurn(turn, text, attachments, _, _, _, emitted, saves, ending) =>
      var t := TurnIn(c, a);
      Conversation(if saves == 0 then c.history else t.saved[saves - 1],
                   c.journal + TurnOpening(turn, text, attachments) + t.events[..emitted] + ending,
                   c.requests + t.requests)
    case Compact(notices, summary, recorded) =>
      if |c.history| <= 1 then c
      else c.(history := CompactedHistory(SystemText(c.history), summary),
              journal := c.journal + notices
                         + if recorded then [CompactionEvent(c.history, summary)] else [])
    case Restart(images, system) => c.(history := Restored(images, c.journal, system).value)
  }

  /** Every act was possible when it came, and no turn was cut off inside a call. */
  predicate RunOk(acts: seq<Act>)
    decreases |acts|, 0
  {
    acts != [] ==>
      var rest, a := acts[..|acts| - 1], acts[|acts| - 1];
      RunOk(rest) && Possible(RunOf(rest), a) && OutsideCalls(RunOf(rest), a)
  }

  function RunOf(acts: seq<Act>): Conversation
    requires RunOk(acts)
    decreases |acts|, 1
  {
    if acts == [] then EMPTY else After(RunOf(acts[..|acts| - 1]), acts[|acts| - 1])
  }

  // ---------- What every act keeps ----------

  predicate Sound(c: Conversation) {
    AllPaired(c.requests) && Paired(c.history) && ReadAll(NOTHING_READ, c.journal).waiting == Some([])
  }

  /** Pairing looks at roles and call ids, not at texts. */
  lemma {:induction false} RetitledAwaits(messages: seq<ChatMessage>, content: string)
    requires messages != []
    ensures Awaiting(messages[0 := messages[0].(content := content)]) == Awaiting(messages)
  {
    var n := |messages| - 1;
    var changed := messages[0 := messages[0].(content := content)];
    if n > 0 {
      RetitledAwaits(messages[..n], content);
      assert changed[..n] == messages[..n][0 := messages[0].(content := content)];
    }
  }

  lemma {:induction false} TitledAwaits(title: ChatMessage, messages: seq<ChatMessage>)
    requires IsPlainMessage(title)
    ensures Awaiting([title] + messages) == Awaiting(messages)
  {
    if messages == [] {
      assert [title] + messages == [] + [title];
      PushAwaits([], title);
    } else {
      var n := |messages| - 1;
      TitledAwaits(title, messages[..n]);
      assert [title] + messages == [title] + messages[..n] + [messages[n]];
      PushAwaits([title] + messages[..n], messages[n]);
    }
  }

  /** Only the system text is written anew. */
  lemma RefreshedTells(history: seq<ChatMessage>, system: string)
    ensures var list := Refreshed(history, system);
            && list != [] && list[0].role == System && list[0].content == system
            && list[1..] == if history != [] && history[0].role == System then history[1..] else history
  {
  }

  lemma RefreshedIsPaired(history: seq<ChatMessage>, system: string)
    requires Paired(history)
    ensures Paired(Refreshed(history, system))
  {
    if history != [] && history[0].role == System {
      RetitledAwaits(history, system);
    } else {
      TitledAwaits(TextMessage(System, system), history);
    }
  }

  lemma TurnKeepsPaired(c: Conversation, a: Act)
    requires Paired(c.history) && a.TakeTurn? && Possible(c, a)
    ensures Paired(After(c, a).history) && AllPaired(TurnIn(c, a).requests)
  {
    RefreshedIsPaired(c.history, a.system);
    TurnIsPaired(Refreshed(c.history, a.system), UserMessage(a.text, a.attachments), a.turn, a.compacting, a.steps);
  }

  lemma TurnKeepsJournal(c: Conversation, a: Act)
    requires Sound(c) && a.TakeTurn? && Possible(c, a)
    ensures ReadAll(NOTHING_READ, After(c, a).journal).waiting == Some([]) <==> OutsideCalls(c, a)
  {
    CutTurnReads(c.journal, a.turn, a.text, a.attachments, Refreshed(c.history, a.system), a.compacting, a.steps,
                 a.emitted, a.ending);
  }

  lemma CompactKeepsJournal(journal: seq<AppEvent>, notices: seq<AppEvent>, e: AppEvent)
    requires ReadAll(NOTHING_READ, journal).waiting == Some([]) && AllSilent(notices) && e.ContextCompacted?
    ensures ReadAll(NOTHING_READ, journal + notices + []).waiting == Some([])
    ensures ReadAll(NOTHING_READ, journal + notices + [e]).waiting == Some([])
  {
    ReadConcat(NOTHING_READ, journal, notices);
    SilenceReads(ReadAll(NOTHING_READ, journal), notices);
    ReadConcat(NOTHING_READ, journal + notices, [e]);
    assert journal + notices + [] == journal + notices && [e][1..] == [];
  }

  lemma ActKeepsSound(c: Conversation, a: Act)
    requires Sound(c) && Possible(c, a) && OutsideCalls(c, a)
    ensures Sound(After(c, a))
  {
    match a
    case TakeTurn(_, _, _, _, _, _, _, _, _) =>
      TurnKeepsPaired(c, a);
      TurnKeepsJournal(c, a);
    case Compact(notices, summary, _) =>
      CompactedIsPaired(SystemText(c.history), summary);
      CompactKeepsJournal(c.journal, notices, CompactionEvent(c.history, summary));
    case Restart(images, system) =>
      RestoredPairsExactly(images, c.journal, system);
  }

  /**
   Over every conversation, with any number of turns that end in any way or are cut off outside a
   call, compactions recorded or not, and restarts anywhere: every request ever sent and the list
   held now are paired, and so is what a restart now would restore.
   */
  lemma {:induction false} ConversationStaysPaired(acts: seq<Act>)
    requires RunOk(acts)
    ensures forall i | 0 <= i < |RunOf(acts).requests| :: Paired(RunOf(acts).requests[i])
    ensures Sound(RunOf(acts))
  {
    if acts == [] {
    } else {
      ConversationStaysPaired(acts[..|acts| - 1]);
      ActKeepsSound(RunOf(acts[..|acts| - 1]), acts[|acts| - 1]);
    }
  }

  /**
   The condition is exact: after any such conversation, a turn and a restart leave a paired list
   if and only if the turn was not cut off inside a call.
   */
  lemma RestartAfterTurnPairsExactly(acts: seq<Act>, a: Act, images: Images, system: string)
    requires RunOk(acts) && a.TakeTurn? && Possible(RunOf(acts), a)
    requires Possible(After(RunOf(acts), a), Restart(images, system))
    ensures Paired(After(After(RunOf(acts), a), Restart(images, system)).history) <==> OutsideCalls(RunOf(acts), a)
  {
    var c := RunOf(acts);
    ConversationStaysPaired(acts);
    TurnKeepsJournal(c, a);
    RestoredPairsExactly(images, After(c, a).journal, system);
  }

  // ---------- From one turn to the next ----------

  predicate BeginsWithSystem(messages: seq<ChatMessage>) {
    messages != [] && messages[0].role == System
  }

  lemma ReplyKeepsSystem(before: seq<ChatMessage>, r: ModelReply, next: Step, later: seq<ChatMessage>)
    requires BeginsWithSystem(before) && LeadsTo(before, r, next, later)
    ensures BeginsWithSystem(later)
  {
    var list :| AddsReply(before, list, r) && Sends(list, next, later);
    assert BeginsWithSystem(list);
  }

  lemma {:induction false} RequestsKeepSystem(history: seq<ChatMessage>, prompt: ChatMessage, c: Compacting,
                                              steps: seq<Step>, requests: seq<seq<ChatMessage>>, i: nat)
    requires BeginsWithSystem(history) && SentAll(history, prompt, c, steps, requests) && i < |requests|
    ensures BeginsWithSystem(requests[i])
  {
    if i == 0 {
      var list :| Opens(history, prompt, c, list) && AddsSteering(list, requests[0], steps[0].steering);
      assert BeginsWithSystem(list);
    } else {
      RequestsKeepSystem(history, prompt, c, steps, requests, i - 1);
      assert LeadsTo(requests[i - 1], steps[i - 1].reply, steps[i], requests[i]);
      ReplyKeepsSystem(requests[i - 1], steps[i - 1].reply, steps[i], requests[i]);
    }
  }

  /** The list that a completed turn leaves: its last request and its reply, or their compaction. */
  ghost predicate LeftBy(steps: seq<Step>, requests: seq<seq<ChatMessage>>, list: seq<ChatMessage>) {
    var n := |requests|;
    && 0 < n <= |steps| && steps[n - 1].reply.Says? && BeginsWithSystem(list)
    && AddsClosing(requests[n - 1], list, steps[n - 1].reply.text, steps[n - 1].reply.reasoning,
                   steps[n - 1].reply.closing)
  }

  lemma CompletedLeaves(history: seq<ChatMessage>, prompt: ChatMessage, turn: TurnId, c: Compacting, steps: seq<Step>)
    requires BeginsWithSystem(history) && TurnOf(history, prompt, turn, c, steps).verdict == Completed
    ensures var t := TurnOf(history, prompt, turn, c, steps);
            t.saved != [] && LeftBy(steps, t.requests, t.saved[|t.saved| - 1])
  {
    var requests := TurnOf(history, prompt, turn, c, steps).requests;
    TurnTells(history, prompt, turn, c, steps);
    RequestsKeepSystem(history, prompt, c, steps, requests, |requests| - 1);
  }

  /** The first request of a turn that finds this list. */
  ghost predicate GoesOnFrom(list: seq<ChatMessage>, b: Act, request: seq<ChatMessage>)
    requires b.TakeTurn?
  {
    && BeginsWithSystem(list) && b.steps != []
    && SendsFirst(list[0 := list[0].(content := b.system)], UserMessage(b.text, b.attachments), b.compacting,
                  b.steps[0], request)
  }

  lemma NextGoesOn(c: Conversation, b: Act)
    requires b.TakeTurn? && BeginsWithSystem(c.history) && TurnIn(c, b).requests != []
    ensures GoesOnFrom(c.history, b, TurnIn(c, b).requests[0])
  {
    TurnTells(Refreshed(c.history, b.system), UserMessage(b.text, b.attachments), b.turn, b.compacting, b.steps);
  }

  /**
   Nothing is forgotten between two turns: behind a turn that completed, the first request of the
   next is the last request of that turn and its reply, or the compaction of these, under the
   system text of the day, and then the new prompt and the steering.
   */
  lemma NextTurnContinues(c: Conversation, a: Act, b: Act)
    requires a.TakeTurn? && Possible(c, a) && b.TakeTurn? && Possible(After(c, a), b)
    requires TurnIn(c, a).verdict == Completed && a.saves == |TurnIn(c, a).saved|
    requires TurnIn(After(c, a), b).requests != []
    ensures exists list :: LeftBy(a.steps, TurnIn(c, a).requests, list)
                           && GoesOnFrom(list, b, TurnIn(After(c, a), b).requests[0])
  {
    CompletedLeaves(Refreshed(c.history, a.system), UserMessage(a.text, a.attachments), a.turn, a.compacting, a.steps);
    var next := After(c, a);
    assert LeftBy(a.steps, TurnIn(c, a).requests, next.history);
    NextGoesOn(next, b);
  }
}
