/**
 A restart agrees with the running engine after a compaction: the lists that the turn loop and
 the engine's own compaction produce are the ones their journals restore.
 */
module LiveReplay {
  import opened Prelude
  import opened Vocabulary
  import opened KernelModel
  import opened Chat
  import opened AgentLoop
  import opened History
  import opened Compaction

  // ---------- Compaction before the first request of a turn ----------

  /** What a turn has done when it has compacted and taken its prompt. */
  lemma OpeningIsLive(history: seq<ChatMessage>, prompt: ChatMessage, turn: TurnId, notices: seq<AppEvent>,
      summary: string)
    requires |history| > 1
    ensures var live := TurnOf(history, prompt, turn, Compacting.Compacts(notices, summary), []);
            && live.messages == LiveAfterCompaction(SystemText(history), summary, prompt)
            && live.events == notices + [ContextCompacted(summary, |history| - 1)]
            && live.verdict == Going
  {
    assert [] + notices == notices;
  }

  lemma CallingGrows(t: Turn, turn: TurnId, s: ScriptedCall)
    ensures t.events <= Calling(t, turn, s).events
  {
    var noted := t.(lastCall := Some(Signature(s.call)));
    if !s.steered && t.lastCall != Some(Signature(s.call)) && s.malformed.None? {
      AuthorizingGrows(noted, turn, s);
    }
  }

  lemma AuthorizingGrows(t: Turn, turn: TurnId, s: ScriptedCall)
    ensures t.events <= Authorizing(t, turn, s).events
  {
    var asked := Emitting(Emitting(t, [ToolProposed(turn, s.call.id, s.call.name, s.call.arguments)]),
                          Approvals.AuthorizeOf(s.authorization).0);
    assert t.events <= asked.events;
    if Approvals.AuthorizeOf(s.authorization).1.Ok? {
      ExecutingGrows(asked, s.call, s.result);
    }
  }

  lemma QuestioningGrows(t: Turn, call: ToolCall, r: ToolResult, q: Question)
    ensures t.events <= Questioning(t, call, r, q).events
  {
  }

  lemma ExecutingGrows(t: Turn, call: ToolCall, result: ToolResult)
    ensures t.events <= Executing(t, call, result).events
  {
    var started := Emitting(t, [ToolStarted(call.id, call.name)]);
    var r := Limited(started, result);
    var observed := Emitting(Observing(started, call, r), r.events);
    assert t.events <= observed.events;
    if r.question.Some? {
      QuestioningGrows(observed, call, r, r.question.value);
    }
  }

  lemma {:induction false} CallingAllGrows(t: Turn, turn: TurnId, calls: seq<ScriptedCall>)
    ensures t.events <= CallingAll(t, turn, calls).events
    decreases |calls|
  {
    if calls != [] && t.verdict == Going {
      CallingGrows(t, turn, calls[0]);
      CallingAllGrows(Calling(t, turn, calls[0]), turn, calls[1..]);
    }
  }

  lemma RepliedGrows(t: Turn, turn: TurnId, r: ModelReply)
    ensures t.events <= Replied(t, turn, r).events
  {
    if r.Says? && r.calls != [] {
      var assistant := TextMessage(Assistant, r.text).(reasoning := r.reasoning, toolCalls := CallsOf(r.calls));
      var said := Pushing(Emitting(t, r.stream), [assistant]);
      CallingAllGrows(said.(observations := [], imageCount := CountImages(said.messages)), turn, r.calls);
    }
  }

  lemma SteppingGrows(t: Turn, turn: TurnId, s: Step)
    ensures t.events <= Stepping(t, turn, s).events
  {
    var compacted := MidTurn(t, s.compacting);
    assert t.events <= compacted.events;
    if s.halt.None? && compacted.verdict == Going && s.overBudget.None? {
      var steered := Steered(compacted, turn, s.steering);
      assert compacted.events <= steered.events;
      RepliedGrows(steered.(requests := steered.requests + [steered.messages]), turn, s.reply);
    }
  }

  /** A turn never takes back an event. */
  lemma {:induction false} SteppingAllGrows(t: Turn, turn: TurnId, steps: seq<Step>)
    ensures t.events <= SteppingAll(t, turn, steps).events
    decreases |steps|
  {
    if steps != [] && t.verdict == Going {
      SteppingGrows(t, turn, steps[0]);
      SteppingAllGrows(Stepping(t, turn, steps[0]), turn, steps[1..]);
    }
  }

  /**
   A turn compacts before its first request, and goes on in any way. Restoring the journal of the
   whole turn is replaying what came after the compaction on the very list the turn then held,
   with this turn and those that died before it active.
   */
  lemma OpeningCompactionAgrees(images: Images, before: seq<AppEvent>, turn: TurnId, text: string,
                                attachments: seq<Attachment>, history: seq<ChatMessage>, notices: seq<AppEvent>,
                                summary: string, steps: seq<Step>, system: string)
    requires Steps(START, images, before).Ok?
    requires |history| > 1 && forall e | e in notices :: IsPreparation(e)
    ensures var prompt := UserMessage(text, attachments);
            var live := TurnOf(history, prompt, turn, Compacting.Compacts(notices, summary), []);
            var whole := TurnOf(history, prompt, turn, Compacting.Compacts(notices, summary), steps);
            && live.events <= whole.events
            && Restored(images, before + TurnOpening(turn, text, attachments) + whole.events, system)
               == match Steps(Replay(live.messages, ActiveAfter(images, before) + {turn}, {}, map[], map[]), images,
                             whole.events[|live.events|..])
                  case Ok(r) => Ok(Close(r, system))
                  case Err(error) => Err(error)
  {
    var prompt := UserMessage(text, attachments);
    var opening := TurnOpening(turn, text, attachments);
    var live := TurnOf(history, prompt, turn, Compacting.Compacts(notices, summary), []);
    var whole := TurnOf(history, prompt, turn, Compacting.Compacts(notices, summary), steps);
    OpeningIsLive(history, prompt, turn, notices, summary);
    SteppingAllGrows(live, turn, steps);
    var rest := whole.events[|live.events|..];
    JournalOfOpening(before, opening, notices, ContextCompacted(summary, |history| - 1), live.events, rest,
                     whole.events);
    ReplaysOnLive(images, before, turn, text, attachments, notices, summary, |history| - 1, rest, system,
                  SystemText(history));
  }

  lemma JournalOfOpening(before: seq<AppEvent>, opening: seq<AppEvent>, notices: seq<AppEvent>, e: AppEvent,
                         live: seq<AppEvent>, rest: seq<AppEvent>, whole: seq<AppEvent>)
    requires live == notices + [e] && live <= whole && rest == whole[|live|..]
    ensures before + opening + whole == before + opening + notices + [e] + rest
  {
    assert whole == live + rest;
  }

  /** A crash right after that compaction restores the list the turn held and the crash note. */
  lemma CrashAfterOpeningCompaction(images: Images, before: seq<AppEvent>, turn: TurnId, text: string,
                                    attachments: seq<Attachment>, history: seq<ChatMessage>, notices: seq<AppEvent>,
                                    summary: string, system: string)
    requires Steps(START, images, before).Ok?
    requires |history| > 1 && forall e | e in notices :: IsPreparation(e)
    ensures var prompt := UserMessage(text, attachments);
            var live := TurnOf(history, prompt, turn, Compacting.Compacts(notices, summary), []);
            Restored(images, before + TurnOpening(turn, text, attachments) + live.events, system)
            == Ok([TextMessage(System, system)] + live.messages[1..] + [CRASHED])
  {
    var prompt := UserMessage(text, attachments);
    var live := TurnOf(history, prompt, turn, Compacting.Compacts(notices, summary), []);
    OpeningCompactionAgrees(images, before, turn, text, attachments, history, notices, summary, [], system);
    assert live.events[|live.events|..] == [];
    OpeningIsLive(history, prompt, turn, notices, summary);
    assert live.messages[0 := TextMessage(System, system)] == [TextMessage(System, system)] + live.messages[1..];
  }

  // ---------- Compaction on request ----------

  lemma SummaryIsNotBlank(f: Format, plan: Plan, replies: seq<Compaction.Reply>, text: string)
    requires SummarizedBy(f, plan, replies, text) && GoodReplies(replies, |plan.inputs|, Min(plan.budget / 4, 0x8000))
    ensures !IsBlank(text)
  {
    var summary := replies[|plan.inputs| - 1].text;
    var c :| c in summary && !IsWhitespace(c);
    assert c in text;
  }

  /** Record what a compaction emits, one event at a time; a session that is not loaded takes none. */
  method EmitAll(kernel: Kernel, id: SessionId, correlation: CorrelationId, origin: Origin, emitted: seq<AppEvent>)
    returns (done: bool, written: seq<EventEnvelope>)
    requires forall e | e in emitted :: IsPreparation(e)
    modifies kernel
    ensures kernel.View().sessions == old(kernel.View().sessions)
    ensures done <==> emitted == [] || id in kernel.View().sessions
    ensures EventsOf(written) == if done then emitted else []
  {
    written := [];
    for i := 0 to |emitted|
      invariant kernel.View().sessions == old(kernel.View().sessions)
      invariant EventsOf(written) == emitted[..i] && (i > 0 ==> id in kernel.View().sessions)
    {
      assert emitted[i] in emitted;
      var envelope := kernel.Record(id, correlation, origin, emitted[i]);
      if envelope.Err? {
        return false, [];
      }
      WritesOneMore(written, envelope.value, emitted, i);
      written := written + [envelope.value];
    }
    assert emitted[..|emitted|] == emitted;
    done := true;
  }

  lemma WritesOneMore(written: seq<EventEnvelope>, envelope: EventEnvelope, emitted: seq<AppEvent>, i: nat)
    requires i < |emitted| && EventsOf(written) == emitted[..i] && envelope.event == emitted[i]
    ensures EventsOf(written + [envelope]) == emitted[..i + 1]
  {
    assert |written| == i && forall j | 0 <= j < i :: written[j].event == emitted[..i][j];
  }

  /** A ready session takes the record of a compaction, any other refuses it. */
  method Record(kernel: Kernel, id: SessionId, correlation: CorrelationId, origin: Origin, summary: string, count: nat)
    returns (r: Result<seq<EventEnvelope>>)
    requires !IsBlank(summary)
    modifies kernel
    ensures r.Ok? <==> id in old(kernel.View().sessions) && old(kernel.View().sessions)[id].lifecycle == Ready
    ensures r.Ok? ==> EventsOf(r.value) == [ContextCompacted(summary, count)]
    ensures kernel.View().sessions == old(kernel.View().sessions)
  {
    ghost var before := kernel.View().sessions;
    r := kernel.Apply(CommandEnvelope(correlation, origin, false, RecordContextCompaction(id, summary, count)));
    if id in before {
      assert before[id := before[id]] == before;
    }
  }

  lemma EmittedThenRecorded(journal: seq<AppEvent>, emitted: seq<AppEvent>, e: AppEvent,
                            written: seq<EventEnvelope>, recorded: seq<EventEnvelope>)
    requires EventsOf(written) == emitted && EventsOf(recorded) == [e]
    ensures journal + EventsOf(written + recorded) == journal + emitted + [e]
  {
    assert EventsOf(written + recorded) == EventsOf(written) + EventsOf(recorded);
  }

  /** Events that leave a replay alone restore to the same conversation and end no turn. */
  lemma PreparationRestoresSame(images: Images, journal: seq<AppEvent>, emitted: seq<AppEvent>, system: string)
    requires Steps(START, images, journal).Ok? && forall e | e in emitted :: IsPreparation(e)
    ensures Steps(START, images, journal + emitted) == Steps(START, images, journal)
    ensures Restored(images, journal + emitted, system) == Restored(images, journal, system)
    ensures EveryTurnEnded(journal + emitted) <==> EveryTurnEnded(journal)
  {
    StepsConcat(START, images, journal, emitted);
    PreparationIsSilent(Steps(START, images, journal).value, images, emitted);
    NoTurnActiveExactly(images, journal);
    NoTurnActiveExactly(images, journal + emitted);
  }

  /**
   Compact a conversation on request, and record it; `written` is what the journal gains. When the
   record is taken, a restart finds the list the engine now holds, apart from the system text, if
   and only if every turn of the journal has ended. When anything fails a restart finds what it
   would have found before; the engine has then still moved on if only the record was refused.
   */
  method CompactAndRecord(engine: AgentEngine, kernel: Kernel, id: SessionId, correlation: CorrelationId,
                          origin: Origin, budget: nat, focus: Option<string>, replies: seq<Compaction.Reply>,
                          emitted: seq<AppEvent>, ghost images: Images, ghost journal: seq<AppEvent>,
                          ghost system: string)
    returns (r: Result<()>, written: seq<EventEnvelope>)
    requires WritesSomething(engine.format) && forall e | e in emitted :: IsPreparation(e)
    requires Steps(START, images, journal).Ok?
    modifies engine, kernel
    ensures r.Ok? <==>
            && id in old(engine.histories)
            && MayCompact(engine.format, old(engine.histories)[id], budget, focus, replies)
            && id in old(kernel.View().sessions) && old(kernel.View().sessions)[id].lifecycle == Ready
    ensures kernel.View().sessions == old(kernel.View().sessions)
    ensures id !in old(engine.histories)
            || !MayCompact(engine.format, old(engine.histories)[id], budget, focus, replies)
            || (emitted != [] && id !in old(kernel.View().sessions)) ==>
              engine.histories == old(engine.histories)
    ensures r.Ok? ==>
              var restored := Restored(images, journal + EventsOf(written), system);
              && id in engine.histories && engine.histories[id] != [] && restored.Ok?
              && (restored.value == [TextMessage(System, system)] + engine.histories[id][1..]
                  <==> EveryTurnEnded(journal))
    ensures r.Err? ==>
              Restored(images, journal + EventsOf(written), system) == Restored(images, journal, system)
  {
    PreparationRestoresSame(images, journal, [], system);
    PreparationRestoresSame(images, journal, emitted, system);
    assert journal + [] == journal;
    if id !in engine.histories {
      return Err(InvalidTransition), [];
    }
    ghost var history := engine.histories[id];
    var count := if engine.histories[id] == [] then 0 else |engine.histories[id]| - 1;
    var done;
    done, written := EmitAll(kernel, id, correlation, origin, emitted);
    if !done {
      return Err(SessionNotFound), written;
    }
    var compacted := engine.Compact(id, budget, focus, replies);
    if compacted.Err? {
      return Err(compacted.error), written;
    }
    SummaryIsNotBlank(engine.format, PlanFor(engine.format, history, budget), replies, compacted.value);
    var recorded := Record(kernel, id, correlation, origin, compacted.value, count);
    if recorded.Err? {
      return Err(recorded.error), written;
    }
    EmittedThenRecorded(journal, emitted, ContextCompacted(compacted.value, count), written, recorded.value);
    CompactionReplays(images, journal + emitted, compacted.value, count, system,
                      PlanFor(engine.format, history, budget).system);
    written := written + recorded.value;
    r := Ok(());
  }
}
