/**
 Journals and restarts. Several kernel runs share one journal per session: a crash loses the
 kernel and any suffix of any journal, and a session comes back only by restoring its journal.
 The main results are that a restored session is the live one with its volatile fields reset,
 and that no turn starts again after it has ended.
 */
module Journals {
  import opened Prelude
  import opened Vocabulary
  import opened KernelModel

  datatype System = System(kernel: KernelState, journals: map<SessionId, seq<EventEnvelope>>)

  datatype Action =
    | Client(op: Operation)
      // The process dies; of the journal of `id` at most the first `kept[id]` events survive.
    | Crash(kept: map<SessionId, nat>)
    | Restore(id: SessionId)

  const START := System(KernelState(map[], 0), map[])

  function JournalOf(sys: System, id: SessionId): seq<EventEnvelope> {
    if id in sys.journals then sys.journals[id] else []
  }

  function Surviving(journal: seq<EventEnvelope>, kept: nat): seq<EventEnvelope> {
    if kept <= |journal| then journal[..kept] else journal
  }

  /** Events a caller may not pass to `record`: the ones that end or start a turn or set durable fields. */
  predicate IsLifecycleEvent(e: AppEvent) {
    e.TurnStarted? || SetsDurableState(e)
  }

  predicate SetsDurableState(e: AppEvent) {
    TerminalTurn(e).Some? || e.PermissionProfileChanged? || e.DesktopAgentConfigured?
  }

  /** A session with a journal comes back by restoring it, and only turn events are recorded. */
  predicate Allowed(sys: System, a: Action) {
    match a
    case Client(Dispatch(request)) =>
      request.command.CreateSession? || request.command.ResumeSession? ==>
        request.command.sessionId in sys.kernel.sessions || JournalOf(sys, request.command.sessionId) == []
    case Client(Emit(_, _, e)) => !IsLifecycleEvent(e)
    case Crash(_) => true
    case Restore(_) => true
  }

  function After(sys: System, a: Action): System {
    match a
    case Client(op) =>
      var (kernel, published) := Perform(sys.kernel, op);
      System(kernel, sys.journals[Target(op) := JournalOf(sys, Target(op)) + published])
    case Crash(kept) =>
      System(KernelState(map[], 0),
             map id | id in sys.journals ::
               if id in kept then Surviving(sys.journals[id], kept[id]) else sys.journals[id])
    case Restore(id) =>
      match Project(JournalOf(sys, id))
      case Ok(restored) => sys.(kernel := Install(sys.kernel, restored))
      case Err(_) => sys
  }

  predicate RunAllowed(sys: System, run: seq<Action>)
    decreases |run|
  {
    run != [] ==> RunAllowed(sys, run[..|run| - 1]) && Allowed(RunFrom(sys, run[..|run| - 1]), run[|run| - 1])
  }

  function RunFrom(sys: System, run: seq<Action>): System {
    if run == [] then sys else After(RunFrom(sys, run[..|run| - 1]), run[|run| - 1])
  }

  // ---------- Journals ----------

  predicate Opens(e: AppEvent) {
    e.SessionCreated? || e.SessionResumed?
  }

  /** Journals are in sequence order. */
  ghost predicate Increasing(journal: seq<EventEnvelope>) {
    forall i, j | 0 <= i < j < |journal| :: journal[i].sequence < journal[j].sequence
  }

  /** No turn starts after it has ended. */
  ghost predicate Linear(journal: seq<EventEnvelope>) {
    forall i, j | 0 <= i < j < |journal| && TerminalTurn(journal[i].event).Some? ::
      journal[j].event != TurnStarted(TerminalTurn(journal[i].event).value)
  }

  function EndedBy(e: AppEvent): set<TurnId> {
    if TerminalTurn(e).Some? then {TerminalTurn(e).value} else {}
  }

  function EndedTurns(journal: seq<EventEnvelope>): set<TurnId> {
    if journal == [] then {} else EndedTurns(journal[..|journal| - 1]) + EndedBy(journal[|journal| - 1].event)
  }

  function LastSequence(journal: seq<EventEnvelope>): nat {
    if journal == [] then 0 else journal[|journal| - 1].sequence
  }

  /** The next envelope a journal may take. */
  predicate Grows(id: SessionId, journal: seq<EventEnvelope>, next: EventEnvelope) {
    && next.sessionId == id
    && LastSequence(journal) < next.sequence
    && (journal == [] ==> Opens(next.event))
    && (next.event.TurnStarted? ==> next.event.turnId !in EndedTurns(journal))
  }

  predicate JournalInv(id: SessionId, journal: seq<EventEnvelope>) {
    journal != [] ==>
      && JournalInv(id, journal[..|journal| - 1])
      && Grows(id, journal[..|journal| - 1], journal[|journal| - 1])
  }

  lemma {:induction false} JournalIncreases(id: SessionId, journal: seq<EventEnvelope>)
    requires JournalInv(id, journal)
    ensures Increasing(journal)
    ensures forall i | 0 <= i < |journal| :: journal[i].sequence <= LastSequence(journal)
  {
    if journal != [] {
      var prefix := journal[..|journal| - 1];
      JournalIncreases(id, prefix);
      forall i | 0 <= i < |journal| - 1
        ensures journal[i].sequence < LastSequence(journal)
      {
        assert prefix[i] == journal[i];
      }
      forall i, j | 0 <= i < j < |journal|
        ensures journal[i].sequence < journal[j].sequence
      {
        if j < |journal| - 1 {
          assert prefix[i] == journal[i] && prefix[j] == journal[j];
        }
      }
    }
  }

  lemma {:induction false} EndsAreEnded(journal: seq<EventEnvelope>, i: nat)
    requires i < |journal| && TerminalTurn(journal[i].event).Some?
    ensures TerminalTurn(journal[i].event).value in EndedTurns(journal)
  {
    if i < |journal| - 1 {
      EndsAreEnded(journal[..|journal| - 1], i);
    }
  }

  lemma {:induction false} JournalIsLinear(id: SessionId, journal: seq<EventEnvelope>)
    requires JournalInv(id, journal)
    ensures Increasing(journal) && Linear(journal)
  {
    JournalIncreases(id, journal);
    if journal != [] {
      var prefix := journal[..|journal| - 1];
      JournalIsLinear(id, prefix);
      forall i, j | 0 <= i < j < |journal| && TerminalTurn(journal[i].event).Some?
        ensures journal[j].event != TurnStarted(TerminalTurn(journal[i].event).value)
      {
        assert prefix[i] == journal[i];
        if j < |journal| - 1 {
          assert prefix[j] == journal[j];
        } else {
          EndsAreEnded(prefix, i);
        }
      }
    }
  }

  // ---------- Replay of durable fields ----------

  function ReplayOn(x: SessionState, e: AppEvent): SessionState {
    ReplayEvent(Some(x), x.id, e).value.value
  }

  function ReplayBatch(x: SessionState, events: seq<AppEvent>): SessionState {
    if events == [] then x else ReplayOn(ReplayBatch(x, events[..|events| - 1]), events[|events| - 1])
  }

  /** What an event does to the durable fields. */
  function DurableEffect(d: SessionState, e: AppEvent): SessionState {
    if TerminalTurn(e).Some? then d.(terminalTurns := d.terminalTurns + {TerminalTurn(e).value})
    else match e
      case PermissionProfileChanged(profile) => d.(profile := profile)
      case DesktopAgentConfigured(settings) =>
        d.(cwd := settings.workingDirectory, profile := ProfileForDesktopAgent(settings))
      case _ => d
  }

  function BatchEffect(d: SessionState, events: seq<AppEvent>): SessionState {
    if events == [] then d else DurableEffect(BatchEffect(d, events[..|events| - 1]), events[|events| - 1])
  }

  /** Replay of the durable fields reads the durable fields only. */
  lemma ReplayIgnoresVolatile(x: SessionState, e: AppEvent)
    ensures Reset(ReplayOn(x, e)) == DurableEffect(Reset(x), e)
  {
  }

  lemma {:induction false} ReplayBatchIgnoresVolatile(x: SessionState, events: seq<AppEvent>)
    ensures Reset(ReplayBatch(x, events)) == BatchEffect(Reset(x), events)
  {
    if events != [] {
      ReplayBatchIgnoresVolatile(x, events[..|events| - 1]);
      ReplayIgnoresVolatile(ReplayBatch(x, events[..|events| - 1]), events[|events| - 1]);
    }
  }

  lemma {:induction false} TransientBatch(d: SessionState, events: seq<AppEvent>)
    requires forall i | 0 <= i < |events| :: !SetsDurableState(events[i])
    ensures BatchEffect(d, events) == d
  {
    if events != [] {
      TransientBatch(d, events[..|events| - 1]);
    }
  }

  /** A command that changes durable fields emits one event, which says how. */
  lemma CommandEffect(s: SessionState, c: AppCommand)
    requires SessionStep(Some(s), c).Ok?
    ensures var (next, events) := SessionStep(Some(s), c).value;
            && 1 <= |events| <= 3
            && (|events| == 1 ==> Reset(next) == DurableEffect(Reset(s), events[0]))
            && (|events| >= 2 ==> Reset(next) == Reset(s))
            && (|events| >= 2 ==> forall i | 0 <= i < |events| :: !SetsDurableState(events[i]))
  {
    if c.SubmitPrompt? || c.ChangeModelSettings? {
      LongBatchEffect(s, c);
    } else {
      ShortBatchEffect(s, c);
    }
  }

  lemma ShortBatchEffect(s: SessionState, c: AppCommand)
    requires SessionStep(Some(s), c).Ok? && !c.SubmitPrompt? && !c.ChangeModelSettings?
    ensures var (next, events) := SessionStep(Some(s), c).value;
            |events| == 1 && Reset(next) == DurableEffect(Reset(s), events[0])
  {
  }

  lemma LongBatchEffect(s: SessionState, c: AppCommand)
    requires SessionStep(Some(s), c).Ok? && (c.SubmitPrompt? || c.ChangeModelSettings?)
    ensures var (next, events) := SessionStep(Some(s), c).value;
            && 2 <= |events| <= 3 && Reset(next) == Reset(s)
            && forall i | 0 <= i < |events| :: !SetsDurableState(events[i])
  {
  }

  /** Replaying what a command emitted does to the durable fields what the command did; and
      however much of its batch reached the journal, the restored session is the one before the
      command or the one after it. */
  lemma CommandRefines(s: SessionState, c: AppCommand, x: SessionState, k: nat)
    requires SessionStep(Some(s), c).Ok? && Reset(x) == Reset(s)
    requires k <= |SessionStep(Some(s), c).value.1|
    ensures var (next, events) := SessionStep(Some(s), c).value;
            && Reset(ReplayBatch(x, events)) == Reset(next)
            && (Reset(ReplayBatch(x, events[..k])) == Reset(s)
                || Reset(ReplayBatch(x, events[..k])) == Reset(next))
  {
    CommandEffect(s, c);
    var (next, events) := SessionStep(Some(s), c).value;
    BatchRefinesAtAnyPoint(x, events, Reset(next), k);
  }

  lemma BatchRefinesAtAnyPoint(x: SessionState, events: seq<AppEvent>, after: SessionState, k: nat)
    requires 1 <= |events| && k <= |events|
    requires |events| == 1 ==> after == DurableEffect(Reset(x), events[0])
    requires |events| >= 2 ==> after == Reset(x) && forall i | 0 <= i < |events| :: !SetsDurableState(events[i])
    ensures Reset(ReplayBatch(x, events)) == after
    ensures Reset(ReplayBatch(x, events[..k])) == Reset(x) || Reset(ReplayBatch(x, events[..k])) == after
  {
    ReplayBatchIgnoresVolatile(x, events);
    ReplayBatchIgnoresVolatile(x, events[..k]);
    if |events| >= 2 {
      TransientBatch(Reset(x), events);
      TransientBatch(Reset(x), events[..k]);
    } else {
      assert events[..0] == [] && events[..1] == events;
    }
  }

  /** Recording keeps the refinement from every session exactly when the event is not one that
      replay turns into durable state. */
  lemma RecordRefinesExactly(e: AppEvent)
    ensures !SetsDurableState(e) <==>
            forall s: SessionState :: RecordStep(s, e).Ok? ==>
              Reset(ReplayOn(s, e)) == Reset(RecordStep(s, e).value)
  {
    if SetsDurableState(e) {
      var s := FreshSession("s", "", Test, NoTools);
      var t := s.(profile := Confirm);
      assert RecordStep(s, e) == Ok(s) && RecordStep(t, e) == Ok(t);
      if TerminalTurn(e).Some? {
        assert TerminalTurn(e).value in ReplayOn(s, e).terminalTurns;
      } else {
        assert ReplayOn(s, e).profile == ReplayOn(t, e).profile;
      }
    }
  }

  // ---------- The invariant ----------

  /** The journal projects to a session with the durable fields `d`. */
  predicate ProjectsTo(id: SessionId, journal: seq<EventEnvelope>, d: SessionState) {
    match ProjectAll(id, journal)
    case Ok(ProjectionState(pid, Some(x), maxSequence)) =>
      pid == id && x.id == id && Reset(x) == d && maxSequence == LastSequence(journal)
    case _ => false
  }

  predicate Refines(id: SessionId, journal: seq<EventEnvelope>, d: SessionState) {
    && JournalInv(id, journal)
    && journal != []
    && ProjectsTo(id, journal, d)
    && d.terminalTurns == EndedTurns(journal)
  }

  predicate Loaded(id: SessionId, journal: seq<EventEnvelope>, live: SessionState, counter: nat) {
    Refines(id, journal, Reset(live)) && WellFormed(live) && LastSequence(journal) <= counter
  }

  ghost predicate Inv(sys: System) {
    && (forall id | id in sys.journals :: JournalInv(id, sys.journals[id]))
    && (forall id | id in sys.kernel.sessions ::
          Loaded(id, JournalOf(sys, id), sys.kernel.sessions[id], sys.kernel.nextSequence))
  }

  /** The first event of a journal projects to the session it opens. */
  lemma OpeningRefines(id: SessionId, envelope: EventEnvelope, first: SessionState)
    requires Grows(id, [], envelope) && ReplayEvent(None, id, envelope.event) == Ok(Some(first))
    ensures Refines(id, [envelope], first)
  {
    assert [envelope][..0] == [];
    assert ProjectAll(id, [envelope]) == ProjectOne(ProjectionState(id, None, 0), envelope);
  }

  /** One more event has its durable effect and no other. */
  lemma GrowthRefines(id: SessionId, journal: seq<EventEnvelope>, d: SessionState, next: EventEnvelope)
    requires Refines(id, journal, d) && Grows(id, journal, next)
    ensures Refines(id, journal + [next], DurableEffect(d, next.event))
  {
    assert (journal + [next])[..|journal|] == journal;
    var p := ProjectAll(id, journal).value;
    ReplayIgnoresVolatile(p.state.value, next.event);
    assert ProjectAll(id, journal + [next]) == ProjectOne(p, next);
  }

  /** A sealed batch has the durable effects of its events. */
  lemma {:induction false} BatchRefines(id: SessionId, journal: seq<EventEnvelope>, d: SessionState, counter: nat,
                                        batch: seq<EventEnvelope>)
    requires Refines(id, journal, d) && LastSequence(journal) <= counter
    requires forall i | 0 <= i < |batch| :: batch[i].sessionId == id && batch[i].sequence == counter + 1 + i
    requires forall i | 0 <= i < |batch| && batch[i].event.TurnStarted? :: batch[i].event.turnId !in d.terminalTurns
    requires |batch| <= 1 || forall i | 0 <= i < |batch| :: !SetsDurableState(batch[i].event)
    ensures Refines(id, journal + batch, BatchEffect(d, EventsOf(batch)))
    ensures LastSequence(journal + batch) <= counter + |batch|
  {
    if batch == [] {
      assert journal + batch == journal;
    } else {
      var n := |batch| - 1;
      var prefix, last := batch[..n], batch[n];
      BatchRefines(id, journal, d, counter, prefix);
      assert EventsOf(batch)[..n] == EventsOf(prefix);
      if n > 0 {
        TransientBatch(d, EventsOf(prefix));
      }
      GrowthRefines(id, journal + prefix, BatchEffect(d, EventsOf(prefix)), last);
      assert journal + batch == journal + prefix + [last];
    }
  }

  lemma StepKeepsWellFormed(s: SessionState, c: AppCommand)
    requires WellFormed(s) && SessionStep(Some(s), c).Ok?
    ensures WellFormed(SessionStep(Some(s), c).value.0)
  {
  }

  lemma RecordKeepsWellFormed(s: SessionState, e: AppEvent)
    requires WellFormed(s) && RecordStep(s, e).Ok?
    ensures WellFormed(RecordStep(s, e).value)
  {
  }

  /** A command never starts a turn that has ended. */
  lemma CommandStartsFreshTurns(s: SessionState, c: AppCommand)
    requires SessionStep(Some(s), c).Ok?
    ensures var events := SessionStep(Some(s), c).value.1;
            forall i | 0 <= i < |events| && events[i].TurnStarted? :: events[i].turnId !in s.terminalTurns
  {
  }

  /** How a batch of events and the change of the live session belong together. */
  predicate BatchFits(s: SessionState, next: SessionState, events: seq<AppEvent>) {
    && WellFormed(next)
    && 1 <= |events|
    && (|events| == 1 ==> Reset(next) == DurableEffect(Reset(s), events[0]))
    && (|events| >= 2 ==> Reset(next) == Reset(s) && forall i | 0 <= i < |events| :: !SetsDurableState(events[i]))
    && (forall i | 0 <= i < |events| && events[i].TurnStarted? :: events[i].turnId !in s.terminalTurns)
  }

  lemma CommandFits(s: SessionState, c: AppCommand)
    requires WellFormed(s) && SessionStep(Some(s), c).Ok?
    ensures BatchFits(s, SessionStep(Some(s), c).value.0, SessionStep(Some(s), c).value.1)
  {
    CommandEffect(s, c);
    CommandStartsFreshTurns(s, c);
    StepKeepsWellFormed(s, c);
  }

  lemma RecordFits(s: SessionState, e: AppEvent)
    requires WellFormed(s) && !IsLifecycleEvent(e) && RecordStep(s, e).Ok?
    ensures BatchFits(s, RecordStep(s, e).value, [e])
  {
    RecordKeepsWellFormed(s, e);
  }

  lemma BatchKeepsLoaded(id: SessionId, journal: seq<EventEnvelope>, s: SessionState, next: SessionState,
                         counter: nat, batch: seq<EventEnvelope>)
    requires Loaded(id, journal, s, counter) && BatchFits(s, next, EventsOf(batch))
    requires forall i | 0 <= i < |batch| :: batch[i].sessionId == id && batch[i].sequence == counter + 1 + i
    ensures Loaded(id, journal + batch, next, counter + |batch|)
  {
    assert forall i | 0 <= i < |batch| :: batch[i].event == EventsOf(batch)[i];
    BatchRefines(id, journal, Reset(s), counter, batch);
    if |batch| >= 2 {
      TransientBatch(Reset(s), EventsOf(batch));
    } else {
      assert EventsOf(batch)[..0] == [];
    }
  }

  lemma OpenEstablishesLoaded(id: SessionId, counter: nat, first: SessionState, batch: seq<EventEnvelope>)
    requires 1 <= |batch| <= 2 && WellFormed(first) && Reset(first) == first
    requires forall i | 0 <= i < |batch| :: batch[i].sessionId == id && batch[i].sequence == counter + 1 + i
    requires |batch| == 2 ==> batch[1].event.SecurityStatusChanged?
    requires Refines(id, [batch[0]], first)
    ensures Loaded(id, batch, first, counter + |batch|)
  {
    if |batch| == 2 {
      GrowthRefines(id, [batch[0]], first, batch[1]);
      assert batch == [batch[0]] + [batch[1]];
    } else {
      assert batch == [batch[0]];
    }
  }

  lemma OpeningJournalRefines(id: SessionId, journal: seq<EventEnvelope>) returns (d: SessionState)
    requires JournalInv(id, journal) && |journal| == 1
    ensures Refines(id, journal, d) && Reset(d) == d
  {
    assert journal[..0] == [] && journal == [journal[0]];
    d := ReplayEvent(None, id, journal[0].event).value.value;
    OpeningRefines(id, journal[0], d);
  }

  lemma EffectStaysReset(d: SessionState, e: AppEvent)
    requires Reset(d) == d
    ensures Reset(DurableEffect(d, e)) == DurableEffect(d, e)
  {
  }

  /** Every surviving journal of a session projects. */
  lemma {:induction false} JournalRefines(id: SessionId, journal: seq<EventEnvelope>) returns (d: SessionState)
    requires JournalInv(id, journal) && journal != []
    ensures Refines(id, journal, d) && Reset(d) == d
  {
    var n := |journal| - 1;
    if n == 0 {
      d := OpeningJournalRefines(id, journal);
    } else {
      var front, last := journal[..n], journal[n];
      var before := JournalRefines(id, front);
      d := DurableEffect(before, last.event);
      EffectStaysReset(before, last.event);
      assert journal == front + [last];
      GrowthRefines(id, front, before, last);
    }
  }

  lemma {:induction false} PrefixKeepsInv(id: SessionId, journal: seq<EventEnvelope>, n: nat)
    requires JournalInv(id, journal) && n <= |journal|
    ensures JournalInv(id, journal[..n])
    decreases |journal|
  {
    if n == |journal| {
      assert journal[..n] == journal;
    } else {
      PrefixKeepsInv(id, journal[..|journal| - 1], n);
      assert journal[..|journal| - 1][..n] == journal[..n];
    }
  }

  lemma RestoreYields(id: SessionId, journal: seq<EventEnvelope>, d: SessionState)
    requires Refines(id, journal, d)
    ensures Project(journal) == Ok(CompletedRestore(id, d, LastSequence(journal)))
  {
    JournalOwner(id, journal);
  }

  lemma {:induction false} JournalOwner(id: SessionId, journal: seq<EventEnvelope>)
    requires JournalInv(id, journal) && journal != []
    ensures journal[0].sessionId == id
  {
    if |journal| > 1 {
      JournalOwner(id, journal[..|journal| - 1]);
    }
  }

  lemma RestoreKeepsInv(sys: System, id: SessionId)
    requires Inv(sys)
    ensures Inv(After(sys, Restore(id)))
  {
    var journal := JournalOf(sys, id);
    if journal != [] {
      var d := JournalRefines(id, journal);
      RestoreYields(id, journal, d);
    }
  }

  /** A command on a loaded session leaves it loaded, at the end of its journal. */
  lemma CommandKeepsLoaded(id: SessionId, journal: seq<EventEnvelope>, s: SessionState, counter: nat,
                           request: CommandEnvelope)
    requires Loaded(id, journal, s, counter) && SessionStep(Some(s), request.command).Ok?
    ensures var (next, events) := SessionStep(Some(s), request.command).value;
            Loaded(id, journal + Seal(counter, id, request.correlationId, request.origin, events), next,
                   counter + |events|)
  {
    CommandFits(s, request.command);
    var (next, events) := SessionStep(Some(s), request.command).value;
    var batch := Seal(counter, id, request.correlationId, request.origin, events);
    assert EventsOf(batch) == events;
    BatchKeepsLoaded(id, journal, s, next, counter, batch);
  }

  lemma OpeningEvents(id: SessionId, c: AppCommand)
    requires SessionStep(None, c).Ok? && c.sessionId == id
    ensures var (next, events) := SessionStep(None, c).value;
            && 1 <= |events| <= 2 && (|events| == 2 ==> events[1].SecurityStatusChanged?)
            && Opens(events[0]) && ReplayEvent(None, id, events[0]) == Ok(Some(next))
            && WellFormed(next) && Reset(next) == next
  {
  }

  lemma OpenCommandLoads(id: SessionId, counter: nat, request: CommandEnvelope)
    requires request.command.sessionId == id && SessionStep(None, request.command).Ok?
    ensures var (next, events) := SessionStep(None, request.command).value;
            Loaded(id, Seal(counter, id, request.correlationId, request.origin, events), next, counter + |events|)
  {
    OpeningEvents(id, request.command);
    var (next, events) := SessionStep(None, request.command).value;
    var batch := Seal(counter, id, request.correlationId, request.origin, events);
    OpeningRefines(id, batch[0], next);
    OpenEstablishesLoaded(id, counter, next, batch);
  }

  lemma EmitKeepsLoaded(id: SessionId, journal: seq<EventEnvelope>, s: SessionState, counter: nat,
                        envelope: EventEnvelope)
    requires Loaded(id, journal, s, counter) && !IsLifecycleEvent(envelope.event)
    requires RecordStep(s, envelope.event).Ok?
    requires envelope.sessionId == id && envelope.sequence == counter + 1
    ensures Loaded(id, journal + [envelope], RecordStep(s, envelope.event).value, counter + 1)
  {
    RecordFits(s, envelope.event);
    assert EventsOf([envelope]) == [envelope.event];
    BatchKeepsLoaded(id, journal, s, RecordStep(s, envelope.event).value, counter, [envelope]);
  }

  /** Publishing a batch on one session keeps every other session and journal. */
  lemma PublishKeepsInv(sys: System, id: SessionId, live: SessionState, batch: seq<EventEnvelope>)
    requires Inv(sys)
    requires Loaded(id, JournalOf(sys, id) + batch, live, sys.kernel.nextSequence + |batch|)
    ensures Inv(System(KernelState(sys.kernel.sessions[id := live], sys.kernel.nextSequence + |batch|),
                       sys.journals[id := JournalOf(sys, id) + batch]))
  {
  }

  lemma DispatchKeepsInv(sys: System, request: CommandEnvelope, next: SessionState, events: seq<AppEvent>)
    requires Inv(sys) && Allowed(sys, Client(Dispatch(request)))
    requires SessionStep(Lookup(sys.kernel, request.command.sessionId), request.command) == Ok((next, events))
    ensures var id, counter := request.command.sessionId, sys.kernel.nextSequence;
            var batch := Seal(counter, id, request.correlationId, request.origin, events);
            Inv(System(KernelState(sys.kernel.sessions[id := next], counter + |events|),
                       sys.journals[id := JournalOf(sys, id) + batch]))
  {
    var k, id := sys.kernel, request.command.sessionId;
    var journal := JournalOf(sys, id);
    var batch := Seal(k.nextSequence, id, request.correlationId, request.origin, events);
    if id in k.sessions {
      CommandKeepsLoaded(id, journal, k.sessions[id], k.nextSequence, request);
    } else {
      OpenCommandLoads(id, k.nextSequence, request);
      assert journal + batch == batch;
    }
    PublishKeepsInv(sys, id, next, batch);
  }

  lemma EmitKeepsInv(sys: System, id: SessionId, envelope: EventEnvelope, live: SessionState)
    requires Inv(sys) && id in sys.kernel.sessions && !IsLifecycleEvent(envelope.event)
    requires RecordStep(sys.kernel.sessions[id], envelope.event) == Ok(live)
    requires envelope.sessionId == id && envelope.sequence == sys.kernel.nextSequence + 1
    ensures Inv(System(KernelState(sys.kernel.sessions[id := live], sys.kernel.nextSequence + 1),
                       sys.journals[id := JournalOf(sys, id) + [envelope]]))
  {
    EmitKeepsLoaded(id, JournalOf(sys, id), sys.kernel.sessions[id], sys.kernel.nextSequence, envelope);
    PublishKeepsInv(sys, id, live, [envelope]);
  }

  /** What the system is after an accepted operation. */
  lemma AcceptedOperation(sys: System, op: Operation)
    requires Perform(sys.kernel, op).1 != []
    ensures match op
            case Dispatch(request) =>
              (match SessionStep(Lookup(sys.kernel, Target(op)), request.command)
               case Ok((next, events)) =>
                 var k, id := sys.kernel, Target(op);
                 var batch := Seal(k.nextSequence, id, request.correlationId, request.origin, events);
                 After(sys, Client(op)) == System(KernelState(k.sessions[id := next], k.nextSequence + |events|),
                                                  sys.journals[id := JournalOf(sys, id) + batch])
               case Err(_) => false)
            case Emit(id, correlation, e) =>
              var k := sys.kernel;
              && id in k.sessions && RecordStep(k.sessions[id], e).Ok?
              && var envelope := EventEnvelope(k.nextSequence + 1, correlation, k.sessions[id].origin, id, e);
                 After(sys, Client(op))
                 == System(KernelState(k.sessions[id := RecordStep(k.sessions[id], e).value], k.nextSequence + 1),
                           sys.journals[id := JournalOf(sys, id) + [envelope]])
  {
  }

  lemma ClientKeepsInv(sys: System, op: Operation)
    requires Inv(sys) && Allowed(sys, Client(op))
    ensures Inv(After(sys, Client(op)))
  {
    if Perform(sys.kernel, op).1 == [] {
      PublishesSomething(sys.kernel, op);
      assert JournalOf(sys, Target(op)) + [] == JournalOf(sys, Target(op));
    } else {
      AcceptedOperation(sys, op);
      match op
      case Dispatch(request) =>
        var (next, events) := SessionStep(Lookup(sys.kernel, Target(op)), request.command).value;
        DispatchKeepsInv(sys, request, next, events);
      case Emit(id, correlation, e) =>
        var live := RecordStep(sys.kernel.sessions[id], e).value;
        var origin := sys.kernel.sessions[id].origin;
        EmitKeepsInv(sys, id, EventEnvelope(sys.kernel.nextSequence + 1, correlation, origin, id, e), live);
    }
  }

  /** An operation that publishes nothing was rejected and left the kernel alone. */
  lemma PublishesSomething(k: KernelState, op: Operation)
    requires Perform(k, op).1 == []
    ensures Perform(k, op).0 == k
  {
  }

  lemma CrashKeepsInv(sys: System, kept: map<SessionId, nat>)
    requires Inv(sys)
    ensures Inv(After(sys, Crash(kept)))
  {
    forall id | id in sys.journals
      ensures JournalInv(id, After(sys, Crash(kept)).journals[id])
    {
      if id in kept && kept[id] <= |sys.journals[id]| {
        PrefixKeepsInv(id, sys.journals[id], kept[id]);
      }
    }
  }

  lemma {:induction false} InvHolds(run: seq<Action>)
    requires RunAllowed(START, run)
    ensures Inv(RunFrom(START, run))
  {
    if run != [] {
      var before := RunFrom(START, run[..|run| - 1]);
      InvHolds(run[..|run| - 1]);
      match run[|run| - 1]
      case Client(op) => ClientKeepsInv(before, op);
      case Crash(kept) => CrashKeepsInv(before, kept);
      case Restore(id) => RestoreKeepsInv(before, id);
    }
  }

  // ---------- Main results ----------

  /**
   Over every history of kernel runs, crashes and restores: restoring the journal of a loaded
   session yields the live session with its volatile fields reset, at the journal's last
   sequence number, which the kernel's counter has reached.
   */
  lemma RestartRefinement(run: seq<Action>, id: SessionId)
    requires RunAllowed(START, run) && id in RunFrom(START, run).kernel.sessions
    ensures var sys := RunFrom(START, run);
            var journal := JournalOf(sys, id);
            && Project(journal) == Ok(CompletedRestore(id, Reset(sys.kernel.sessions[id]), LastSequence(journal)))
            && LastSequence(journal) <= sys.kernel.nextSequence
  {
    InvHolds(run);
    var sys := RunFrom(START, run);
    RestoreYields(id, JournalOf(sys, id), Reset(sys.kernel.sessions[id]));
  }

  /** Over every history: journals are ordered, no turn starts after its end, and a live session
      has an active turn exactly while running or waiting, and that turn has not ended. */
  lemma TurnLinearity(run: seq<Action>)
    requires RunAllowed(START, run)
    ensures var sys := RunFrom(START, run);
            && (forall id | id in sys.journals :: Linear(sys.journals[id]) && Increasing(sys.journals[id]))
            && (forall id | id in sys.kernel.sessions ::
                  && WellFormed(sys.kernel.sessions[id])
                  && sys.kernel.sessions[id].terminalTurns == EndedTurns(JournalOf(sys, id)))
  {
    InvHolds(run);
    var sys := RunFrom(START, run);
    forall id | id in sys.journals
      ensures Linear(sys.journals[id]) && Increasing(sys.journals[id])
    {
      JournalIsLinear(id, sys.journals[id]);
    }
    forall id | id in sys.kernel.sessions
      ensures sys.kernel.sessions[id].terminalTurns == EndedTurns(JournalOf(sys, id))
    {
      assert Reset(sys.kernel.sessions[id]).terminalTurns == sys.kernel.sessions[id].terminalTurns;
    }
  }

  /** Ending a turn succeeds exactly on the active turn, and makes the session ready for another. */
  lemma EndSucceedsOnActiveTurn(run: seq<Action>, c: AppCommand)
    requires RunAllowed(START, run) && c.sessionId in RunFrom(START, run).kernel.sessions
    requires c.FinishTurn? || c.CancelTurn? || c.FailTurn?
    ensures var s := RunFrom(START, run).kernel.sessions[c.sessionId];
            var r := SessionStep(Some(s), c);
            && (r.Ok? <==> s.activeTurn == Some(c.turnId))
            && (r.Ok? ==> r.value.0.lifecycle == Ready && c.turnId in r.value.0.terminalTurns
                          && TerminalTurn(r.value.1[0]) == Some(c.turnId))
  {
    InvHolds(run);
    EndSucceeds(RunFrom(START, run).kernel.sessions[c.sessionId], c);
  }

  lemma EndSucceeds(s: SessionState, c: AppCommand)
    requires WellFormed(s) && (c.FinishTurn? || c.CancelTurn? || c.FailTurn?)
    ensures var r := SessionStep(Some(s), c);
            && (r.Ok? <==> s.activeTurn == Some(c.turnId))
            && (r.Ok? ==> r.value.0.lifecycle == Ready && c.turnId in r.value.0.terminalTurns
                          && TerminalTurn(r.value.1[0]) == Some(c.turnId))
  {
  }

  function Request(c: AppCommand): Action {
    Client(Dispatch(CommandEnvelope("", Test, false, c)))
  }

  /** The journal after coming back through ResumeSession and submitting a prompt as `turn`. */
  function ResumedJournal(sys: System, id: SessionId, turn: TurnId): seq<EventEnvelope> {
    JournalOf(After(After(sys, Request(ResumeSession(id, "", Test, Web))),
                    Request(SubmitPrompt(id, turn, "hi", [], true))), id)
  }

  lemma ResumedJournalIs(sys: System, id: SessionId, turn: TurnId)
    requires id !in sys.kernel.sessions
    ensures var (before, again) := (JournalOf(sys, id), ResumedJournal(sys, id, turn));
            && |again| == |before| + 3 && again[..|before|] == before
            && TerminalTurn(again[|before|].event) == None && TerminalTurn(again[|before| + 1].event) == None
            && !again[|before|].event.TurnStarted? && !again[|before| + 1].event.TurnStarted?
            && again[|before| + 2].event == TurnStarted(turn)
  {
    var resumed := After(sys, Request(ResumeSession(id, "", Test, Web)));
    assert resumed.kernel.sessions[id] == FreshSession(id, "", Test, Web);
    assert JournalOf(resumed, id)[..|JournalOf(sys, id)|] == JournalOf(sys, id);
    var again := ResumedJournal(sys, id, turn);
    assert again[..|JournalOf(resumed, id)|] == JournalOf(resumed, id);
    assert again[..|JournalOf(sys, id)|] == JournalOf(resumed, id)[..|JournalOf(sys, id)|];
  }

  /** A turn started behind a linear journal keeps it linear exactly when it has not ended there. */
  lemma StartStaysLinear(id: SessionId, journal: seq<EventEnvelope>, longer: seq<EventEnvelope>, turn: TurnId)
    requires JournalInv(id, journal) && |longer| == |journal| + 3 && longer[..|journal|] == journal
    requires TerminalTurn(longer[|journal|].event) == None && TerminalTurn(longer[|journal| + 1].event) == None
    requires !longer[|journal|].event.TurnStarted? && !longer[|journal| + 1].event.TurnStarted?
    requires longer[|journal| + 2].event == TurnStarted(turn)
    ensures Linear(longer) <==> turn !in EndedTurns(journal)
  {
    JournalIsLinear(id, journal);
    var n := |journal|;
    assert forall i | 0 <= i < n :: longer[i] == journal[i];
    if turn in EndedTurns(journal) {
      var i := EndedSomewhere(journal, turn);
      assert TerminalTurn(longer[i].event) == Some(turn) && longer[n + 2].event == TurnStarted(turn);
    } else {
      forall i, j | 0 <= i < j < |longer| && TerminalTurn(longer[i].event).Some?
        ensures longer[j].event != TurnStarted(TerminalTurn(longer[i].event).value)
      {
        EndsAreEnded(journal, i);
      }
    }
  }

  lemma {:induction false} EndedSomewhere(journal: seq<EventEnvelope>, turn: TurnId) returns (i: nat)
    requires turn in EndedTurns(journal)
    ensures i < |journal| && TerminalTurn(journal[i].event) == Some(turn)
  {
    if turn in EndedTurns(journal[..|journal| - 1]) {
      i := EndedSomewhere(journal[..|journal| - 1], turn);
    } else {
      i := |journal| - 1;
    }
  }

  /**
   Coming back through ResumeSession instead of a restore forgets the ended turns. A prompt that
   follows restarts an ended turn exactly when it names one, so every prompt is harmless if and
   only if the journal has no ended turn.
   */
  lemma ResumeForgetsEndedTurns(sys: System, id: SessionId)
    requires id !in sys.kernel.sessions && JournalInv(id, JournalOf(sys, id))
    ensures forall turn :: Linear(ResumedJournal(sys, id, turn)) <==> turn !in EndedTurns(JournalOf(sys, id))
    ensures (forall turn :: Linear(ResumedJournal(sys, id, turn))) <==> EndedTurns(JournalOf(sys, id)) == {}
  {
    forall turn
      ensures Linear(ResumedJournal(sys, id, turn)) <==> turn !in EndedTurns(JournalOf(sys, id))
    {
      ResumedJournalIs(sys, id, turn);
      StartStaysLinear(id, JournalOf(sys, id), ResumedJournal(sys, id, turn), turn);
    }
    if EndedTurns(JournalOf(sys, id)) != {} {
      var turn :| turn in EndedTurns(JournalOf(sys, id));
      assert !Linear(ResumedJournal(sys, id, turn));
    }
  }

  /** A session with one turn under way. */
  function Prompted(id: SessionId, turn: TurnId): System {
    After(After(START, Request(CreateSession(id, "", Test, Web))), Request(SubmitPrompt(id, turn, "hi", [], true)))
  }

  /** Then the turn runs to completion, and a crash loses nothing. */
  function EndedAndCrashed(id: SessionId, turn: TurnId): System {
    After(After(Prompted(id, turn), Request(FinishTurn(id, turn))), Crash(map[]))
  }

  lemma PromptedHolds(id: SessionId, turn: TurnId)
    ensures id in Prompted(id, turn).kernel.sessions && |JournalOf(Prompted(id, turn), id)| == 4
    ensures Prompted(id, turn).kernel.sessions[id].activeTurn == Some(turn)
  {
    var created := After(START, Request(CreateSession(id, "", Test, Web)));
    assert |JournalOf(created, id)| == 2 && created.kernel.sessions[id] == FreshSession(id, "", Test, Web);
  }

  lemma EndedAndCrashedHolds(id: SessionId, turn: TurnId)
    ensures EndedAndCrashed(id, turn).kernel.sessions == map[]
    ensures var journal := JournalOf(EndedAndCrashed(id, turn), id);
            |journal| > 4 && journal[4].event == TurnCompleted(turn)
  {
    PromptedHolds(id, turn);
    var finished := After(Prompted(id, turn), Request(FinishTurn(id, turn)));
    assert JournalOf(finished, id)[4].event == TurnCompleted(turn);
    assert JournalOf(EndedAndCrashed(id, turn), id) == JournalOf(finished, id);
  }

  /** From the start: a turn runs to completion, the process dies, and the turn starts again. */
  lemma ResumeRestartsATurn(id: SessionId, turn: TurnId)
    ensures !Linear(ResumedJournal(EndedAndCrashed(id, turn), id, turn))
  {
    var crashed := EndedAndCrashed(id, turn);
    EndedAndCrashedHolds(id, turn);
    ResumedJournalIs(crashed, id, turn);
    var again := ResumedJournal(crashed, id, turn);
    assert again[4] == JournalOf(crashed, id)[4];
    assert TerminalTurn(again[4].event) == Some(turn) && again[|again| - 1].event == TurnStarted(turn);
  }

  // ---------- Cooperative restore ----------

  /** What an operation does to the sessions does not depend on the sequence counter, and it
      touches its own session only. */
  lemma OperationIsLocal(k: KernelState, op: Operation, other: SessionId, s: SessionState, n: nat)
    requires Target(op) != other
    ensures Perform(KernelState(k.sessions[other := s], n), op).0.sessions
            == Perform(k, op).0.sessions[other := s]
    ensures other in Perform(k, op).0.sessions <==> other in k.sessions
    ensures other in k.sessions ==> Perform(k, op).0.sessions[other] == k.sessions[other]
    ensures k.nextSequence <= Perform(k, op).0.nextSequence
  {
    var k' := KernelState(k.sessions[other := s], n);
    assert Lookup(k', Target(op)) == Lookup(k, Target(op));
    match op
    case Dispatch(request) =>
      var step := SessionStep(Lookup(k, Target(op)), request.command);
      if step.Ok? {
        var next := step.value.0;
        assert k.sessions[other := s][Target(op) := next] == k.sessions[Target(op) := next][other := s];
      }
    case Emit(id, _, e) =>
      if id in k.sessions && RecordStep(k.sessions[id], e).Ok? {
        var next := RecordStep(k.sessions[id], e).value;
        assert k.sessions[other := s][id := next] == k.sessions[id := next][other := s];
      }
  }

  /**
   A cooperative restore, whatever other clients do to other sessions meanwhile, ends with the
   sessions an atomic restore followed by the same operations would give; every other session
   is as the operations left it, and the counter exceeds both.
   */
  lemma {:induction false} CooperativeEqualsAtomic(k: KernelState, restored: CompletedRestore, ops: seq<Operation>)
    requires forall i | 0 <= i < |ops| :: Target(ops[i]) != restored.id
    ensures var cooperative := Install(PerformAll(k, ops), restored);
            var atomic := PerformAll(Install(k, restored), ops);
            && cooperative.sessions == atomic.sessions
            && (forall id | id != restored.id ::
                  Lookup(cooperative, id) == Lookup(PerformAll(k, ops), id))
            && Lookup(cooperative, restored.id) == Some(restored.state)
            && k.nextSequence <= cooperative.nextSequence
            && restored.maxSequence <= cooperative.nextSequence
            && k.nextSequence <= PerformAll(k, ops).nextSequence
  {
    if ops != [] {
      var n := |ops| - 1;
      CooperativeEqualsAtomic(k, restored, ops[..n]);
      var before := PerformAll(k, ops[..n]);
      var atomicBefore := PerformAll(Install(k, restored), ops[..n]);
      assert atomicBefore == KernelState(before.sessions[restored.id := restored.state], atomicBefore.nextSequence);
      OperationIsLocal(before, ops[n], restored.id, restored.state, atomicBefore.nextSequence);
    }
  }
}
