/**
 The live session kernel: it applies commands and records turn events, and it restores a
 session from its journal. `SessionStep` and `RecordStep` say what one call does to one
 session; the class carries the session table and the sequence counter.
 */
module KernelModel {
  import opened Prelude
  import opened Vocabulary

  datatype KernelState = KernelState(sessions: map<SessionId, SessionState>, nextSequence: nat)

  // ---------- One session ----------

  predicate TurnInProgress(l: Lifecycle) {
    l == Running || l == WaitingForApproval || l == WaitingForAnswer
  }

  /** What every reachable live session satisfies. */
  predicate WellFormed(s: SessionState) {
    && (s.activeTurn.Some? <==> TurnInProgress(s.lifecycle))
    && (s.pendingPermission.Some? <==> s.lifecycle == WaitingForApproval)
    && (s.pendingQuestion.Some? <==> s.lifecycle == WaitingForAnswer)
    && (s.activeTurn.Some? ==> s.activeTurn.value !in s.terminalTurns)
  }

  function FinishActive(s: SessionState, turn: TurnId): Result<SessionState> {
    if s.activeTurn != Some(turn) || !TurnInProgress(s.lifecycle) then Err(InvalidTransition)
    else Ok(Reset(s).(terminalTurns := s.terminalTurns + {turn}))
  }

  function StartTurn(s: SessionState, turn: TurnId): Result<SessionState> {
    if s.lifecycle != Ready || turn in s.terminalTurns then Err(InvalidTransition)
    else Ok(s.(lifecycle := Running, activeTurn := Some(turn)))
  }

  function WhenReady(s: SessionState, next: SessionState, events: seq<AppEvent>)
    : Result<(SessionState, seq<AppEvent>)>
  {
    if s.lifecycle != Ready then Err(InvalidTransition) else Ok((next, events))
  }

  function OnLoaded(s: SessionState, c: AppCommand): Result<(SessionState, seq<AppEvent>)>
    requires !c.CreateSession? && !c.ResumeSession?
  {
    match c
    case SubmitPrompt(_, turn, text, attachments, promptValid) =>
      (match StartTurn(s, turn)
       case Err(e) => Err(e)
       case Ok(next) =>
         if !promptValid then Err(InvalidTransition)
         else Ok((next, [PromptAccepted(turn, text, attachments), TurnStarted(turn)])))
    case StartImageGeneration(_, turn) =>
      (match StartTurn(s, turn)
       case Err(e) => Err(e)
       case Ok(next) => Ok((next, [TurnStarted(turn)])))
    case CancelTurn(_, turn) =>
      (match FinishActive(s, turn)
       case Err(e) => Err(e)
       case Ok(next) => Ok((next, [TurnCancelled(turn)])))
    case FinishTurn(_, turn) =>
      (match FinishActive(s, turn)
       case Err(e) => Err(e)
       case Ok(next) => Ok((next, [TurnCompleted(turn)])))
    case FailTurn(_, turn, message) =>
      (match FinishActive(s, turn)
       case Err(e) => Err(e)
       case Ok(next) => Ok((next, [ErrorRaised(Some(turn), message)])))
    case ConfigureDesktopAgent(_, settings) =>
      WhenReady(s,
                s.(cwd := settings.workingDirectory, profile := ProfileForDesktopAgent(settings)),
                [DesktopAgentConfigured(settings)])
    case ChangePermissionProfile(_, profile) =>
      WhenReady(s, s.(profile := profile), [PermissionProfileChanged(profile)])
    case ChangeModel(_, model) =>
      if !IsModelId(model) then Err(InvalidTransition) else WhenReady(s, s, [ModelChanged(model)])
    case ChangeModelSettings(_, model, thinking, resetSecurity) =>
      if !IsModelId(model) then Err(InvalidTransition)
      else WhenReady(s, s,
                     [ThinkingLevelChanged(thinking)]
                     + (if resetSecurity then [SecurityStatusChanged("unverified")] else [])
                     + [ModelChanged(model)])
    case ChangeThinkingLevel(_, level) => WhenReady(s, s, [ThinkingLevelChanged(level)])
    case RecordContextCompaction(_, summary, messagesBefore) =>
      if IsBlank(summary) then Err(InvalidTransition)
      else WhenReady(s, s, [ContextCompacted(summary, messagesBefore)])
    case CloseSession(_) => WhenReady(s, s.(lifecycle := Closed), [SessionClosed])
  }

  /** One command on one session: the new session and the events it emits. */
  function SessionStep(s: Option<SessionState>, c: AppCommand): Result<(SessionState, seq<AppEvent>)> {
    match c
    case CreateSession(id, cwd, origin, profile) =>
      if s.Some? then Err(InvalidTransition)
      else Ok((FreshSession(id, cwd, origin, profile),
               [SessionCreated(cwd, origin, profile), SecurityStatusChanged("unverified")]))
    case ResumeSession(id, cwd, origin, profile) =>
      if s.Some? then Err(InvalidTransition)
      else Ok((FreshSession(id, cwd, origin, profile), [SessionResumed(cwd, origin, profile)]))
    case SubmitPrompt(_, _, _, _, promptValid) =>
      if !promptValid then Err(InvalidTransition)
      else if s.None? then Err(SessionNotFound) else OnLoaded(s.value, c)
    case ChangeModel(_, model) =>
      if !IsModelId(model) then Err(InvalidTransition)
      else if s.None? then Err(SessionNotFound) else OnLoaded(s.value, c)
    case ChangeModelSettings(_, model, _, _) =>
      if !IsModelId(model) then Err(InvalidTransition)
      else if s.None? then Err(SessionNotFound) else OnLoaded(s.value, c)
    case RecordContextCompaction(_, summary, _) =>
      if IsBlank(summary) then Err(InvalidTransition)
      else if s.None? then Err(SessionNotFound) else OnLoaded(s.value, c)
    case _ => if s.None? then Err(SessionNotFound) else OnLoaded(s.value, c)
  }

  /** One recorded event on one session: the checks and the live change. */
  function RecordStep(s: SessionState, e: AppEvent): Result<SessionState> {
    match e
    case SteeringApplied(turn, _, _) =>
      if s.activeTurn != Some(turn) || s.lifecycle != Running then Err(InvalidTransition) else Ok(s)
    case PermissionRequired(request) =>
      if s.lifecycle != Running then Err(InvalidTransition)
      else Ok(s.(lifecycle := WaitingForApproval, pendingPermission := Some(request)))
    case PermissionResolved(request, _) =>
      if s.lifecycle != WaitingForApproval || s.pendingPermission != Some(request) then Err(InvalidTransition)
      else Ok(s.(lifecycle := Running, pendingPermission := None))
    case QuestionAsked(question) =>
      if s.lifecycle != Running then Err(InvalidTransition)
      else Ok(s.(lifecycle := WaitingForAnswer, pendingQuestion := Some(question)))
    case QuestionsAsked(request, questions) =>
      if s.lifecycle != Running || questions == [] then Err(InvalidTransition)
      else Ok(s.(lifecycle := WaitingForAnswer, pendingQuestion := Some(request)))
    case QuestionAnswered(question, answers) =>
      if answers == [] || s.lifecycle != WaitingForAnswer || s.pendingQuestion != Some(question)
      then Err(InvalidTransition)
      else Ok(s.(lifecycle := Running, pendingQuestion := None))
    case QuestionsAnswered(request) =>
      if s.lifecycle != WaitingForAnswer || s.pendingQuestion != Some(request) then Err(InvalidTransition)
      else Ok(s.(lifecycle := Running, pendingQuestion := None))
    case QuestionsFailed(request) =>
      if s.lifecycle != WaitingForAnswer || s.pendingQuestion != Some(request) then Err(InvalidTransition)
      else Ok(s.(lifecycle := Running, pendingQuestion := None))
    case _ => Ok(s)
  }

  // ---------- What commands do, by kind ----------

  predicate IsReady(s: Option<SessionState>) {
    s.Some? && s.value.lifecycle == Ready
  }

  /** The turn is under way: running, or waiting for the user. */
  predicate IsUnderWay(s: Option<SessionState>, turn: TurnId) {
    && s.Some? && s.value.activeTurn == Some(turn)
    && s.value.lifecycle in {Running, WaitingForApproval, WaitingForAnswer}
  }

  /** When a session takes a command. */
  ghost predicate Takes(s: Option<SessionState>, c: AppCommand) {
    match c
    case CreateSession(_, _, _, _) => s.None?
    case ResumeSession(_, _, _, _) => s.None?
    case SubmitPrompt(_, turn, _, _, promptValid) => promptValid && IsReady(s) && turn !in s.value.terminalTurns
    case StartImageGeneration(_, turn) => IsReady(s) && turn !in s.value.terminalTurns
    case CancelTurn(_, turn) => IsUnderWay(s, turn)
    case FinishTurn(_, turn) => IsUnderWay(s, turn)
    case FailTurn(_, turn, _) => IsUnderWay(s, turn)
    case ChangeModel(_, model) => IsReady(s) && model != "" && forall ch | ch in model :: !IsWhitespace(ch)
    case ChangeModelSettings(_, model, _, _) =>
      IsReady(s) && model != "" && forall ch | ch in model :: !IsWhitespace(ch)
    case RecordContextCompaction(_, summary, _) => IsReady(s) && exists ch :: ch in summary && !IsWhitespace(ch)
    case _ => IsReady(s)
  }

  /** The journal tells of a turn exactly what was asked: which one, how it ended, and with what words. */
  ghost predicate TellsOfTurns(c: AppCommand, events: seq<AppEvent>) {
    && (forall turn :: TurnCancelled(turn) in events <==> c.CancelTurn? && turn == c.turnId)
    && (forall turn :: TurnCompleted(turn) in events <==> c.FinishTurn? && turn == c.turnId)
    && (forall turn, message ::
          ErrorRaised(turn, message) in events <==> c.FailTurn? && turn == Some(c.turnId) && message == c.message)
    && (forall turn ::
          TurnStarted(turn) in events <==> (c.SubmitPrompt? || c.StartImageGeneration?) && turn == c.turnId)
    && (forall turn, text, attachments ::
          PromptAccepted(turn, text, attachments) in events
          <==> c.SubmitPrompt? && turn == c.turnId && text == c.text && attachments == c.attachments)
    && (c.SubmitPrompt? ==> |events| == 2 && events[0].PromptAccepted? && events[1].TurnStarted?)
  }

  /** And of the settings exactly what was asked for. */
  ghost predicate TellsOfSettings(c: AppCommand, events: seq<AppEvent>) {
    && (forall model ::
          ModelChanged(model) in events <==> (c.ChangeModel? || c.ChangeModelSettings?) && model == c.model)
    && (forall level ::
          ThinkingLevelChanged(level) in events
          <==> (c.ChangeThinkingLevel? && level == c.level) || (c.ChangeModelSettings? && level == c.thinking))
    && (forall profile ::
          PermissionProfileChanged(profile) in events <==> c.ChangePermissionProfile? && profile == c.profile)
    && (forall settings ::
          DesktopAgentConfigured(settings) in events <==> c.ConfigureDesktopAgent? && settings == c.settings)
    && (forall status ::
          SecurityStatusChanged(status) in events
          <==> status == "unverified" && (c.CreateSession? || (c.ChangeModelSettings? && c.resetSecurity)))
  }

  /** And of the session: when it opened, compacted and closed. */
  ghost predicate TellsOfSession(c: AppCommand, events: seq<AppEvent>) {
    && (forall cwd, origin, profile ::
          SessionCreated(cwd, origin, profile) in events
          <==> c.CreateSession? && cwd == c.cwd && origin == c.sessionOrigin && profile == c.profile)
    && (forall cwd, origin, profile ::
          SessionResumed(cwd, origin, profile) in events
          <==> c.ResumeSession? && cwd == c.cwd && origin == c.sessionOrigin && profile == c.profile)
    && (forall summary, count ::
          ContextCompacted(summary, count) in events
          <==> c.RecordContextCompaction? && summary == c.summary && count == c.messagesBefore)
    && (SessionClosed in events <==> c.CloseSession?)
    && 0 < |events| <= 3
  }

  /** What a command leaves of the session. */
  predicate Becomes(s: Option<SessionState>, c: AppCommand, next: SessionState) {
    match c
    case CreateSession(id, cwd, origin, profile) =>
      next == SessionState(id, cwd, origin, profile, Ready, None, {}, None, None)
    case ResumeSession(id, cwd, origin, profile) =>
      next == SessionState(id, cwd, origin, profile, Ready, None, {}, None, None)
    case SubmitPrompt(_, turn, _, _, _) => Begun(s, turn, next)
    case StartImageGeneration(_, turn) => Begun(s, turn, next)
    case CancelTurn(_, turn) => Over(s, turn, next)
    case FinishTurn(_, turn) => Over(s, turn, next)
    case FailTurn(_, turn, _) => Over(s, turn, next)
    case ConfigureDesktopAgent(_, settings) =>
      var profile := if !settings.enabled then Web
                     else if settings.permission == GrantFullAccess then FullAccess else Confirm;
      s.Some? && next == s.value.(cwd := settings.workingDirectory, profile := profile)
    case ChangePermissionProfile(_, profile) => s.Some? && next == s.value.(profile := profile)
    case CloseSession(_) => s.Some? && next == s.value.(lifecycle := Closed)
    case _ => s == Some(next)
  }

  predicate Begun(s: Option<SessionState>, turn: TurnId, next: SessionState) {
    s.Some? && next == s.value.(lifecycle := Running, activeTurn := Some(turn))
  }

  predicate Over(s: Option<SessionState>, turn: TurnId, next: SessionState) {
    && s.Some?
    && next == s.value.(lifecycle := Ready, activeTurn := None, pendingPermission := None, pendingQuestion := None,
                        terminalTurns := s.value.terminalTurns + {turn})
  }

  lemma TakenExactly(s: Option<SessionState>, c: AppCommand)
    ensures SessionStep(s, c).Ok? <==> Takes(s, c)
  {
    match c
    case RecordContextCompaction(_, summary, _) =>
      if !IsBlank(summary) {
        var ch :| ch in summary && !IsWhitespace(ch);
      }
    case ChangeModel(_, model) =>
      assert model != "" ==> model[0] in model;
    case ChangeModelSettings(_, model, _, _) =>
      assert model != "" ==> model[0] in model;
    case _ =>
  }

  lemma TakenTellsOfTurns(s: Option<SessionState>, c: AppCommand)
    requires SessionStep(s, c).Ok?
    ensures TellsOfTurns(c, SessionStep(s, c).value.1)
  {
  }

  lemma TakenTellsOfSettings(s: Option<SessionState>, c: AppCommand)
    requires SessionStep(s, c).Ok?
    ensures TellsOfSettings(c, SessionStep(s, c).value.1)
  {
  }

  lemma TakenTellsOfSession(s: Option<SessionState>, c: AppCommand)
    requires SessionStep(s, c).Ok?
    ensures TellsOfSession(c, SessionStep(s, c).value.1)
  {
  }

  lemma TakenBecomes(s: Option<SessionState>, c: AppCommand)
    requires SessionStep(s, c).Ok?
    ensures Becomes(s, c, SessionStep(s, c).value.0)
  {
  }

  /** What the events of a command tell, whole. */
  ghost predicate Tells(c: AppCommand, events: seq<AppEvent>) {
    TellsOfTurns(c, events) && TellsOfSettings(c, events) && TellsOfSession(c, events)
  }

  lemma TakenCommandTells(s: Option<SessionState>, c: AppCommand)
    requires SessionStep(s, c).Ok?
    ensures Tells(c, SessionStep(s, c).value.1) && Becomes(s, c, SessionStep(s, c).value.0)
  {
    TakenTellsOfTurns(s, c);
    TakenTellsOfSettings(s, c);
    TakenTellsOfSession(s, c);
    TakenBecomes(s, c);
  }

  /** When the kernel takes an event of the running turn. */
  predicate Records(s: SessionState, e: AppEvent) {
    match e
    case SteeringApplied(turn, _, _) => s.lifecycle == Running && s.activeTurn == Some(turn)
    case PermissionRequired(_) => s.lifecycle == Running
    case PermissionResolved(request, _) => s.lifecycle == WaitingForApproval && s.pendingPermission == Some(request)
    case QuestionAsked(_) => s.lifecycle == Running
    case QuestionsAsked(_, questions) => s.lifecycle == Running && |questions| > 0
    case QuestionAnswered(question, answers) => IsAsked(s, question) && |answers| > 0
    case QuestionsAnswered(request) => IsAsked(s, request)
    case QuestionsFailed(request) => IsAsked(s, request)
    case _ => true
  }

  predicate IsAsked(s: SessionState, question: string) {
    s.lifecycle == WaitingForAnswer && s.pendingQuestion == Some(question)
  }

  /** The kernel waits for the user exactly from a question to its answer, and an event changes nothing else. */
  lemma RecordedExactly(s: SessionState, e: AppEvent)
    ensures RecordStep(s, e).Ok? <==> Records(s, e)
    ensures Records(s, e) ==>
              var next := RecordStep(s, e).value;
              && next.(lifecycle := s.lifecycle, pendingPermission := s.pendingPermission,
                       pendingQuestion := s.pendingQuestion) == s
              && (e.PermissionRequired? ==>
                    next.lifecycle == WaitingForApproval && next.pendingPermission == Some(e.requestId))
              && (e.QuestionAsked? ==> IsAsked(next, e.questionId))
              && (e.QuestionsAsked? ==> IsAsked(next, e.requestId))
              && (e.PermissionResolved? ==> next.lifecycle == Running && next.pendingPermission == None)
              && (e.QuestionAnswered? || e.QuestionsAnswered? || e.QuestionsFailed? ==>
                    next.lifecycle == Running && next.pendingQuestion == None)
              && (next != s ==>
                    || e.PermissionRequired? || e.PermissionResolved? || e.QuestionAsked? || e.QuestionsAsked?
                    || e.QuestionAnswered? || e.QuestionsAnswered? || e.QuestionsFailed?)
  {
  }

  // ---------- Replay ----------

  /** One journal event on the session rebuilt so far. Replay checks nothing but existence. */
  function ReplayEvent(state: Option<SessionState>, id: SessionId, e: AppEvent): Result<Option<SessionState>> {
    match e
    case SessionCreated(cwd, origin, profile) =>
      Ok(if state.None? then Some(FreshSession(id, cwd, origin, profile)) else state)
    case SessionResumed(cwd, origin, profile) =>
      Ok(if state.None? then Some(FreshSession(id, cwd, origin, profile)) else state)
    case TurnStarted(turn) =>
      if state.None? then Err(InvalidTransition)
      else Ok(Some(state.value.(lifecycle := Running, activeTurn := Some(turn))))
    case PermissionRequired(request) =>
      if state.None? then Err(InvalidTransition)
      else Ok(Some(state.value.(lifecycle := WaitingForApproval, pendingPermission := Some(request))))
    case PermissionResolved(_, _) =>
      Ok(if state.None? then None else Some(state.value.(lifecycle := Running, pendingPermission := None)))
    case QuestionAsked(question) =>
      if state.None? then Err(InvalidTransition)
      else Ok(Some(state.value.(lifecycle := WaitingForAnswer, pendingQuestion := Some(question))))
    case QuestionsAsked(request, _) =>
      if state.None? then Err(InvalidTransition)
      else Ok(Some(state.value.(lifecycle := WaitingForAnswer, pendingQuestion := Some(request))))
    case QuestionAnswered(_, _) =>
      Ok(if state.None? then None else Some(state.value.(lifecycle := Running, pendingQuestion := None)))
    case QuestionsAnswered(_) =>
      Ok(if state.None? then None else Some(state.value.(lifecycle := Running, pendingQuestion := None)))
    case QuestionsFailed(_) =>
      Ok(if state.None? then None else Some(state.value.(lifecycle := Running, pendingQuestion := None)))
    case DesktopAgentConfigured(settings) =>
      Ok(if state.None? then None
         else Some(state.value.(cwd := settings.workingDirectory, profile := ProfileForDesktopAgent(settings))))
    case PermissionProfileChanged(profile) =>
      Ok(if state.None? then None else Some(state.value.(profile := profile)))
    case SessionClosed =>
      Ok(if state.None? then None else Some(state.value.(lifecycle := Closed)))
    case _ =>
      var ended := TerminalTurn(e);
      Ok(if state.None? || ended.None? then state
         else Some(Reset(state.value).(terminalTurns := state.value.terminalTurns + {ended.value})))
  }

  datatype ProjectionState = ProjectionState(id: SessionId, state: Option<SessionState>, maxSequence: nat)

  datatype CompletedRestore = CompletedRestore(id: SessionId, state: SessionState, maxSequence: nat)

  function ProjectOne(p: ProjectionState, envelope: EventEnvelope): Result<ProjectionState> {
    if envelope.sessionId != p.id then Err(InvalidTransition)
    else match ReplayEvent(p.state, p.id, envelope.event)
      case Err(e) => Err(e)
      case Ok(next) => Ok(ProjectionState(p.id, next, Max(p.maxSequence, envelope.sequence)))
  }

  /** The projection of a journal prefix, from the left. */
  function ProjectAll(id: SessionId, events: seq<EventEnvelope>): Result<ProjectionState> {
    if events == [] then Ok(ProjectionState(id, None, 0))
    else match ProjectAll(id, events[..|events| - 1])
      case Err(e) => Err(e)
      case Ok(p) => ProjectOne(p, events[|events| - 1])
  }

  function FinishProjection(p: ProjectionState): Result<CompletedRestore> {
    if p.state.None? then Err(InvalidTransition)
    else Ok(CompletedRestore(p.id, Reset(p.state.value), p.maxSequence))
  }

  /** What restoring a whole journal yields. */
  function Project(events: seq<EventEnvelope>): Result<CompletedRestore> {
    if events == [] then Err(InvalidTransition)
    else match ProjectAll(events[0].sessionId, events)
      case Err(e) => Err(e)
      case Ok(p) => FinishProjection(p)
  }

  /** The others were served `served` times when the restore met the failure: once before each event
      up to the first that does not project, and once more when all do. */
  ghost predicate FailsAt(events: seq<EventEnvelope>, served: nat) {
    if events == [] then served == 0
    else
      && 0 < served <= |events| + 1
      && ProjectAll(events[0].sessionId, events[..served - 1]).Ok?
      && (served <= |events| ==> ProjectAll(events[0].sessionId, events[..served]).Err?)
  }

  // ---------- The kernel ----------

  function Lookup(k: KernelState, id: SessionId): Option<SessionState> {
    if id in k.sessions then Some(k.sessions[id]) else None
  }

  /** The envelopes of one batch: consecutive sequence numbers after `last`. */
  function Seal(last: nat, id: SessionId, correlation: CorrelationId, origin: Origin, events: seq<AppEvent>)
    : (r: seq<EventEnvelope>)
    ensures |r| == |events|
    ensures forall i | 0 <= i < |r| ::
              r[i] == EventEnvelope(last + 1 + i, correlation, origin, id, events[i])
  {
    seq(|events|, i requires 0 <= i < |events| => EventEnvelope(last + 1 + i, correlation, origin, id, events[i]))
  }

  /** What a command does to the loaded sessions, and the events it emits. */
  function OnSessions(sessions: map<SessionId, SessionState>, command: AppCommand)
    : (map<SessionId, SessionState>, Result<seq<AppEvent>>)
  {
    var id := command.sessionId;
    match SessionStep(if id in sessions then Some(sessions[id]) else None, command)
    case Ok((s, events)) => (sessions[id := s], Ok(events))
    case Err(e) => (sessions, Err(e))
  }

  function ApplyTo(k: KernelState, request: CommandEnvelope): (KernelState, Result<seq<EventEnvelope>>) {
    var id := request.command.sessionId;
    if request.cancelled then (k, Err(Cancelled))
    else match SessionStep(Lookup(k, id), request.command)
      case Err(e) => (k, Err(e))
      case Ok((s, events)) =>
        (KernelState(k.sessions[id := s], k.nextSequence + |events|),
         Ok(Seal(k.nextSequence, id, request.correlationId, request.origin, events)))
  }

  function RecordIn(k: KernelState, id: SessionId, correlation: CorrelationId, origin: Origin, e: AppEvent)
    : (KernelState, Result<EventEnvelope>)
  {
    if id !in k.sessions then (k, Err(SessionNotFound))
    else match RecordStep(k.sessions[id], e)
      case Err(error) => (k, Err(error))
      case Ok(s) =>
        (KernelState(k.sessions[id := s], k.nextSequence + 1),
         Ok(EventEnvelope(k.nextSequence + 1, correlation, origin, id, e)))
  }

  function Install(k: KernelState, restored: CompletedRestore): KernelState {
    KernelState(k.sessions[restored.id := restored.state], Max(k.nextSequence, restored.maxSequence))
  }

  /** A command is applied exactly when its session takes it, and then the journal tells what was
      asked and the session has become that. */
  lemma AppliedTells(k: KernelState, request: CommandEnvelope)
    ensures var id, c := request.command.sessionId, request.command;
            var (next, r) := ApplyTo(k, request);
            && (r.Ok? <==> !request.cancelled && Takes(Lookup(k, id), c))
            && (r.Ok? ==> Tells(c, EventsOf(r.value)) && id in next.sessions
                          && Becomes(Lookup(k, id), c, next.sessions[id]))
  {
    var id, c := request.command.sessionId, request.command;
    TakenExactly(Lookup(k, id), c);
    if SessionStep(Lookup(k, id), c).Ok? {
      var events := SessionStep(Lookup(k, id), c).value.1;
      TakenCommandTells(Lookup(k, id), c);
      assert EventsOf(Seal(k.nextSequence, id, request.correlationId, request.origin, events)) == events;
    }
  }

  /** A command dispatched, or an event emitted, by some client of the runtime. */
  datatype Operation =
    | Dispatch(request: CommandEnvelope)
    | Emit(sessionId: SessionId, correlationId: CorrelationId, event: AppEvent)

  function Target(op: Operation): SessionId {
    match op
    case Dispatch(request) => request.command.sessionId
    case Emit(id, _, _) => id
  }

  /** The kernel after an operation and the envelopes it published, none when it was rejected. */
  function Perform(k: KernelState, op: Operation): (KernelState, seq<EventEnvelope>) {
    match op
    case Dispatch(request) =>
      (match ApplyTo(k, request)
       case (next, Ok(events)) => (next, events)
       case (next, Err(_)) => (next, []))
    case Emit(id, correlation, e) =>
      if id !in k.sessions then (k, [])
      else match RecordIn(k, id, correlation, k.sessions[id].origin, e)
        case (next, Ok(envelope)) => (next, [envelope])
        case (next, Err(_)) => (next, [])
  }

  function PerformAll(k: KernelState, ops: seq<Operation>): KernelState {
    if ops == [] then k else Perform(PerformAll(k, ops[..|ops| - 1]), ops[|ops| - 1]).0
  }

  function Concat(schedule: seq<seq<Operation>>): seq<Operation> {
    if schedule == [] then [] else Concat(schedule[..|schedule| - 1]) + schedule[|schedule| - 1]
  }

  lemma {:induction false} PerformAllConcat(k: KernelState, a: seq<Operation>, b: seq<Operation>)
    ensures PerformAll(k, a + b) == PerformAll(PerformAll(k, a), b)
  {
    if b == [] {
      assert a + b == a;
    } else {
      var n := |b| - 1;
      assert (a + b)[..|a + b| - 1] == a + b[..n];
      PerformAllConcat(k, a, b[..n]);
    }
  }

  /** A closed session stays as it is for good: whatever clients do, no command for it is accepted,
      and no event changes it. */
  lemma {:induction false} ClosedForGood(k: KernelState, id: SessionId, ops: seq<Operation>, request: CommandEnvelope)
    requires id in k.sessions && k.sessions[id].lifecycle == Closed && request.command.sessionId == id
    ensures var after := PerformAll(k, ops);
            && id in after.sessions && after.sessions[id] == k.sessions[id]
            && ApplyTo(after, request).1.Err?
  {
    if ops != [] {
      var n := |ops| - 1;
      ClosedForGood(k, id, ops[..n], request);
      ClosedIgnores(PerformAll(k, ops[..n]), id, ops[n]);
    }
    AppliedTells(PerformAll(k, ops), request);
  }

  lemma ClosedIgnores(k: KernelState, id: SessionId, op: Operation)
    requires id in k.sessions && k.sessions[id].lifecycle == Closed
    ensures id in Perform(k, op).0.sessions && Perform(k, op).0.sessions[id] == k.sessions[id]
  {
    match op
    case Dispatch(request) => AppliedTells(k, request);
    case Emit(other, _, e) =>
      if other in k.sessions {
        RecordedExactly(k.sessions[other], e);
      }
  }

  /** The replay of one journal, kept apart from the kernel until it is complete. */
  class RestoreProjection {
    const id: SessionId
    var state: Option<SessionState>
    var maxSequence: nat

    function View(): ProjectionState
      reads this
    {
      ProjectionState(id, state, maxSequence)
    }

    constructor (id: SessionId)
      ensures View() == ProjectionState(id, None, 0)
    {
      this.id := id;
      state := None;
      maxSequence := 0;
    }

    method Replay(envelope: EventEnvelope) returns (r: Result<()>)
      modifies this
      ensures match ProjectOne(old(View()), envelope)
              case Ok(p) => r == Ok(()) && View() == p
              case Err(e) => r == Err(e)
    {
      if envelope.sessionId != id {
        return Err(InvalidTransition);
      }
      maxSequence := Max(maxSequence, envelope.sequence);
      match ReplayEvent(state, id, envelope.event)
      case Err(e) =>
        r := Err(e);
      case Ok(next) =>
        state := next;
        r := Ok(());
    }
  }

  class Kernel {
    var sessions: map<SessionId, SessionState>
    var nextSequence: nat

    function View(): KernelState
      reads this
    {
      KernelState(sessions, nextSequence)
    }

    constructor ()
      ensures View() == KernelState(map[], 0)
    {
      sessions := map[];
      nextSequence := 0;
    }

    method Envelope(id: SessionId, correlation: CorrelationId, origin: Origin, event: AppEvent)
      returns (envelope: EventEnvelope)
      modifies this`nextSequence
      ensures nextSequence == old(nextSequence) + 1
      ensures envelope == EventEnvelope(nextSequence, correlation, origin, id, event)
    {
      nextSequence := nextSequence + 1;
      envelope := EventEnvelope(nextSequence, correlation, origin, id, event);
    }

    method EnvelopeAll(id: SessionId, correlation: CorrelationId, origin: Origin, events: seq<AppEvent>)
      returns (envelopes: seq<EventEnvelope>)
      modifies this`nextSequence
      ensures nextSequence == old(nextSequence) + |events|
      ensures envelopes == Seal(old(nextSequence), id, correlation, origin, events)
    {
      envelopes := [];
      for i := 0 to |events|
        invariant nextSequence == old(nextSequence) + i
        invariant |envelopes| == i
        invariant forall j | 0 <= j < i ::
                    envelopes[j] == EventEnvelope(old(nextSequence) + 1 + j, correlation, origin, id, events[j])
      {
        var envelope := Envelope(id, correlation, origin, events[i]);
        envelopes := envelopes + [envelope];
      }
    }

    method FinishTurnOf(id: SessionId, turn: TurnId) returns (r: Result<()>)
      modifies this`sessions
      ensures match (if id in old(sessions) then FinishActive(old(sessions)[id], turn) else Err(SessionNotFound))
              case Ok(s) => r == Ok(()) && sessions == old(sessions)[id := s]
              case Err(e) => r == Err(e) && sessions == old(sessions)
    {
      if id !in sessions {
        return Err(SessionNotFound);
      }
      var session := sessions[id];
      if session.activeTurn != Some(turn)
         || !(session.lifecycle == Running || session.lifecycle == WaitingForApproval
              || session.lifecycle == WaitingForAnswer)
      {
        return Err(InvalidTransition);
      }
      sessions := sessions[id := session.(
                                 lifecycle := Ready,
                                 activeTurn := None,
                                 terminalTurns := session.terminalTurns + {turn},
                                 pendingPermission := None,
                                 pendingQuestion := None)];
      r := Ok(());
    }

    /** Create or resume a session that is not loaded. */
    method OpenSession(command: AppCommand) returns (r: Result<seq<AppEvent>>)
      requires command.CreateSession? || command.ResumeSession?
      modifies this`sessions
      ensures (sessions, r) == OnSessions(old(sessions), command)
    {
      var id := command.sessionId;
      if id in sessions {
        return Err(InvalidTransition);
      }
      sessions := sessions[id := FreshSession(id, command.cwd, command.sessionOrigin, command.profile)];
      if command.CreateSession? {
        r := Ok([SessionCreated(command.cwd, command.sessionOrigin, command.profile),
                 SecurityStatusChanged("unverified")]);
      } else {
        r := Ok([SessionResumed(command.cwd, command.sessionOrigin, command.profile)]);
      }
    }

    /** Start a turn that has not ended yet on a ready session. */
    method StartTurn(command: AppCommand) returns (r: Result<seq<AppEvent>>)
      requires command.SubmitPrompt? || command.StartImageGeneration?
      modifies this`sessions
      ensures (sessions, r) == OnSessions(old(sessions), command)
    {
      var id, turn := command.sessionId, command.turnId;
      if command.SubmitPrompt? && !command.promptValid {
        return Err(InvalidTransition);
      }
      if id !in sessions {
        return Err(SessionNotFound);
      }
      if sessions[id].lifecycle != Ready || turn in sessions[id].terminalTurns {
        return Err(InvalidTransition);
      }
      sessions := sessions[id := sessions[id].(lifecycle := Running, activeTurn := Some(turn))];
      if command.SubmitPrompt? {
        r := Ok([PromptAccepted(turn, command.text, command.attachments), TurnStarted(turn)]);
      } else {
        r := Ok([TurnStarted(turn)]);
      }
    }

    /** End the active turn, in one of three ways. */
    method EndTurn(command: AppCommand) returns (r: Result<seq<AppEvent>>)
      requires command.CancelTurn? || command.FinishTurn? || command.FailTurn?
      modifies this`sessions
      ensures (sessions, r) == OnSessions(old(sessions), command)
    {
      var finished := FinishTurnOf(command.sessionId, command.turnId);
      if finished.Err? {
        return Err(finished.error);
      }
      match command {
      case CancelTurn(_, turn) => r := Ok([TurnCancelled(turn)]);
      case FinishTurn(_, turn) => r := Ok([TurnCompleted(turn)]);
      case FailTurn(_, turn, message) => r := Ok([ErrorRaised(Some(turn), message)]);
      }
    }

    /** Change the settings of a ready session. */
    method Configure(command: AppCommand) returns (r: Result<seq<AppEvent>>)
      requires command.ConfigureDesktopAgent? || command.ChangePermissionProfile? || command.ChangeModel?
               || command.ChangeModelSettings? || command.ChangeThinkingLevel?
      modifies this`sessions
      ensures (sessions, r) == OnSessions(old(sessions), command)
    {
      var id := command.sessionId;
      if (command.ChangeModel? || command.ChangeModelSettings?) && !IsModelId(command.model) {
        return Err(InvalidTransition);
      }
      if id !in sessions {
        return Err(SessionNotFound);
      }
      if sessions[id].lifecycle != Ready {
        return Err(InvalidTransition);
      }
      var session := sessions[id];
      var events: seq<AppEvent>;
      match command {
      case ConfigureDesktopAgent(_, settings) =>
        session := session.(cwd := settings.workingDirectory, profile := ProfileForDesktopAgent(settings));
        events := [DesktopAgentConfigured(settings)];
      case ChangePermissionProfile(_, profile) =>
        session := session.(profile := profile);
        events := [PermissionProfileChanged(profile)];
      case ChangeModel(_, model) =>
        events := [ModelChanged(model)];
      case ChangeModelSettings(_, model, thinking, resetSecurity) =>
        var reset := if resetSecurity then [SecurityStatusChanged("unverified")] else [];
        events := [ThinkingLevelChanged(thinking)] + reset + [ModelChanged(model)];
      case ChangeThinkingLevel(_, level) =>
        events := [ThinkingLevelChanged(level)];
      }
      sessions := sessions[id := session];
      r := Ok(events);
    }

    /** Record a compaction on a ready session, or close it. */
    method Settle(command: AppCommand) returns (r: Result<seq<AppEvent>>)
      requires command.RecordContextCompaction? || command.CloseSession?
      modifies this`sessions
      ensures (sessions, r) == OnSessions(old(sessions), command)
    {
      var id := command.sessionId;
      if command.RecordContextCompaction? && IsBlank(command.summary) {
        return Err(InvalidTransition);
      }
      if id !in sessions {
        return Err(SessionNotFound);
      }
      if sessions[id].lifecycle != Ready {
        return Err(InvalidTransition);
      }
      if command.CloseSession? {
        sessions := sessions[id := sessions[id].(lifecycle := Closed)];
        r := Ok([SessionClosed]);
      } else {
        assert sessions == sessions[id := sessions[id]];
        r := Ok([ContextCompacted(command.summary, command.messagesBefore)]);
      }
    }

    /** Apply one command. A rejected command changes nothing and emits nothing; the events of an
        accepted one tell exactly what was asked. */
    method Apply(request: CommandEnvelope) returns (r: Result<seq<EventEnvelope>>)
      modifies this
      ensures (View(), r) == ApplyTo(old(View()), request)
      ensures r.Ok? <==> !request.cancelled
                         && Takes(Lookup(old(View()), request.command.sessionId), request.command)
      ensures r.Ok? ==> Tells(request.command, EventsOf(r.value))
    {
      AppliedTells(View(), request);
      if request.cancelled {
        return Err(Cancelled);
      }
      var command := request.command;
      var events: Result<seq<AppEvent>>;
      match command {
      case CreateSession(_, _, _, _) => events := OpenSession(command);
      case ResumeSession(_, _, _, _) => events := OpenSession(command);
      case SubmitPrompt(_, _, _, _, _) => events := StartTurn(command);
      case StartImageGeneration(_, _) => events := StartTurn(command);
      case CancelTurn(_, _) => events := EndTurn(command);
      case FinishTurn(_, _) => events := EndTurn(command);
      case FailTurn(_, _, _) => events := EndTurn(command);
      case RecordContextCompaction(_, _, _) => events := Settle(command);
      case CloseSession(_) => events := Settle(command);
      case _ => events := Configure(command);
      }
      if events.Err? {
        return Err(events.error);
      }
      var envelopes := EnvelopeAll(command.sessionId, request.correlationId, request.origin, events.value);
      r := Ok(envelopes);
    }

    /** Record one event of the running turn. A rejected event changes nothing. */
    method Record(id: SessionId, correlation: CorrelationId, origin: Origin, event: AppEvent)
      returns (r: Result<EventEnvelope>)
      modifies this
      ensures (View(), r) == RecordIn(old(View()), id, correlation, origin, event)
    {
      if id !in sessions {
        return Err(SessionNotFound);
      }
      match RecordStep(sessions[id], event)
      case Err(e) =>
        r := Err(e);
      case Ok(session) =>
        sessions := sessions[id := session];
        var envelope := Envelope(id, correlation, origin, event);
        r := Ok(envelope);
    }

    method InstallRestore(restored: CompletedRestore) returns (state: SessionState)
      modifies this
      ensures View() == Install(old(View()), restored) && state == restored.state
    {
      nextSequence := Max(nextSequence, restored.maxSequence);
      sessions := sessions[restored.id := restored.state];
      state := restored.state;
    }

    /** Operations of other clients that run while a restore has yielded. */
    method PerformOthers(ops: seq<Operation>)
      modifies this
      ensures View() == PerformAll(old(View()), ops)
    {
      for i := 0 to |ops|
        invariant View() == PerformAll(old(View()), ops[..i])
      {
        match ops[i] {
        case Dispatch(request) =>
          var _ := Apply(request);
        case Emit(id, correlation, event) =>
          if id in sessions {
            var _ := Record(id, correlation, sessions[id].origin, event);
          }
        }
        assert ops[..i + 1][..i] == ops[..i];
      }
      assert ops[..|ops|] == ops;
    }

    /** Restore a session while holding the kernel throughout. */
    method RestoreFromEvents(events: seq<EventEnvelope>) returns (r: Result<SessionState>)
      modifies this
      ensures match Project(events)
              case Ok(restored) => r == Ok(restored.state) && View() == Install(old(View()), restored)
              case Err(e) => r.Err? && View() == old(View())
    {
      if events == [] {
        return Err(InvalidTransition);
      }
      var projection := new RestoreProjection(events[0].sessionId);
      for i := 0 to |events|
        invariant fresh(projection) && View() == old(View())
        invariant ProjectAll(events[0].sessionId, events[..i]) == Ok(projection.View())
      {
        assert events[..i + 1][..i] == events[..i];
        var step := projection.Replay(events[i]);
        if step.Err? {
          ProjectAllFails(events[0].sessionId, events, i + 1);
          assert events[..(i + 1) - 1] == events[..i];
          return Err(step.error);
        }
      }
      assert events[..|events|] == events;
      match FinishProjection(projection.View())
      case Err(e) =>
        r := Err(e);
      case Ok(restored) =>
        var state := InstallRestore(restored);
        r := Ok(state);
    }

    /**
     Restore a session while other clients keep using the kernel: `schedule[i]` runs before
     event `i` is replayed and the last entry before the result is installed. The runtime
     yields after every 128 events; any interleaving is one of these schedules. Of a journal
     that does not project, nothing is installed: the kernel is as the others left it.
     */
    method RestoreWithCooperation(events: seq<EventEnvelope>, schedule: seq<seq<Operation>>)
      returns (r: Result<SessionState>, ghost served: nat)
      requires |schedule| == |events| + 1
      modifies this
      ensures match Project(events)
              case Ok(restored) =>
                && r == Ok(restored.state)
                && View() == Install(PerformAll(old(View()), Concat(schedule)), restored)
              case Err(e) =>
                && r.Err? && served <= |schedule| && FailsAt(events, served)
                && View() == PerformAll(old(View()), Concat(schedule[..served]))
    {
      served := 0;
      if events == [] {
        return Err(InvalidTransition), 0;
      }
      var projection := new RestoreProjection(events[0].sessionId);
      for i := 0 to |events|
        invariant fresh(projection)
        invariant ProjectAll(events[0].sessionId, events[..i]) == Ok(projection.View())
        invariant View() == PerformAll(old(View()), Concat(schedule[..i]))
      {
        PerformOthers(schedule[i]);
        ServedOnce(old(View()), schedule, i);
        assert events[..i + 1][..i] == events[..i];
        var step := projection.Replay(events[i]);
        if step.Err? {
          ProjectAllFails(events[0].sessionId, events, i + 1);
          return Err(step.error), i + 1;
        }
      }
      var last := |events|;
      PerformOthers(schedule[last]);
      ServedOnce(old(View()), schedule, last);
      assert schedule[..last + 1] == schedule && events[..last] == events;
      served := last + 1;
      match FinishProjection(projection.View())
      case Err(e) =>
        r := Err(e);
      case Ok(restored) =>
        var state := InstallRestore(restored);
        r := Ok(state);
    }
  }

  lemma ServedOnce(k: KernelState, schedule: seq<seq<Operation>>, i: nat)
    requires i < |schedule|
    ensures PerformAll(k, Concat(schedule[..i + 1])) == PerformAll(PerformAll(k, Concat(schedule[..i])), schedule[i])
  {
    assert schedule[..i + 1][..i] == schedule[..i];
    PerformAllConcat(k, Concat(schedule[..i]), schedule[i]);
  }

  /** A projection that has failed stays failed. */
  lemma {:induction false} ProjectAllFails(id: SessionId, events: seq<EventEnvelope>, n: nat)
    requires n <= |events| && ProjectAll(id, events[..n]).Err?
    ensures ProjectAll(id, events).Err?
    decreases |events|
  {
    if n == |events| {
      assert events[..n] == events;
    } else {
      assert events[..|events| - 1][..n] == events[..n];
      ProjectAllFails(id, events[..|events| - 1], n);
    }
  }
}
