/** Commands, events and session state of the application runtime. */
module Vocabulary {
  import opened Prelude

  type SessionId = string
  type TurnId = string
  type CorrelationId = string

  datatype Origin = Tui | Acp | Headless | Test

  datatype PermissionProfile = NoTools | Web | Observe | Confirm | FullAccess

  datatype DesktopPermission = ApproveCommands | GrantFullAccess

  datatype DesktopAgentSettings =
    DesktopAgentSettings(enabled: bool, permission: DesktopPermission, workingDirectory: string)

  function ProfileForDesktopAgent(settings: DesktopAgentSettings): PermissionProfile {
    if !settings.enabled then Web
    else match settings.permission
      case ApproveCommands => Confirm
      case GrantFullAccess => FullAccess
  }

  datatype Lifecycle = Ready | Running | WaitingForApproval | WaitingForAnswer | Closed

  datatype Attachment =
    | ImageAttachment(quotedName: string, image: string)
    | FileAttachment(quotedName: string, file: string)
    | TextAttachment(quotedName: string, text: string)

  datatype AppEvent =
    | SteeringApplied(turnId: TurnId, itemId: string, text: string)
    | SessionCreated(cwd: string, origin: Origin, profile: PermissionProfile)
    | SessionResumed(cwd: string, origin: Origin, profile: PermissionProfile)
    | PromptAccepted(turnId: TurnId, text: string, attachments: seq<Attachment>)
    | TurnStarted(turnId: TurnId)
    | TextDelta(turnId: TurnId, text: string)
    | ReasoningDelta(turnId: TurnId, text: string)
    | ToolProposed(turnId: TurnId, callId: string, name: string, arguments: string)
    | PermissionRequired(requestId: string)
    | PermissionResolved(requestId: string, allowed: bool)
    | ToolStarted(callId: string, name: string)
    | ToolOutput(callId: string, content: string)
    | ToolCompleted(callId: string, success: bool)
    | QuestionAsked(questionId: string)
    | QuestionAnswered(questionId: string, answers: seq<string>)
    | QuestionsAsked(requestId: string, questions: seq<string>)
    | QuestionsAnswered(requestId: string)
    | QuestionsFailed(requestId: string)
    | PermissionProfileChanged(profile: PermissionProfile)
    | DesktopAgentConfigured(settings: DesktopAgentSettings)
    | ModelChanged(model: string)
    | ThinkingLevelChanged(level: string)
    | ContextCompacted(summary: string, messagesBefore: nat)
    | SecurityStatusChanged(status: string)
    | ResponseVerified(turnId: TurnId)
    | TurnCompleted(turnId: TurnId)
    | TurnCancelled(turnId: TurnId)
    | ErrorRaised(failedTurn: Option<TurnId>, message: string)
    | SessionClosed
      // Every variant that neither the kernel nor a replay interprets: usage, progress,
      // task lists, images, diffs, plans, background tasks, provider status, warnings.
    | Notice(kind: string)

  datatype EventEnvelope = EventEnvelope(
    sequence: nat,
    correlationId: CorrelationId,
    origin: Origin,
    sessionId: SessionId,
    event: AppEvent)

  datatype AppCommand =
    | CreateSession(sessionId: SessionId, cwd: string, sessionOrigin: Origin, profile: PermissionProfile)
    | ResumeSession(sessionId: SessionId, cwd: string, sessionOrigin: Origin, profile: PermissionProfile)
      // `promptValid` is the verdict of the prompt validator on text and attachments.
    | SubmitPrompt(sessionId: SessionId, turnId: TurnId, text: string, attachments: seq<Attachment>,
                   promptValid: bool)
    | StartImageGeneration(sessionId: SessionId, turnId: TurnId)
    | CancelTurn(sessionId: SessionId, turnId: TurnId)
    | FinishTurn(sessionId: SessionId, turnId: TurnId)
    | FailTurn(sessionId: SessionId, turnId: TurnId, message: string)
    | ConfigureDesktopAgent(sessionId: SessionId, settings: DesktopAgentSettings)
    | ChangePermissionProfile(sessionId: SessionId, profile: PermissionProfile)
    | ChangeModel(sessionId: SessionId, model: string)
    | ChangeModelSettings(sessionId: SessionId, model: string, thinking: string, resetSecurity: bool)
    | ChangeThinkingLevel(sessionId: SessionId, level: string)
    | RecordContextCompaction(sessionId: SessionId, summary: string, messagesBefore: nat)
    | CloseSession(sessionId: SessionId)

  datatype CommandEnvelope = CommandEnvelope(
    correlationId: CorrelationId,
    origin: Origin,
    cancelled: bool,
    command: AppCommand)

  datatype SessionState = SessionState(
    id: SessionId,
    cwd: string,
    origin: Origin,
    profile: PermissionProfile,
    lifecycle: Lifecycle,
    activeTurn: Option<TurnId>,
    terminalTurns: set<TurnId>,
    pendingPermission: Option<string>,
    pendingQuestion: Option<string>)

  function FreshSession(id: SessionId, cwd: string, origin: Origin, profile: PermissionProfile): SessionState {
    SessionState(id, cwd, origin, profile, Ready, None, {}, None, None)
  }

  /** Forget the volatile fields: what a restarted process knows of a session. */
  function Reset(s: SessionState): SessionState {
    s.(lifecycle := Ready, activeTurn := None, pendingPermission := None, pendingQuestion := None)
  }

  /** The turn an event ends, if it ends one. */
  function TerminalTurn(e: AppEvent): Option<TurnId> {
    match e
    case TurnCompleted(t) => Some(t)
    case TurnCancelled(t) => Some(t)
    case ErrorRaised(Some(t), _) => Some(t)
    case _ => None
  }

  function EventsOf(journal: seq<EventEnvelope>): seq<AppEvent> {
    seq(|journal|, i requires 0 <= i < |journal| => journal[i].event)
  }
}
