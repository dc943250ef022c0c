/**
 Asking for permission inside a turn: which decisions lead to a question, which events the
 questions emit, and how the session kernel takes those events.
 */
module Approvals {
  import opened Prelude
  import opened Vocabulary
  import opened KernelModel
  import Journals

  // ---------- Recording a stream of events ----------

  function RecordAll(s: SessionState, events: seq<AppEvent>): Result<SessionState>
    decreases |events|
  {
    if events == [] then Ok(s)
    else match RecordStep(s, events[0])
      case Ok(next) => RecordAll(next, events[1..])
      case Err(error) => Err(error)
  }

  lemma {:induction false} RecordConcat(s: SessionState, a: seq<AppEvent>, b: seq<AppEvent>)
    ensures RecordAll(s, a + b)
            == match RecordAll(s, a)
               case Ok(mid) => RecordAll(mid, b)
               case Err(error) => Err(error)
    decreases |a|
  {
    if a == [] {
      assert a + b == b;
    } else {
      assert (a + b)[0] == a[0] && (a + b)[1..] == a[1..] + b;
      if RecordStep(s, a[0]).Ok? {
        RecordConcat(RecordStep(s, a[0]).value, a[1..], b);
      }
    }
  }

  /** The session is in the middle of `turn`. */
  predicate InTurn(s: SessionState, turn: TurnId) {
    WellFormed(s) && s.activeTurn == Some(turn)
  }

  lemma RecordStaysInTurn(s: SessionState, turn: TurnId, e: AppEvent)
    requires InTurn(s, turn) && RecordStep(s, e).Ok?
    ensures InTurn(RecordStep(s, e).value, turn)
  {
    Journals.RecordKeepsWellFormed(s, e);
  }

  /** Wherever an accepted stream stops, the turn can still be ended. */
  lemma {:induction false} TurnEndsAnywhere(s: SessionState, turn: TurnId, events: seq<AppEvent>, k: nat)
    requires InTurn(s, turn) && RecordAll(s, events).Ok? && k <= |events|
    ensures RecordAll(s, events[..k]).Ok?
    ensures InTurn(RecordAll(s, events[..k]).value, turn)
    ensures FinishActive(RecordAll(s, events[..k]).value, turn).Ok?
    decreases |events|
  {
    if k == 0 {
      assert events[..0] == [];
    } else {
      RecordStaysInTurn(s, turn, events[0]);
      TurnEndsAnywhere(RecordStep(s, events[0]).value, turn, events[1..], k - 1);
      assert events[..k][0] == events[0] && events[..k][1..] == events[1..][..k - 1];
    }
  }

  /** Events the kernel accepts in any state and that change nothing. */
  predicate IsUnchecked(e: AppEvent) {
    && !e.SteeringApplied? && !e.PermissionRequired? && !e.PermissionResolved?
    && !e.QuestionAsked? && !e.QuestionsAsked? && !e.QuestionAnswered?
    && !e.QuestionsAnswered? && !e.QuestionsFailed?
  }

  lemma {:induction false} UncheckedAreAccepted(s: SessionState, events: seq<AppEvent>)
    requires forall i | 0 <= i < |events| :: IsUnchecked(events[i])
    ensures RecordAll(s, events) == Ok(s)
    decreases |events|
  {
    if events != [] {
      UncheckedAreAccepted(s, events[1..]);
    }
  }

  // ---------- Authorization ----------

  datatype DecisionKind = Allow | Deny | Ask

  /** What becomes of one question to the user. */
  datatype Approval =
    | Abandoned
    | HandlerFailed(error: Error)
      // Without a handler the answer is a denial; `rejected` is the policy refusing an answer.
    | NoHandler(rejected: Option<Error>)
    | Response(allowed: bool, rejected: Option<Error>)

  datatype Decision = Decision(kind: DecisionKind, isToolUse: bool, requestId: string, approval: Approval)

  /** One authorization: an error before any decision, or the policy's decisions on the effects. */
  datatype Authorization = Authorization(
    refusal: Option<Error>,
    desktopMcp: bool,
    confirming: bool,
    decisions: seq<Decision>)

  /** In confirm mode one question about the tool covers its concrete effects. */
  predicate MustAsk(a: Authorization, d: Decision) {
    d.kind == Ask && (a.desktopMcp || !a.confirming || d.isToolUse)
  }

  function AskEvents(d: Decision): seq<AppEvent> {
    [PermissionRequired(d.requestId)]
    + if d.approval.Abandoned? then [] else [PermissionResolved(d.requestId, Consents(d.approval))]
  }

  predicate Consents(a: Approval) {
    a.Response? && a.allowed && a.rejected.None?
  }

  /** The error a question ends with when the user does not consent. */
  function Refusal(a: Approval): Error
    requires !Consents(a)
  {
    match a
    case Abandoned => Cancelled
    case HandlerFailed(error) => error
    case NoHandler(rejected) => if rejected.Some? then rejected.value else PermissionDenied
    case Response(_, rejected) => if rejected.Some? then rejected.value else ApprovalDeclined
  }

  function AskAll(a: Authorization, decisions: seq<Decision>): (seq<AppEvent>, Result<()>)
    decreases |decisions|
  {
    if decisions == [] then ([], Ok(()))
    else if !MustAsk(a, decisions[0]) then AskAll(a, decisions[1..])
    else if !Consents(decisions[0].approval) then (AskEvents(decisions[0]), Err(Refusal(decisions[0].approval)))
    else
      var (events, r) := AskAll(a, decisions[1..]);
      (AskEvents(decisions[0]) + events, r)
  }

  predicate IsDenied(decisions: seq<Decision>) {
    exists i | 0 <= i < |decisions| :: decisions[i].kind == Deny
  }

  function AuthorizeOf(a: Authorization): (seq<AppEvent>, Result<()>) {
    if a.refusal.Some? then ([], Err(a.refusal.value))
    else if IsDenied(a.decisions) then ([], Err(PermissionDenied))
    else AskAll(a, a.decisions)
  }

  lemma {:induction false} AskedExactly(a: Authorization, decisions: seq<Decision>)
    ensures AskAll(a, decisions).1.Ok?
            <==> forall i | 0 <= i < |decisions| && MustAsk(a, decisions[i]) :: Consents(decisions[i].approval)
    decreases |decisions|
  {
    if decisions != [] {
      var rest := decisions[1..];
      AskedExactly(a, rest);
      forall i | 0 < i < |decisions|
        ensures decisions[i] == rest[i - 1]
      {
      }
      if forall i | 0 <= i < |decisions| && MustAsk(a, decisions[i]) :: Consents(decisions[i].approval) {
        forall i | 0 <= i < |rest| && MustAsk(a, rest[i])
          ensures Consents(rest[i].approval)
        {
          assert rest[i] == decisions[i + 1];
        }
      }
    }
  }

  /** A tool is authorized exactly when nothing refuses or denies it and the user consents to
      every question; a denied one is never asked about. */
  lemma AuthorizedExactly(a: Authorization)
    ensures AuthorizeOf(a).1.Ok?
            <==> a.refusal.None? && !IsDenied(a.decisions)
                 && forall i | 0 <= i < |a.decisions| && MustAsk(a, a.decisions[i]) :: Consents(a.decisions[i].approval)
    ensures IsDenied(a.decisions) ==> AuthorizeOf(a).0 == []
  {
    AskedExactly(a, a.decisions);
  }

  // ---------- The dialogue with the user ----------

  /** The decisions that ask the user: every one that wants to, but in confirm mode, outside a
      desktop extension, only the one about using the tool at all. */
  function Questions(a: Authorization, decisions: seq<Decision>): seq<Decision> {
    if decisions == [] then []
    else
      var d := decisions[0];
      (if d.kind == Ask && !(a.confirming && !a.desktopMcp && !d.isToolUse) then [d] else [])
      + Questions(a, decisions[1..])
  }

  predicate Agreed(d: Decision) {
    d.approval == Response(true, None)
  }

  /** Each question is put, and resolved with what the user said, unless the wait was abandoned. */
  function Dialogue(asked: seq<Decision>): seq<AppEvent> {
    if asked == [] then []
    else
      var d := asked[0];
      [PermissionRequired(d.requestId)]
      + (if d.approval.Abandoned? then [] else [PermissionResolved(d.requestId, Agreed(d))])
      + Dialogue(asked[1..])
  }

  /** The user said no, or could not be asked. */
  predicate EndsIn(d: Decision, error: Error) {
    match d.approval
    case Abandoned => error == Cancelled
    case HandlerFailed(failure) => error == failure
    case NoHandler(Some(rejected)) => error == rejected
    case NoHandler(None) => error == PermissionDenied
    case Response(_, Some(rejected)) => error == rejected
    case Response(allowed, None) => !allowed && error == ApprovalDeclined
  }

  /** What `k` agreed questions and the next, if there is one, come to. */
  predicate AskedUpTo(asked: seq<Decision>, k: nat, events: seq<AppEvent>, r: Result<()>) {
    && k <= |asked| && (forall i | 0 <= i < k :: Agreed(asked[i]))
    && if k == |asked| then r == Ok(()) && events == Dialogue(asked)
       else !Agreed(asked[k]) && r.Err? && EndsIn(asked[k], r.error) && events == Dialogue(asked[..k + 1])
  }

  lemma OneMoreAgreed(d: Decision, asked: seq<Decision>, k: nat, events: seq<AppEvent>, r: Result<()>)
    requires Agreed(d) && AskedUpTo(asked, k, events, r)
    ensures AskedUpTo([d] + asked, k + 1,
                      [PermissionRequired(d.requestId), PermissionResolved(d.requestId, true)] + events, r)
  {
    var all := [d] + asked;
    assert all[1..] == asked;
    if k < |asked| {
      assert all[..k + 2][1..] == asked[..k + 1];
    }
  }

  lemma {:induction false} DialogueOf(a: Authorization, decisions: seq<Decision>) returns (k: nat)
    ensures AskedUpTo(Questions(a, decisions), k, AskAll(a, decisions).0, AskAll(a, decisions).1)
    decreases |decisions|
  {
    if decisions == [] {
      k := 0;
    } else {
      var d, rest := decisions[0], Questions(a, decisions[1..]);
      k := DialogueOf(a, decisions[1..]);
      if !MustAsk(a, d) {
        assert Questions(a, decisions) == [] + rest == rest;
      } else if Consents(d.approval) {
        OneMoreAgreed(d, rest, k, AskAll(a, decisions[1..]).0, AskAll(a, decisions[1..]).1);
        k := k + 1;
      } else {
        k := 0;
        assert ([d] + rest)[..1] == [d] && [d][1..] == [];
        assert Dialogue([d]) == AskEvents(d) + [] == AskEvents(d);
      }
    }
  }

  /**
   How a call is authorized: a refusal or a denial ends it without a question; otherwise the user
   is asked question by question, each is resolved with what the user said, and the first that is
   not agreed ends it: a no with ApprovalDeclined, an abandoned wait with Cancelled.
   */
  lemma AuthorizationAsks(a: Authorization) returns (k: nat)
    ensures var (events, r) := AuthorizeOf(a);
            if a.refusal.Some? then events == [] && r == Err(a.refusal.value)
            else if exists i :: 0 <= i < |a.decisions| && a.decisions[i].kind == Deny
            then events == [] && r == Err(PermissionDenied)
            else AskedUpTo(Questions(a, a.decisions), k, events, r)
  {
    k := DialogueOf(a, a.decisions);
  }

  predicate IsRunning(s: SessionState) {
    s.lifecycle == Running && s.pendingPermission == None && s.pendingQuestion == None
  }

  lemma AskIsAccepted(s: SessionState, d: Decision)
    requires IsRunning(s)
    ensures RecordAll(s, AskEvents(d))
            == Ok(if d.approval.Abandoned?
                  then s.(lifecycle := WaitingForApproval, pendingPermission := Some(d.requestId)) else s)
  {
    var asked := s.(lifecycle := WaitingForApproval, pendingPermission := Some(d.requestId));
    assert RecordAll(asked, []) == Ok(asked);
    assert AskEvents(d)[1..]
        == if d.approval.Abandoned? then [] else [PermissionResolved(d.requestId, Consents(d.approval))];
    if !d.approval.Abandoned? {
      assert asked.(lifecycle := Running, pendingPermission := None) == s;
      var last := [PermissionResolved(d.requestId, Consents(d.approval))];
      assert last[1..] == [] && RecordAll(s, []) == Ok(s);
      assert RecordAll(asked, last) == Ok(s);
    }
  }

  /** The kernel accepts what an authorization emits, and is Running again unless the wait for
      the user was cancelled. */
  lemma {:induction false} AsksAreAccepted(s: SessionState, a: Authorization, decisions: seq<Decision>)
    requires IsRunning(s)
    ensures RecordAll(s, AskAll(a, decisions).0).Ok?
    ensures AskAll(a, decisions).1 != Err(Cancelled) ==> RecordAll(s, AskAll(a, decisions).0) == Ok(s)
    decreases |decisions|
  {
    if decisions != [] {
      AsksAreAccepted(s, a, decisions[1..]);
      AskIsAccepted(s, decisions[0]);
      if MustAsk(a, decisions[0]) && Consents(decisions[0].approval) {
        RecordConcat(s, AskEvents(decisions[0]), AskAll(a, decisions[1..]).0);
      }
    }
  }

  lemma AuthorizationIsAccepted(s: SessionState, a: Authorization)
    requires IsRunning(s)
    ensures RecordAll(s, AuthorizeOf(a).0).Ok?
    ensures AuthorizeOf(a).1 != Err(Cancelled) ==> RecordAll(s, AuthorizeOf(a).0) == Ok(s)
  {
    if a.refusal.Some? || IsDenied(a.decisions) {
      assert AuthorizeOf(a).0 == [] && RecordAll(s, []) == Ok(s);
    } else {
      AsksAreAccepted(s, a, a.decisions);
    }
  }
}
