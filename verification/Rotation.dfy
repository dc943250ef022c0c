/**
 The rotating native session as an interleaved system. Tasks of several processes share one
 credential cell behind an audience file lock that stays taken while any handle on it is open;
 a store call that timed out keeps a cloned handle and finishes late. Every refresh consumes
 the stored token and the server answers with a token it never issued before.
 */
module Rotation {
  import opened Prelude
  import opened Credentials

  type ProcId = nat
  type TaskId = nat
  type ValidatorId = nat

  /** What a task wants the lock for. Logins and deletions read `expected` before they queue for it. */
  datatype Flow =
    | RefreshFlow(allow: bool)
    | LoginFlow(bundle: Bundle, expected: Option<Token>)
    | DeleteFlow(expected: Option<Token>)
    | StartLoginFlow

  /** Where the task itself is. */
  datatype Main =
    | Queued(flow: Flow)
    | Locked(flow: Flow)
    | Loaded(persisted: Option<Token>, flow: Flow)
    | ReadyToSend(token: Token, changed: bool, previous: Option<AccountId>)
    | Awaiting(token: Token, changed: bool, previous: Option<AccountId>)
    | Checking(bundle: Bundle, force: bool, expected: Option<Token>)
    | Comparing(bundle: Bundle, force: bool, expected: Option<Token>, previous: Option<AccountId>)
    | ReadyToSave(bundle: Bundle, force: bool, expected: Option<Token>, previous: Option<AccountId>)
    | Saving(bundle: Bundle, force: bool, expected: Option<Token>, previous: Option<AccountId>)
    | Writing(bundle: Bundle, force: bool, previous: Option<AccountId>)
    | Matching(expected: Option<Token>)
    | ReadyToDelete(token: Token, hold: nat)
    | AwaitingDelete
    | Clearing(failed: bool)
    | Releasing
    | Ended

  /** The store call the task has started and not collected, with the handle it keeps open. */
  datatype Call =
    | NoCall
    | SaveCall(value: Token, late: bool)
    | SaveDone
    | SaveFailed
    | CleanupCall(value: Token)
    | CleanupDelete(value: Token, hold: nat)
    | DeleteCall(compared: Token, hold: nat, late: bool)
    | DeleteDone(failed: bool)

  datatype Task = Task(proc: ProcId, main: Main, call: Call)

  /** `fault`: a store call returned an error, or a process died, while the cell held a token
      already sent. */
  datatype Shared = Shared(
    cell: Option<Token>,
    sent: seq<Token>,
    issued: set<Token>,
    holds: nat,
    fault: bool)

  /** One task, what it shares, and the state of its process. */
  datatype Local = Local(task: Task, shared: Shared, auth: AuthState)

  datatype Event =
    | Acquire | AcquireFail
    | Load | LoadFail
    | Decide
    | Send
    | Refuse | Rotate(bundle: Bundle)
    | Check
    | Compare | CompareFail
    | StartSave | FinishSave | FailSave | CollectSave | TimeOutSave
    | Cleanup | CleanupFail | FinishCleanup | FailCleanup
    | Write
    | Match | MatchFail
    | StartDelete | FinishDelete | FailDelete | CollectDelete | TimeOutDelete
    | Clear
    | Release

  predicate HoldsSent(s: Shared) {
    s.cell.Some? && s.cell.value in s.sent
  }

  function Faulted(s: Shared): Shared {
    s.(fault := s.fault || HoldsSent(s))
  }

  function To(l: Local, main: Main): Option<Local> {
    Some(l.(task := l.task.(main := main)))
  }

  /** A step of the task itself. */
  function MainStep(l: Local, e: Event): Option<Local> {
    var s, auth := l.shared, l.auth;
    match (l.task.main, e)
    case (Queued(flow), Acquire) => To(l.(shared := s.(holds := s.holds + 1)), Locked(flow))
    case (Queued(_), AcquireFail) =>
      To(l.(auth := ClearIn(auth, true)), Ended)
    case (Locked(LoginFlow(bundle, expected)), Load) => To(l, Checking(bundle, true, expected))
    case (Locked(DeleteFlow(expected)), Load) => To(l, Matching(expected))
    case (Locked(flow), Load) => To(l, Loaded(s.cell, flow))
    case (Locked(flow), LoadFail) =>
      if flow.RefreshFlow? || flow.StartLoginFlow? then To(l.(auth := ClearIn(auth, true)), Releasing) else None
    case (Loaded(persisted, RefreshFlow(allow)), Decide) =>
      var changed := persisted != auth.refresh;
      var adopts := changed && (auth.account.None? || persisted.None?);
      var next := if adopts then l.(auth := AdoptIn(auth, persisted)) else l;
      if persisted.None? || (adopts && !allow) then To(next, Releasing)
      else To(next, ReadyToSend(persisted.value, changed, auth.account))
    case (Loaded(persisted, _), Decide) =>
      To(if persisted != auth.refresh then l.(auth := AdoptIn(auth, persisted)) else l, Releasing)
    case (ReadyToSend(token, changed, previous), Send) =>
      To(l.(shared := s.(sent := s.sent + [token])), Awaiting(token, changed, previous))
    case (Awaiting(token, _, _), Refuse) => To(l, Matching(Some(token)))
    case (Awaiting(token, changed, previous), Rotate(bundle)) =>
      if bundle.refresh in s.issued then None
      else
        var switched := changed && previous.Some? && previous != Some(bundle.account);
        var next := if switched then l.(auth := AdoptIn(auth, Some(token))) else l;
        To(next.(shared := s.(issued := s.issued + {bundle.refresh})), Checking(bundle, false, Some(token)))
    case (Checking(bundle, force, expected), Check) =>
      if !bundle.valid || (!force && auth.account.Some? && auth.account != Some(bundle.account))
      then To(l, Matching(expected))
      else To(l, Comparing(bundle, force, expected, auth.account))
    case (Comparing(bundle, force, expected, previous), Compare) =>
      if s.cell != expected then To(l.(auth := AdoptIn(auth, s.cell)), Releasing)
      else To(l, ReadyToSave(bundle, force, expected, previous))
    case (Comparing(_, _, _, _), CompareFail) =>
      To(l.(auth := ClearIn(auth, true), shared := Faulted(s)), Releasing)
    case (Writing(bundle, force, previous), Write) =>
      To(l.(auth := CommitIn(auth, bundle, force, previous)), Releasing)
    case (Matching(expected), Match) =>
      To(l, if expected.Some? && s.cell == expected then ReadyToDelete(expected.value, s.holds) else Clearing(false))
    case (Matching(_), MatchFail) => To(l.(shared := Faulted(s)), Clearing(true))
    case (Clearing(failed), Clear) => To(l.(auth := ClearIn(auth, failed)), Releasing)
    case (Releasing, Release) => To(l, Ended)
    case _ => None
  }

  function Collect(l: Local, main: Main): Option<Local> {
    Some(l.(task := l.task.(main := main, call := NoCall)))
  }

  function CallTo(l: Local, call: Call): Option<Local> {
    Some(l.(task := l.task.(call := call)))
  }

  /** A step of a store call in flight, or of the task starting, collecting or giving up on one. */
  function CallStep(l: Local, e: Event): Option<Local> {
    var s, main, call := l.shared, l.task.main, l.task.call;
    match e
    case StartSave =>
      if !main.ReadyToSave? || !call.NoCall? then None
      else Some(l.(task := l.task.(main := Saving(main.bundle, main.force, main.expected, main.previous),
                                   call := SaveCall(main.bundle.refresh, false))))
    case FinishSave =>
      if !call.SaveCall? then None
      else CallTo(l.(shared := s.(cell := Some(call.value))), if call.late then CleanupCall(call.value) else SaveDone)
    case FailSave =>
      if !call.SaveCall? then None
      else if call.late then CallTo(l.(shared := Faulted(s)), NoCall) else CallTo(l, SaveFailed)
    case CollectSave =>
      if !main.Saving? then None
      else if call.SaveDone? then Collect(l, Writing(main.bundle, main.force, main.previous))
      else if call.SaveFailed? then Collect(l, Matching(main.expected)) else None
    case TimeOutSave =>
      if !main.Saving? || !call.SaveCall? || call.late then None
      else Some(l.(task := l.task.(main := Clearing(true), call := SaveCall(call.value, true))))
    case Cleanup =>
      if !call.CleanupCall? then None
      else CallTo(l, if s.cell == Some(call.value) then CleanupDelete(call.value, s.holds) else NoCall)
    case CleanupFail => if !call.CleanupCall? then None else CallTo(l, NoCall)
    case FinishCleanup => if !call.CleanupDelete? then None else CallTo(l.(shared := s.(cell := None)), NoCall)
    case FailCleanup => if !call.CleanupDelete? then None else CallTo(l, NoCall)
    case StartDelete =>
      if !main.ReadyToDelete? || !call.NoCall? then None
      else Some(l.(task := l.task.(main := AwaitingDelete, call := DeleteCall(main.token, main.hold, false))))
    case FinishDelete =>
      if !call.DeleteCall? then None
      else CallTo(l.(shared := s.(cell := None)), if call.late then NoCall else DeleteDone(false))
    case FailDelete =>
      if !call.DeleteCall? then None
      else CallTo(l.(shared := Faulted(s)), if call.late then NoCall else DeleteDone(true))
    case CollectDelete =>
      if !main.AwaitingDelete? || !call.DeleteDone? then None else Collect(l, Clearing(call.failed))
    case TimeOutDelete =>
      if !main.AwaitingDelete? || !call.DeleteCall? || call.late then None
      else Some(l.(task := l.task.(main := Clearing(true), call := DeleteCall(call.compared, call.hold, true))))
    case _ => None
  }

  function LocalStep(l: Local, e: Event): Option<Local> {
    if MainStep(l, e).Some? then MainStep(l, e) else CallStep(l, e)
  }

  // ---------- The whole system ----------

  /** A handle on the lock: the task's own, or the clone its store call keeps. */
  datatype Handle = Own(task: TaskId) | Clone(task: TaskId)

  /** `raced`: the processes in which an attempt to take the lock failed during a commit. */
  datatype World = World(
    shared: Shared,
    handles: set<Handle>,
    tasks: map<TaskId, Task>,
    procs: map<ProcId, AuthState>,
    captures: map<ValidatorId, (ProcId, nat)>,
    raced: set<ProcId>)

  const START := World(Shared(None, [], {}, 0, false), {}, map[], map[], map[], {})

  datatype Action =
    | NewProcess(p: ProcId)
    | NewTask(t: TaskId, p: ProcId, flow: Flow)
    | Do(t: TaskId, e: Event)
    | Kill(p: ProcId)
    | Capture(v: ValidatorId, p: ProcId)
    | FinishValidation(v: ValidatorId, account: AccountId)

  /** A commit that has read its account, will open no generation, and may still write. */
  predicate Commits(task: Task) {
    var m := task.main;
    && (m.Comparing? || m.ReadyToSave? || (m.Saving? && !task.call.SaveFailed?) || m.Writing?)
    && !m.force && m.previous.Some?
  }

  /** A task fails to take the lock, and forgets the authorization, while another task of its
      process commits. */
  predicate Races(w: World, t: TaskId, e: Event)
    requires t in w.tasks
  {
    e.AcquireFail? && exists u :: u in w.tasks && u != t && w.tasks[u].proc == w.tasks[t].proc && Commits(w.tasks[u])
  }

  predicate HasOwn(task: Task) {
    !task.main.Queued? && !task.main.Ended?
  }

  predicate HasClone(task: Task) {
    !task.call.NoCall?
  }

  function HandlesOf(t: TaskId, task: Task): set<Handle> {
    (if HasOwn(task) then {Own(t)} else {}) + (if HasClone(task) then {Clone(t)} else {})
  }

  /** The token a task has been issued and has not stored yet. */
  function Pending(task: Task): Option<Token> {
    if task.call.SaveCall? then Some(task.call.value)
    else match task.main
      case Queued(LoginFlow(b, _)) => Some(b.refresh)
      case Locked(LoginFlow(b, _)) => Some(b.refresh)
      case Checking(b, _, _) => Some(b.refresh)
      case Comparing(b, _, _, _) => Some(b.refresh)
      case ReadyToSave(b, _, _, _) => Some(b.refresh)
      case _ => None
  }

  /** What a flow checks before it asks for the lock. A refresh that may change account comes from a
      validation, which needs an available credential; a login is not started on a store known to be
      unavailable. */
  predicate MayAsk(flow: Flow, auth: AuthState) {
    match flow
    case RefreshFlow(allow) => allow ==> !auth.unavailable && auth.refresh.Some?
    case StartLoginFlow => !auth.unavailable
    case LoginFlow(_, expected) => expected == auth.refresh
    case DeleteFlow(expected) => expected == auth.refresh
  }

  function Step(w: World, a: Action): Option<World> {
    match a
    case NewProcess(p) =>
      if p in w.procs || w.handles != {} then None
      else Some(w.(procs := w.procs[p := AuthState(w.shared.cell, None, None, 0, 0, false, false)]))
    case NewTask(t, p, flow) =>
      if t in w.tasks || p !in w.procs then None
      else if !MayAsk(flow, w.procs[p]) then None
      else if flow.LoginFlow? && flow.bundle.refresh in w.shared.issued then None
      else
        var issued := if flow.LoginFlow? then w.shared.issued + {flow.bundle.refresh} else w.shared.issued;
        Some(w.(tasks := w.tasks[t := Task(p, Queued(flow), NoCall)], shared := w.shared.(issued := issued)))
    case Do(t, e) =>
      if t !in w.tasks || w.tasks[t].proc !in w.procs then None
      else if e.Acquire? && w.handles != {} then None
      else (match LocalStep(Local(w.tasks[t], w.shared, w.procs[w.tasks[t].proc]), e)
            case None => None
            case Some(l) =>
              Some(w.(tasks := w.tasks[t := l.task],
                   shared := l.shared,
                   procs := w.procs[l.task.proc := l.auth],
                   handles := w.handles - {Own(t), Clone(t)} + HandlesOf(t, l.task),
                   raced := if Races(w, t, e) then w.raced + {l.task.proc} else w.raced)))
    case Kill(p) =>
      var tasks := map t | t in w.tasks :: if w.tasks[t].proc == p then Task(p, Ended, NoCall) else w.tasks[t];
      var handles := set h | h in w.handles && !(h.task in w.tasks && w.tasks[h.task].proc == p);
      Some(w.(tasks := tasks, handles := handles,
           shared := if handles == w.handles then w.shared else Faulted(w.shared)))
    case Capture(v, p) =>
      if p !in w.procs then None else Some(w.(captures := w.captures[v := (p, w.procs[p].generation)]))
    case FinishValidation(v, account) =>
      if v !in w.captures || w.captures[v].0 !in w.procs then None
      else
        var (p, captured) := w.captures[v];
        (match ValidateIn(w.procs[p], captured, account)
         case Validated(auth) => Some(w.(procs := w.procs[p := auth]))
         case _ => Some(w))
  }

  function After(w: World, a: Action): World {
    if Step(w, a).Some? then Step(w, a).value else w
  }

  function RunFrom(w: World, run: seq<Action>): World {
    if run == [] then w else After(RunFrom(w, run[..|run| - 1]), run[|run| - 1])
  }

  // ---------- One task and the cell ----------

  predicate Clean(s: Shared) {
    s.fault || !HoldsSent(s)
  }

  ghost predicate SentAreIssued(s: Shared) {
    && (forall token | token in s.sent :: token in s.issued)
    && (s.cell.Some? ==> s.cell.value in s.issued)
  }

  ghost predicate SharedInv(s: Shared) {
    SentAreIssued(s) && (s.fault || NoneTwice(s.sent))
  }

  ghost predicate NoneTwice(sent: seq<Token>) {
    forall i, j | 0 <= i < j < |sent| :: sent[i] != sent[j]
  }

  predicate PendingInv(task: Task, s: Shared) {
    Pending(task).Some? ==>
      Pending(task).value in s.issued && Pending(task).value !in s.sent && s.cell != Pending(task)
  }

  /** What the cell holds while a task without a call in flight has the lock. */
  predicate MainInv(main: Main, s: Shared) {
    match main
    case Queued(_) => true
    case Locked(_) => Clean(s)
    case Loaded(persisted, _) => Clean(s) && s.cell == persisted
    case ReadyToSend(token, _, _) => Clean(s) && s.cell == Some(token)
    case Awaiting(token, _, _) => s.cell == Some(token)
    case Checking(_, force, expected) => if force then Clean(s) else s.cell == expected
    case Comparing(_, force, expected, _) => if force then Clean(s) else s.cell == expected
    case ReadyToSave(_, force, expected, _) => s.cell == expected
    case Saving(_, _, _, _) => false
    case Writing(_, _, _) => Clean(s)
    case Matching(expected) => s.cell == expected || Clean(s)
    case ReadyToDelete(v, hold) => s.cell == Some(v) && hold == s.holds
    case AwaitingDelete => false
    case Clearing(_) => Clean(s)
    case Releasing => Clean(s)
    case Ended => true
  }

  predicate LateMain(main: Main) {
    main.Clearing? || main.Releasing? || main.Ended?
  }

  /** Past every store call: nothing this task still does can empty the cell. */
  predicate PastCalls(task: Task) {
    || (LateMain(task.main) && task.call.NoCall?)
    || (task.main.AwaitingDelete? && task.call.DeleteDone?)
  }

  /** What the cell holds while a store call is in flight. */
  predicate CallInv(task: Task, s: Shared) {
    match task.call
    case NoCall => MainInv(task.main, s)
    case SaveCall(v, late) =>
      if late then LateMain(task.main)
      else task.main.Saving? && v == task.main.bundle.refresh && s.cell == task.main.expected
    case SaveDone => task.main.Saving? && Clean(s)
    case SaveFailed => task.main.Saving? && s.cell == task.main.expected
    case CleanupCall(v) => LateMain(task.main) && s.cell == Some(v) && v !in s.sent
    case CleanupDelete(v, hold) => LateMain(task.main) && s.cell == Some(v) && v !in s.sent && hold == s.holds
    case DeleteCall(v, hold, late) =>
      && s.cell == Some(v) && hold == s.holds
      && (if late then LateMain(task.main) else task.main.AwaitingDelete?)
    case DeleteDone(_) => task.main.AwaitingDelete? && Clean(s)
  }

  /** What a task that has the lock may do to the rest: it sends only the token in the cell,
      stores only the token it was issued, and leaves a clean cell when its last handle goes. */
  ghost predicate LocalEffect(l: Local, n: Local) {
    && n.task.proc == l.task.proc
    && (|| n.shared.sent == l.shared.sent
        || (l.shared.cell.Some? && n.shared.sent == l.shared.sent + [l.shared.cell.value]))
    && (n.shared.cell == l.shared.cell || n.shared.cell == None || n.shared.cell == Pending(l.task))
    && l.shared.issued <= n.shared.issued
    && (Pending(n.task) == Pending(l.task) || Pending(n.task) == None || Pending(n.task).value !in l.shared.issued)
    && (HoldsLock(l.task) && !HoldsLock(n.task) ==> Clean(n.shared))
    && (!HoldsLock(l.task) && !HoldsLock(n.task) ==> n.shared == l.shared)
  }

  predicate HoldsLock(task: Task) {
    HasOwn(task) || HasClone(task)
  }

  predicate BeforeCommit(main: Main) {
    main.Queued? || main.Locked? || main.Loaded? || main.ReadyToSend? || main.Awaiting?
  }

  lemma EarlyStepKeepsCall(l: Local, e: Event)
    requires CallInv(l.task, l.shared) && PendingInv(l.task, l.shared) && SentAreIssued(l.shared)
    requires MainStep(l, e).Some? && (e.Acquire? ==> Clean(l.shared)) && BeforeCommit(l.task.main)
    ensures CallInv(MainStep(l, e).value.task, MainStep(l, e).value.shared)
  {
  }

  lemma LaterStepKeepsCall(l: Local, e: Event)
    requires CallInv(l.task, l.shared) && PendingInv(l.task, l.shared)
    requires MainStep(l, e).Some? && !BeforeCommit(l.task.main)
    ensures CallInv(MainStep(l, e).value.task, MainStep(l, e).value.shared)
  {
  }

  lemma MainStepKeepsPending(l: Local, e: Event)
    requires CallInv(l.task, l.shared) && PendingInv(l.task, l.shared) && SentAreIssued(l.shared)
    requires MainStep(l, e).Some?
    ensures PendingInv(MainStep(l, e).value.task, MainStep(l, e).value.shared)
  {
  }

  lemma MainStepEffect(l: Local, e: Event)
    requires CallInv(l.task, l.shared) && PendingInv(l.task, l.shared)
    requires MainStep(l, e).Some?
    ensures LocalEffect(l, MainStep(l, e).value)
  {
  }

  lemma CallStepKeepsCall(l: Local, e: Event)
    requires CallInv(l.task, l.shared) && PendingInv(l.task, l.shared) && SentAreIssued(l.shared)
    requires CallStep(l, e).Some?
    ensures CallInv(CallStep(l, e).value.task, CallStep(l, e).value.shared)
  {
  }

  lemma CallStepKeepsPending(l: Local, e: Event)
    requires CallInv(l.task, l.shared) && PendingInv(l.task, l.shared) && SentAreIssued(l.shared)
    requires CallStep(l, e).Some?
    ensures PendingInv(CallStep(l, e).value.task, CallStep(l, e).value.shared)
  {
  }

  lemma CallStepEffect(l: Local, e: Event)
    requires CallInv(l.task, l.shared) && PendingInv(l.task, l.shared)
    requires CallStep(l, e).Some?
    ensures LocalEffect(l, CallStep(l, e).value)
  {
  }

  /** Whatever a task does, the cell and the log stay among the issued tokens, and no token that
      is in the cell at a clean moment has been sent. */
  lemma StepKeepsShared(l: Local, e: Event)
    requires CallInv(l.task, l.shared) && PendingInv(l.task, l.shared) && SharedInv(l.shared)
    requires LocalStep(l, e).Some? && LocalEffect(l, LocalStep(l, e).value)
    ensures SharedInv(LocalStep(l, e).value.shared)
  {
    var n := LocalStep(l, e).value;
    FaultOrSame(l, e);
    if n.shared.sent != l.shared.sent {
      var token := l.shared.cell.value;
      assert n.shared.sent == l.shared.sent + [token];
      assert l.shared.fault || token !in l.shared.sent;
    }
  }

  lemma FaultOrSame(l: Local, e: Event)
    requires CallInv(l.task, l.shared) && LocalStep(l, e).Some?
    ensures var n := LocalStep(l, e).value;
            && (l.shared.fault ==> n.shared.fault)
            && (n.shared.sent != l.shared.sent ==> e.Send? && n.shared.fault == l.shared.fault && HoldsLock(l.task)
                                                   && !PastCalls(l.task) && Clean(l.shared) && l.shared.cell.Some?
                                                   && n.shared.sent == l.shared.sent + [l.shared.cell.value])
  {
  }

  lemma LocalStepSafe(l: Local, e: Event)
    requires SharedInv(l.shared) && CallInv(l.task, l.shared) && PendingInv(l.task, l.shared)
    requires LocalStep(l, e).Some? && (e.Acquire? ==> Clean(l.shared))
    ensures var n := LocalStep(l, e).value;
            SharedInv(n.shared) && CallInv(n.task, n.shared) && PendingInv(n.task, n.shared) && LocalEffect(l, n)
  {
    if MainStep(l, e).Some? {
      if BeforeCommit(l.task.main) {
        EarlyStepKeepsCall(l, e);
      } else {
        LaterStepKeepsCall(l, e);
      }
      MainStepKeepsPending(l, e);
      MainStepEffect(l, e);
    } else {
      CallStepKeepsCall(l, e);
      CallStepKeepsPending(l, e);
      CallStepEffect(l, e);
    }
    StepKeepsShared(l, e);
  }

  // ---------- The system invariant ----------

  ghost predicate HandlesOpen(handles: set<Handle>, tasks: map<TaskId, Task>) {
    && (forall t :: Own(t) in handles <==> t in tasks && HasOwn(tasks[t]))
    && (forall t :: Clone(t) in handles <==> t in tasks && HasClone(tasks[t]))
  }

  /** All open handles belong to one task: a cloned handle keeps everyone else out. */
  ghost predicate OneHolder(handles: set<Handle>) {
    forall h, k | h in handles && k in handles :: h.task == k.task
  }

  ghost predicate TasksSafe(s: Shared, tasks: map<TaskId, Task>) {
    && SharedInv(s)
    && (forall t | t in tasks :: CallInv(tasks[t], s) && PendingInv(tasks[t], s))
    && (forall t, u | t in tasks && u in tasks && t != u && Pending(tasks[t]).Some? ::
          Pending(tasks[t]) != Pending(tasks[u]))
  }

  ghost predicate Inv(w: World) {
    && HandlesOpen(w.handles, w.tasks)
    && OneHolder(w.handles)
    && TasksSafe(w.shared, w.tasks)
    && (w.handles == {} ==> Clean(w.shared))
  }

  lemma HoldersCoincide(w: World, t: TaskId, u: TaskId)
    requires Inv(w) && t in w.tasks && u in w.tasks && HoldsLock(w.tasks[t]) && HoldsLock(w.tasks[u])
    ensures t == u
  {
    assert Own(t) in w.handles || Clone(t) in w.handles;
    assert Own(u) in w.handles || Clone(u) in w.handles;
  }

  /** A task without the lock does not care what the cell holds, beyond its own pending token. */
  lemma IdleTaskSafe(task: Task, s: Shared, s': Shared, other: Task, l: Local, n: Local)
    requires CallInv(task, s) && PendingInv(task, s)
    requires !HoldsLock(task) || s' == s
    requires l.task == other && l.shared == s && n.shared == s' && LocalEffect(l, n) && SharedInv(s)
    requires Pending(task).Some? ==> Pending(task) != Pending(other)
    ensures CallInv(task, s') && PendingInv(task, s')
    ensures Pending(task).Some? ==> Pending(task) != Pending(n.task)
  {
  }

  lemma DoKeepsTasks(w: World, t: TaskId, e: Event)
    requires Inv(w) && Step(w, Do(t, e)).Some?
    ensures TasksSafe(Step(w, Do(t, e)).value.shared, Step(w, Do(t, e)).value.tasks)
  {
    var l := Local(w.tasks[t], w.shared, w.procs[w.tasks[t].proc]);
    var n := LocalStep(l, e).value;
    LocalStepSafe(l, e);
    var tasks := w.tasks[t := n.task];
    forall u | u in tasks && u != t
      ensures CallInv(tasks[u], n.shared) && PendingInv(tasks[u], n.shared)
      ensures Pending(tasks[u]).Some? ==> Pending(tasks[u]) != Pending(n.task)
    {
      if HoldsLock(w.tasks[u]) {
        if HoldsLock(l.task) {
          HoldersCoincide(w, t, u);
        }
        AcquiresWhenHolding(l, e);
        assert Own(u) in w.handles || Clone(u) in w.handles;
      }
      IdleTaskSafe(tasks[u], w.shared, n.shared, l.task, l, n);
    }
  }

  /** A task comes to hold the lock only by acquiring it. */
  lemma AcquiresWhenHolding(l: Local, e: Event)
    requires LocalStep(l, e).Some? && CallInv(l.task, l.shared)
    ensures !HoldsLock(l.task) && HoldsLock(LocalStep(l, e).value.task) ==> e.Acquire?
    ensures !HoldsLock(l.task) && !HoldsLock(LocalStep(l, e).value.task) ==> e.AcquireFail?
  {
  }

  lemma DoKeepsInv(w: World, t: TaskId, e: Event)
    requires Inv(w) && Step(w, Do(t, e)).Some?
    ensures Inv(Step(w, Do(t, e)).value)
  {
    DoKeepsTasks(w, t, e);
    var v := Step(w, Do(t, e)).value;
    var l := Local(w.tasks[t], w.shared, w.procs[w.tasks[t].proc]);
    LocalStepSafe(l, e);
    AcquiresWhenHolding(l, e);
    HandlesFollow(w, v, t);
    if v.handles == {} {
      assert Own(t) !in v.handles && Clone(t) !in v.handles;
    }
  }

  /** The open handles follow the one task that moved. */
  lemma HandlesFollow(w: World, v: World, t: TaskId)
    requires Inv(w) && t in w.tasks && t in v.tasks && v.tasks == w.tasks[t := v.tasks[t]]
    requires v.handles == w.handles - {Own(t), Clone(t)} + HandlesOf(t, v.tasks[t])
    requires HoldsLock(v.tasks[t]) ==> HoldsLock(w.tasks[t]) || w.handles == {}
    ensures HandlesOpen(v.handles, v.tasks) && OneHolder(v.handles)
    ensures !HoldsLock(w.tasks[t]) && !HoldsLock(v.tasks[t]) ==> v.handles == w.handles
  {
    HandlesStayOpen(w, v, t);
    if HoldsLock(w.tasks[t]) {
      assert Own(t) in w.handles || Clone(t) in w.handles;
      assert forall h | h in w.handles :: h.task == t;
      assert forall h | h in v.handles :: h.task == t;
    } else {
      assert w.handles - {Own(t), Clone(t)} == w.handles;
    }
  }

  lemma HandlesStayOpen(w: World, v: World, t: TaskId)
    requires HandlesOpen(w.handles, w.tasks) && t in v.tasks && v.tasks == w.tasks[t := v.tasks[t]]
    requires v.handles == w.handles - {Own(t), Clone(t)} + HandlesOf(t, v.tasks[t])
    ensures HandlesOpen(v.handles, v.tasks)
  {
  }

  lemma IdleTaskFaulted(task: Task, s: Shared)
    requires CallInv(task, s) && PendingInv(task, s)
    ensures !HoldsLock(task) ==> CallInv(task, Faulted(s))
    ensures PendingInv(task, Faulted(s))
  {
  }

  lemma KillKeepsTask(w: World, p: ProcId, t: TaskId)
    requires Inv(w) && t in w.tasks
    ensures var v := Step(w, Kill(p)).value;
            && t in v.tasks && (v.tasks[t] == w.tasks[t] || v.tasks[t] == Task(p, Ended, NoCall))
            && CallInv(v.tasks[t], v.shared) && PendingInv(v.tasks[t], v.shared)
  {
    IdleTaskFaulted(w.tasks[t], w.shared);
    if w.tasks[t].proc != p && HoldsLock(w.tasks[t]) {
      KilledElsewhere(w, p, t);
    }
  }

  lemma KillKeepsTasks(w: World, p: ProcId)
    requires Inv(w)
    ensures TasksSafe(Step(w, Kill(p)).value.shared, Step(w, Kill(p)).value.tasks)
  {
    var v := Step(w, Kill(p)).value;
    forall t | t in w.tasks
      ensures v.tasks[t] == w.tasks[t] || v.tasks[t] == Task(p, Ended, NoCall)
      ensures CallInv(v.tasks[t], v.shared) && PendingInv(v.tasks[t], v.shared)
    {
      KillKeepsTask(w, p, t);
    }
    assert Pending(Task(p, Ended, NoCall)) == None;
  }

  lemma KillKeepsInv(w: World, p: ProcId)
    requires Inv(w)
    ensures Inv(Step(w, Kill(p)).value)
  {
    KillKeepsTasks(w, p);
  }

  /** A killed process that had the lock had all of it. */
  lemma KilledElsewhere(w: World, p: ProcId, t: TaskId)
    requires Inv(w) && t in w.tasks && w.tasks[t].proc != p && HoldsLock(w.tasks[t])
    ensures Step(w, Kill(p)).value.handles == w.handles
  {
    assert Own(t) in w.handles || Clone(t) in w.handles;
    assert forall h | h in w.handles :: h.task == t;
  }

  lemma NewTaskKeepsInv(w: World, t: TaskId, p: ProcId, flow: Flow)
    requires Inv(w) && Step(w, NewTask(t, p, flow)).Some?
    ensures Inv(Step(w, NewTask(t, p, flow)).value)
  {
    var v := Step(w, NewTask(t, p, flow)).value;
    forall u | u in v.tasks
      ensures CallInv(v.tasks[u], v.shared) && PendingInv(v.tasks[u], v.shared)
    {
      if u != t {
        assert CallInv(w.tasks[u], w.shared);
      }
    }
  }

  lemma StepKeepsInv(w: World, a: Action)
    requires Inv(w)
    ensures Inv(After(w, a))
  {
    if Step(w, a).Some? {
      match a
      case Do(t, e) => DoKeepsInv(w, t, e);
      case Kill(p) => KillKeepsInv(w, p);
      case NewTask(t, p, flow) => NewTaskKeepsInv(w, t, p, flow);
      case _ =>
    }
  }

  lemma {:induction false} InvHolds(run: seq<Action>)
    ensures Inv(RunFrom(START, run))
  {
    if run != [] {
      InvHolds(run[..|run| - 1]);
      StepKeepsInv(RunFrom(START, run[..|run| - 1]), run[|run| - 1]);
    }
  }

  // ---------- Main results: the cell ----------

  /**
   Over all processes and interleavings, timeouts and late completions included: unless a store
   call failed or a process died while the cell held a token already sent, every refresh token
   is sent at most once and a free lock finds no sent token in the cell.
   */
  lemma TokensAreSentOnce(run: seq<Action>)
    requires !RunFrom(START, run).shared.fault
    ensures var w := RunFrom(START, run);
            && NoneTwice(w.shared.sent)
            && (w.handles == {} ==> !HoldsSent(w.shared))
  {
    InvHolds(run);
  }

  /** At most one task has the lock, however many handles it has cloned. */
  lemma LockExcludes(run: seq<Action>, t: TaskId, u: TaskId)
    requires var w := RunFrom(START, run);
             t in w.tasks && u in w.tasks && HoldsLock(w.tasks[t]) && HoldsLock(w.tasks[u])
    ensures t == u
  {
    InvHolds(run);
    HoldersCoincide(RunFrom(START, run), t, u);
  }

  /** The value a store call about to delete has compared, and the hold under which it did. */
  function Compared(call: Call): Option<(Token, nat)> {
    match call
    case DeleteCall(v, hold, _) => Some((v, hold))
    case CleanupDelete(v, hold) => Some((v, hold))
    case _ => None
  }

  /** Every deletion, late ones and cleanups included, removes exactly the value it compared,
      under the very hold of the lock under which it compared it. */
  lemma DeletesWhatWasCompared(run: seq<Action>, t: TaskId, e: Event)
    requires e.FinishDelete? || e.FinishCleanup?
    requires Step(RunFrom(START, run), Do(t, e)).Some?
    ensures var w, v := RunFrom(START, run), After(RunFrom(START, run), Do(t, e));
            && w.shared.cell.Some? && v.shared.cell == None
            && Compared(w.tasks[t].call) == Some((w.shared.cell.value, w.shared.holds))
  {
    InvHolds(run);
    var w := RunFrom(START, run);
    DeletionFinds(w.tasks[t], w.shared, e, w.procs[w.tasks[t].proc]);
  }

  lemma DeletionFinds(task: Task, s: Shared, e: Event, auth: AuthState)
    requires CallInv(task, s) && LocalStep(Local(task, s, auth), e).Some?
    requires e.FinishDelete? || e.FinishCleanup?
    ensures s.cell.Some? && Compared(task.call) == Some((s.cell.value, s.holds))
    ensures LocalStep(Local(task, s, auth), e).value.shared.cell == None
  {
  }

  lemma EmptiesOnlyByDeletion(l: Local, e: Event)
    requires LocalStep(l, e).Some? && l.shared.cell.Some? && LocalStep(l, e).value.shared.cell == None
    ensures e.FinishDelete? || e.FinishCleanup?
  {
  }

  /** Nothing but such a deletion empties the cell. */
  lemma OnlyDeletionsEmptyTheCell(run: seq<Action>, a: Action)
    requires var w, v := RunFrom(START, run), After(RunFrom(START, run), a);
             w.shared.cell.Some? && v.shared.cell == None
    ensures a.Do? && (a.e.FinishDelete? || a.e.FinishCleanup?)
  {
    var w := RunFrom(START, run);
    if a.Do? {
      EmptiesOnlyByDeletion(Local(w.tasks[a.t], w.shared, w.procs[w.tasks[a.t].proc]), a.e);
    }
  }

  // ---------- Where the condition is needed ----------

  predicate NoAcquire(run: seq<Action>) {
    forall i | 0 <= i < |run| && run[i].Do? :: !run[i].e.Acquire?
  }

  /** Since a fault the cell holds a token already sent, and no holder of the lock will empty it. */
  ghost predicate Leaking(w: World) {
    w.shared.fault ==>
      HoldsSent(w.shared) && forall t | t in w.tasks && HoldsLock(w.tasks[t]) :: PastCalls(w.tasks[t])
  }

  lemma MainStepLeaks(l: Local, e: Event)
    requires MainStep(l, e).Some? && CallInv(l.task, l.shared) && !e.Acquire?
    requires l.shared.fault ==> HoldsSent(l.shared) && (HoldsLock(l.task) ==> PastCalls(l.task))
    ensures var n := MainStep(l, e).value;
            n.shared.fault ==> HoldsSent(n.shared) && (HoldsLock(n.task) ==> PastCalls(n.task))
  {
  }

  lemma CallStepLeaks(l: Local, e: Event)
    requires CallStep(l, e).Some? && CallInv(l.task, l.shared)
    requires l.shared.fault ==> HoldsSent(l.shared) && (HoldsLock(l.task) ==> PastCalls(l.task))
    ensures var n := CallStep(l, e).value;
            n.shared.fault ==> HoldsSent(n.shared) && (HoldsLock(n.task) ==> PastCalls(n.task))
  {
  }

  lemma OnlyHoldersFault(l: Local, e: Event)
    requires LocalStep(l, e).Some? && CallInv(l.task, l.shared)
    ensures LocalStep(l, e).value.shared.fault && !l.shared.fault ==> HoldsLock(l.task)
  {
  }

  /** What a step of a task makes of the system. */
  lemma DoSteps(w: World, t: TaskId, e: Event) returns (n: Local)
    requires Step(w, Do(t, e)).Some?
    ensures t in w.tasks && w.tasks[t].proc in w.procs
    ensures LocalStep(Local(w.tasks[t], w.shared, w.procs[w.tasks[t].proc]), e) == Some(n)
    ensures After(w, Do(t, e)).tasks == w.tasks[t := n.task] && After(w, Do(t, e)).shared == n.shared
    ensures After(w, Do(t, e)).procs == w.procs[n.task.proc := n.auth]
    ensures After(w, Do(t, e)).raced == if Races(w, t, e) then w.raced + {n.task.proc} else w.raced
  {
    n := LocalStep(Local(w.tasks[t], w.shared, w.procs[w.tasks[t].proc]), e).value;
  }

  lemma DoKeepsLeaking(w: World, t: TaskId, e: Event)
    requires Inv(w) && Leaking(w) && Step(w, Do(t, e)).Some? && !e.Acquire?
    ensures Leaking(After(w, Do(t, e)))
  {
    var n := DoSteps(w, t, e);
    var l := Local(w.tasks[t], w.shared, w.procs[w.tasks[t].proc]);
    if MainStep(l, e).Some? {
      MainStepLeaks(l, e);
    } else {
      CallStepLeaks(l, e);
    }
    OnlyHoldersFault(l, e);
    forall u | u in w.tasks && u != t && HoldsLock(w.tasks[u]) && n.shared.fault
      ensures PastCalls(w.tasks[u])
    {
      if HoldsLock(w.tasks[t]) {
        HoldersCoincide(w, t, u);
      }
    }
  }

  lemma KillKeepsLeaking(w: World, p: ProcId)
    requires Inv(w) && Leaking(w)
    ensures Leaking(After(w, Kill(p)))
  {
    var v := After(w, Kill(p));
    forall t | t in v.tasks && HoldsLock(v.tasks[t]) && v.shared.fault
      ensures PastCalls(v.tasks[t])
    {
      KilledElsewhere(w, p, t);
    }
  }

  lemma StepKeepsLeaking(w: World, a: Action)
    requires Inv(w) && Leaking(w) && (a.Do? ==> !a.e.Acquire?)
    ensures Leaking(After(w, a))
  {
    if Step(w, a).Some? {
      match a
      case Do(t, e) => DoKeepsLeaking(w, t, e);
      case Kill(p) => KillKeepsLeaking(w, p);
      case _ =>
    }
  }

  lemma {:induction false} LeakingHolds(w: World, later: seq<Action>)
    requires Inv(w) && Leaking(w) && NoAcquire(later)
    ensures Inv(RunFrom(w, later)) && Leaking(RunFrom(w, later))
  {
    if later != [] {
      var n := |later| - 1;
      LeakingHolds(w, later[..n]);
      StepKeepsInv(RunFrom(w, later[..n]), later[n]);
      StepKeepsLeaking(RunFrom(w, later[..n]), later[n]);
    }
  }

  /** A fresh refresh of process `p`, up to its request. */
  function RefreshUpToSend(w: World, t: TaskId, p: ProcId): World {
    After(After(After(After(After(w, NewTask(t, p, RefreshFlow(true))),
                            Do(t, Acquire)), Do(t, Load)), Do(t, Decide)), Do(t, Send))
  }

  /** A process that may validate: nothing has told it that the store is unavailable. */
  predicate MayRefresh(w: World, p: ProcId) {
    p in w.procs && MayAsk(RefreshFlow(true), w.procs[p])
  }

  lemma NextRefreshSends(w: World, t: TaskId, p: ProcId)
    requires w.handles == {} && t !in w.tasks && MayRefresh(w, p)
    ensures RefreshUpToSend(w, t, p).shared.sent
            == w.shared.sent + (if w.shared.cell.Some? then [w.shared.cell.value] else [])
  {
    var w1 := After(w, NewTask(t, p, RefreshFlow(true)));
    assert w1.tasks[t] == Task(p, Queued(RefreshFlow(true)), NoCall) && w1.handles == {};
    var w2 := After(w1, Do(t, Acquire));
    assert w2.tasks[t] == Task(p, Locked(RefreshFlow(true)), NoCall);
    var w3 := After(w2, Do(t, Load));
    assert w3.tasks[t] == Task(p, Loaded(w.shared.cell, RefreshFlow(true)), NoCall) && w3.shared.sent == w.shared.sent;
    DecidesToSend(w3, t);
  }

  lemma DecidesToSend(w: World, t: TaskId)
    requires t in w.tasks && w.tasks[t].proc in w.procs
    requires w.tasks[t].main == Loaded(w.shared.cell, RefreshFlow(true))
    requires w.tasks[t].call.NoCall?
    ensures After(After(w, Do(t, Decide)), Do(t, Send)).shared.sent
            == w.shared.sent + (if w.shared.cell.Some? then [w.shared.cell.value] else [])
  {
    var v := After(w, Do(t, Decide));
    assert v.shared == w.shared;
    if w.shared.cell.Some? {
      assert v.tasks[t].main.ReadyToSend? && v.tasks[t].main.token == w.shared.cell.value;
    } else {
      assert v.tasks[t].main.Releasing?;
      assert w.shared.sent + [] == w.shared.sent;
    }
  }

  lemma AppendOnce(sent: seq<Token>, token: Token)
    requires NoneTwice(sent)
    ensures NoneTwice(sent + [token]) <==> token !in sent
  {
    if token in sent {
      var i :| 0 <= i < |sent| && sent[i] == token;
      assert (sent + [token])[i] == (sent + [token])[|sent|];
    }
  }

  lemma NextRefreshRepeats(w: World, t: TaskId, p: ProcId)
    requires w.handles == {} && t !in w.tasks && MayRefresh(w, p) && NoneTwice(w.shared.sent)
    ensures NoneTwice(RefreshUpToSend(w, t, p).shared.sent) <==> !HoldsSent(w.shared)
  {
    NextRefreshSends(w, t, p);
    if w.shared.cell.Some? {
      AppendOnce(w.shared.sent, w.shared.cell.value);
    } else {
      assert w.shared.sent + [] == w.shared.sent;
    }
  }

  /** A process that starts loads the cell; it has nothing to refresh when the cell is empty. */
  lemma RestartRepeats(w: World, t: TaskId, q: ProcId)
    requires w.handles == {} && t !in w.tasks && q !in w.procs && NoneTwice(w.shared.sent)
    ensures NoneTwice(RefreshUpToSend(After(w, NewProcess(q)), t, q).shared.sent) <==> !HoldsSent(w.shared)
  {
    var v := After(w, NewProcess(q));
    assert v.procs[q] == AuthState(w.shared.cell, None, None, 0, 0, false, false);
    if w.shared.cell.Some? {
      NextRefreshRepeats(v, t, q);
    }
  }

  /**
   When sending once fails, exactly: take any run in which no store call has failed and no
   process has died while the cell held a sent token, and continue it without another taking of
   the lock until the lock is free. The cell then holds a sent token, and the next refresh of any
   process that may start one, and of any process that starts now, sends a token again, if and
   only if such a failure happened on the way: a failing load, save, delete or death, on time or
   late.
   */
  lemma TokensAreResentExactly(run: seq<Action>, later: seq<Action>, t: TaskId)
    requires !RunFrom(START, run).shared.fault && NoAcquire(later)
    requires RunFrom(RunFrom(START, run), later).handles == {} && t !in RunFrom(RunFrom(START, run), later).tasks
    ensures var v := RunFrom(RunFrom(START, run), later);
            && (HoldsSent(v.shared) <==> v.shared.fault)
            && (forall p | MayRefresh(v, p) ::
                  NoneTwice(RefreshUpToSend(v, t, p).shared.sent) <==> !v.shared.fault)
            && (forall q | q !in v.procs ::
                  NoneTwice(RefreshUpToSend(After(v, NewProcess(q)), t, q).shared.sent) <==> !v.shared.fault)
  {
    var w := RunFrom(START, run);
    var v := RunFrom(w, later);
    InvHolds(run);
    LeakingHolds(w, later);
    SentStaysOnce(w, later);
    forall p | MayRefresh(v, p)
      ensures NoneTwice(RefreshUpToSend(v, t, p).shared.sent) <==> !HoldsSent(v.shared)
    {
      NextRefreshRepeats(v, t, p);
    }
    forall q | q !in v.procs
      ensures NoneTwice(RefreshUpToSend(After(v, NewProcess(q)), t, q).shared.sent) <==> !HoldsSent(v.shared)
    {
      RestartRepeats(v, t, q);
    }
  }

  lemma {:induction false} SentStaysOnce(w: World, later: seq<Action>)
    requires Inv(w) && !w.shared.fault && Leaking(w) && NoAcquire(later)
    ensures NoneTwice(RunFrom(w, later).shared.sent)
  {
    if later != [] {
      var n := |later| - 1;
      var u := RunFrom(w, later[..n]);
      SentStaysOnce(w, later[..n]);
      LeakingHolds(w, later[..n]);
      StepKeepsInv(u, later[n]);
      if After(u, later[n]).shared.fault {
        FaultsSendNothing(u, later[n]);
      }
    }
  }

  /** A step that fails sends nothing, and after a fault nothing is sent until the lock is taken
      again. */
  lemma FaultsSendNothing(w: World, a: Action)
    requires Inv(w) && Leaking(w) && (a.Do? ==> !a.e.Acquire?) && After(w, a).shared.fault
    ensures After(w, a).shared.sent == w.shared.sent
  {
    if Step(w, a).Some? && a.Do? {
      var n := DoSteps(w, a.t, a.e);
      FaultOrSame(Local(w.tasks[a.t], w.shared, w.procs[w.tasks[a.t].proc]), a.e);
    }
  }
}
