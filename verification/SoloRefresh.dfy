/**
 The two models of a refresh agree: a refresh that is alone in the interleaved system ends as the
 manager's own refresh does, with the same state, the same cell and the same token sent.
 */
module SoloRefresh {
  import opened Prelude
  import opened Credentials
  import opened Rotation

  /** The next event of a task that is alone, when the environment does what `io` says. */
  function Next(l: Local, io: Io): Event {
    match l.task.main
    case Queued(_) => Acquire
    case Locked(flow) => if io.loads || flow.LoginFlow? || flow.DeleteFlow? then Load else LoadFail
    case Loaded(_, _) => Decide
    case ReadyToSend(_, _, _) => Send
    case Awaiting(_, _, _) => if io.response.Rotated? then Rotate(io.response.bundle) else Refuse
    case Checking(_, _, _) => Check
    case Comparing(_, _, _, _) => if io.reloads then Compare else CompareFail
    case ReadyToSave(_, _, _, _) => StartSave
    case Saving(_, _, _, _) =>
      if !l.task.call.SaveCall? then CollectSave
      else (match io.save case Done => FinishSave case Errored => FailSave case TimedOut => TimeOutSave)
    case Writing(_, _, _) => Write
    case Matching(_) => if io.reloads then Match else MatchFail
    case ReadyToDelete(_, _) => StartDelete
    case AwaitingDelete =>
      if !l.task.call.DeleteCall? then CollectDelete
      else (match io.delete case Done => FinishDelete case Errored => FailDelete case TimedOut => TimeOutDelete)
    case Clearing(_) => Clear
    case Releasing => Release
    case Ended => Release
  }

  /** How many steps are left at most. */
  function Left(task: Task): nat {
    match task.main
    case Queued(_) => 17
    case Locked(_) => 16
    case Loaded(_, _) => 15
    case ReadyToSend(_, _, _) => 14
    case Awaiting(_, _, _) => 13
    case Checking(_, _, _) => 12
    case Comparing(_, _, _, _) => 11
    case ReadyToSave(_, _, _, _) => 10
    case Saving(_, _, _, _) => if task.call.SaveCall? then 9 else 8
    case Writing(_, _, _) => 7
    case Matching(_) => 6
    case ReadyToDelete(_, _) => 5
    case AwaitingDelete => if task.call.DeleteCall? then 4 else 3
    case Clearing(_) => 2
    case Releasing => 1
    case Ended => 0
  }

  /** Run the task to its end, nobody else doing anything. */
  function Alone(l: Local, io: Io): Local
    decreases Left(l.task)
  {
    var n := LocalStep(l, Next(l, io));
    if l.task.main.Ended? || n.None? || Left(n.value.task) >= Left(l.task) then l else Alone(n.value, io)
  }

  /** One step further. */
  lemma Goes(l: Local, io: Io, n: Local)
    requires !l.task.main.Ended? && LocalStep(l, Next(l, io)) == Some(n) && Left(n.task) < Left(l.task)
    ensures Alone(l, io) == Alone(n, io)
  {
  }

  /** The task ended with this state and this cell, having sent this. */
  predicate EndsWith(l: Local, auth: AuthState, cell: Option<Token>, sent: seq<Token>) {
    l.task.main.Ended? && l.auth == auth && l.shared.cell == cell && l.shared.sent == sent
  }

  lemma Releases(l: Local, io: Io)
    requires l.task.main.Releasing?
    ensures EndsWith(Alone(l, io), l.auth, l.shared.cell, l.shared.sent)
  {
    Goes(l, io, l.(task := l.task.(main := Ended)));
  }

  lemma Clears(l: Local, io: Io)
    requires l.task.main.Clearing?
    ensures EndsWith(Alone(l, io), ClearIn(l.auth, l.task.main.failed), l.shared.cell, l.shared.sent)
  {
    var n := l.(auth := ClearIn(l.auth, l.task.main.failed), task := l.task.(main := Releasing));
    Goes(l, io, n);
    Releases(n, io);
  }

  lemma CollectsDelete(l: Local, io: Io)
    requires l.task.main.AwaitingDelete? && l.task.call.DeleteDone?
    ensures EndsWith(Alone(l, io), ClearIn(l.auth, l.task.call.failed), l.shared.cell, l.shared.sent)
  {
    var n := LocalStep(l, CollectDelete).value;
    Goes(l, io, n);
    Clears(n, io);
  }

  lemma Deletes(l: Local, io: Io)
    requires l.task.main.AwaitingDelete? && l.task.call.DeleteCall? && !l.task.call.late
    ensures EndsWith(Alone(l, io), ClearIn(l.auth, io.delete != Done),
                     if io.delete == Done then None else l.shared.cell, l.shared.sent)
  {
    var n := LocalStep(l, Next(l, io)).value;
    Goes(l, io, n);
    if io.delete == TimedOut {
      Clears(n, io);
    } else {
      CollectsDelete(n, io);
    }
  }

  lemma MatchesAndClears(l: Local, io: Io)
    requires l.task.main.Matching? && l.task.call.NoCall?
    ensures var (auth, cell) := DeletedIn(l.auth, l.shared.cell, l.task.main.expected, io.reloads, io.delete);
            EndsWith(Alone(l, io), auth, cell, l.shared.sent)
  {
    var n := LocalStep(l, Next(l, io)).value;
    Goes(l, io, n);
    if n.task.main.Clearing? {
      Clears(n, io);
    } else {
      var m := LocalStep(n, StartDelete).value;
      Goes(n, io, m);
      Deletes(m, io);
    }
  }

  lemma Writes(l: Local, io: Io)
    requires l.task.main.Writing?
    ensures var m := l.task.main;
            EndsWith(Alone(l, io), CommitIn(l.auth, m.bundle, m.force, m.previous), l.shared.cell, l.shared.sent)
  {
    var n := LocalStep(l, Write).value;
    Goes(l, io, n);
    Releases(n, io);
  }

  /** The save has ended, well or badly. */
  lemma Collects(l: Local, io: Io)
    requires l.task.main.Saving? && (l.task.call.SaveDone? || l.task.call.SaveFailed?)
    ensures var m := l.task.main;
            var (auth, cell) := if l.task.call.SaveDone?
                                then (CommitIn(l.auth, m.bundle, m.force, m.previous), l.shared.cell)
                                else DeletedIn(l.auth, l.shared.cell, m.expected, io.reloads, io.delete);
            EndsWith(Alone(l, io), auth, cell, l.shared.sent)
  {
    var n := LocalStep(l, CollectSave).value;
    Goes(l, io, n);
    if l.task.call.SaveDone? {
      Writes(n, io);
    } else {
      MatchesAndClears(n, io);
    }
  }

  /** The save is under way. */
  lemma SaveEnds(l: Local, io: Io)
    requires l.task.main.Saving? && l.task.call == SaveCall(l.task.main.bundle.refresh, false)
    ensures var m := l.task.main;
            var (auth, cell) := match io.save
                                case Done =>
                                  (CommitIn(l.auth, m.bundle, m.force, m.previous), Some(m.bundle.refresh))
                                case TimedOut => (ClearIn(l.auth, true), l.shared.cell)
                                case Errored => DeletedIn(l.auth, l.shared.cell, m.expected, io.reloads, io.delete);
            EndsWith(Alone(l, io), auth, cell, l.shared.sent)
  {
    var n := LocalStep(l, Next(l, io)).value;
    Goes(l, io, n);
    if io.save == TimedOut {
      Clears(n, io);
    } else {
      Collects(n, io);
    }
  }

  lemma Saves(l: Local, io: Io)
    requires l.task.main.ReadyToSave? && l.task.call.NoCall?
    ensures var m := l.task.main;
            var (auth, cell) := match io.save
                                case Done =>
                                  (CommitIn(l.auth, m.bundle, m.force, m.previous), Some(m.bundle.refresh))
                                case TimedOut => (ClearIn(l.auth, true), l.shared.cell)
                                case Errored => DeletedIn(l.auth, l.shared.cell, m.expected, io.reloads, io.delete);
            EndsWith(Alone(l, io), auth, cell, l.shared.sent)
  {
    var n := LocalStep(l, StartSave).value;
    Goes(l, io, n);
    SaveEnds(n, io);
  }

  lemma Commits(l: Local, io: Io)
    requires l.task.main.Checking? && l.task.call.NoCall?
    ensures var m := l.task.main;
            var (auth, cell) := CommittedIn(l.auth, l.shared.cell, m.bundle, m.force, m.expected, io);
            EndsWith(Alone(l, io), auth, cell, l.shared.sent)
  {
    var n := LocalStep(l, Check).value;
    Goes(l, io, n);
    if n.task.main.Matching? {
      MatchesAndClears(n, io);
    } else {
      var compared := LocalStep(n, Next(n, io)).value;
      Goes(n, io, compared);
      if compared.task.main.Releasing? {
        Releases(compared, io);
      } else {
        Saves(compared, io);
      }
    }
  }

  lemma Sends(l: Local, io: Io)
    requires l.task.main.ReadyToSend? && l.task.call.NoCall? && l.shared.cell == Some(l.task.main.token)
    requires io.response.Rotated? ==> io.response.bundle.refresh !in l.shared.issued
    ensures var m := l.task.main;
            var (auth, cell) := match io.response
                                case Failed =>
                                  DeletedIn(l.auth, l.shared.cell, l.shared.cell, io.reloads, io.delete)
                                case Rotated(b) =>
                                  CommittedIn(if m.changed && m.previous.Some? && m.previous != Some(b.account)
                                              then AdoptIn(l.auth, l.shared.cell) else l.auth,
                                              l.shared.cell, b, false, l.shared.cell, io);
            EndsWith(Alone(l, io), auth, cell, l.shared.sent + [m.token])
  {
    var n := LocalStep(l, Send).value;
    Goes(l, io, n);
    var answered := LocalStep(n, Next(n, io)).value;
    Goes(n, io, answered);
    if io.response.Failed? {
      MatchesAndClears(answered, io);
    } else {
      Commits(answered, io);
    }
  }

  /**
   For every state, cell and behaviour of the environment: a refresh that runs alone ends with the
   state, the cell and the token sent of the manager's refresh.
   */
  lemma RefreshAloneAgrees(proc: ProcId, s: Shared, auth: AuthState, allow: bool, io: Io)
    requires io.response.Rotated? ==> io.response.bundle.refresh !in s.issued
    ensures var (after, cell, sent) := RefreshedIn(auth, s.cell, allow, io);
            EndsWith(Alone(Local(Task(proc, Queued(RefreshFlow(allow)), NoCall), s, auth), io), after, cell,
                     s.sent + if sent.Some? then [sent.value] else [])
  {
    var l := Local(Task(proc, Queued(RefreshFlow(allow)), NoCall), s, auth);
    var locked := LocalStep(l, Acquire).value;
    Goes(l, io, locked);
    var loaded := LocalStep(locked, Next(locked, io)).value;
    Goes(locked, io, loaded);
    assert s.sent + [] == s.sent;
    if !io.loads {
      Releases(loaded, io);
    } else {
      var decided := LocalStep(loaded, Decide).value;
      Goes(loaded, io, decided);
      if decided.task.main.Releasing? {
        Releases(decided, io);
      } else {
        Sends(decided, io);
      }
    }
  }

  /** So does the commit of a browser login. */
  lemma LoginAloneAgrees(proc: ProcId, s: Shared, auth: AuthState, bundle: Bundle, expected: Option<Token>, io: Io)
    ensures var (after, cell) := CommittedIn(auth, s.cell, bundle, true, expected, io);
            EndsWith(Alone(Local(Task(proc, Queued(LoginFlow(bundle, expected)), NoCall), s, auth), io), after, cell,
                     s.sent)
  {
    var l := Local(Task(proc, Queued(LoginFlow(bundle, expected)), NoCall), s, auth);
    var locked := LocalStep(l, Acquire).value;
    Goes(l, io, locked);
    var checking := LocalStep(locked, Load).value;
    Goes(locked, io, checking);
    Commits(checking, io);
  }

  /** And a sign-out. */
  lemma DeleteAloneAgrees(proc: ProcId, s: Shared, auth: AuthState, expected: Option<Token>, io: Io)
    ensures var (after, cell) := DeletedIn(auth, s.cell, expected, io.reloads, io.delete);
            EndsWith(Alone(Local(Task(proc, Queued(DeleteFlow(expected)), NoCall), s, auth), io), after, cell, s.sent)
  {
    var l := Local(Task(proc, Queued(DeleteFlow(expected)), NoCall), s, auth);
    var locked := LocalStep(l, Acquire).value;
    Goes(l, io, locked);
    var matching := LocalStep(locked, Load).value;
    Goes(locked, io, matching);
    MatchesAndClears(matching, io);
  }

  /** And the start of a login, which takes over what a peer has stored. */
  lemma StartLoginAloneAgrees(proc: ProcId, s: Shared, auth: AuthState, io: Io)
    ensures var after := if !io.loads then ClearIn(auth, true)
                         else if s.cell != auth.refresh then AdoptIn(auth, s.cell) else auth;
            EndsWith(Alone(Local(Task(proc, Queued(StartLoginFlow), NoCall), s, auth), io), after, s.cell, s.sent)
  {
    var l := Local(Task(proc, Queued(StartLoginFlow), NoCall), s, auth);
    var locked := LocalStep(l, Acquire).value;
    Goes(l, io, locked);
    StartsLogin(locked, io);
  }

  lemma StartsLogin(l: Local, io: Io)
    requires l.task.main == Locked(StartLoginFlow) && l.task.call.NoCall?
    ensures var after := if !io.loads then ClearIn(l.auth, true)
                         else if l.shared.cell != l.auth.refresh then AdoptIn(l.auth, l.shared.cell) else l.auth;
            EndsWith(Alone(l, io), after, l.shared.cell, l.shared.sent)
  {
    var loaded := LocalStep(l, Next(l, io)).value;
    Goes(l, io, loaded);
    if !io.loads {
      Releases(loaded, io);
    } else {
      var decided := LocalStep(loaded, Decide).value;
      Goes(loaded, io, decided);
      Releases(decided, io);
    }
  }
}
