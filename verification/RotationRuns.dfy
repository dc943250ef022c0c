/**
 Concrete runs of the rotating session, from the start: one in which a spent token is sent
 again, and one that reaches the race in which a generation can name two accounts.
 */
module RotationRuns {
  import opened Prelude
  import opened Credentials
  import opened Rotation
  import opened SessionIdentity

  /** A world in which only task `t` is on the move. */
  function Busy(base: World, t: TaskId, task: Task, shared: Shared, auth: AuthState): World {
    base.(tasks := base.tasks[t := task], shared := shared, procs := base.procs[task.proc := auth],
          handles := HandlesOf(t, task))
  }

  lemma BusyStep(base: World, t: TaskId, task: Task, shared: Shared, auth: AuthState, e: Event, n: Local)
    requires (e.Acquire? ==> HandlesOf(t, task) == {}) && !e.AcquireFail? && n.task.proc == task.proc
    requires LocalStep(Local(task, shared, auth), e) == Some(n)
    ensures After(Busy(base, t, task, shared, auth), Do(t, e)) == Busy(base, t, n.task, n.shared, n.auth)
  {
    var w := Busy(base, t, task, shared, auth);
    assert w.tasks[t := n.task] == base.tasks[t := n.task];
    assert w.procs[n.task.proc := n.auth] == base.procs[n.task.proc := n.auth];
    assert w.handles - {Own(t), Clone(t)} + HandlesOf(t, n.task) == HandlesOf(t, n.task);
  }

  lemma Drive(run: seq<Action>, base: World, t: TaskId, task: Task, shared: Shared, auth: AuthState, e: Event, n: Local)
    returns (next: seq<Action>)
    requires RunFrom(START, run) == Busy(base, t, task, shared, auth)
    requires (e.Acquire? ==> HandlesOf(t, task) == {}) && !e.AcquireFail? && n.task.proc == task.proc
    requires LocalStep(Local(task, shared, auth), e) == Some(n)
    ensures next == run + [Do(t, e)]
    ensures RunFrom(START, next) == Busy(base, t, n.task, n.shared, n.auth)
  {
    next := run + [Do(t, e)];
    BusyStep(base, t, task, shared, auth, e, n);
    assert next[..|run|] == run;
  }

  const FIRST := Bundle(1, "first", "alice", true)
  const SECOND := Bundle(2, "second", "alice", true)
  const STRANGER := AuthState(None, None, None, 0, 0, false, false)
  const ALICE := AuthState(Some(1), Some("first"), Some("alice"), 1, 1, false, false)

  function Cell(cell: Option<Token>, sent: seq<Token>, issued: set<Token>, holds: nat, fault: bool): Shared {
    Shared(cell, sent, issued, holds, fault)
  }

  /** Process 0 before anyone signed in. */
  const EMPTY := START.(procs := map[0 := STRANGER])

  /** A browser login of process 0 up to its commit. */
  lemma LogsIn() returns (run: seq<Action>)
    ensures RunFrom(START, run)
            == Busy(EMPTY, 0, Task(0, Checking(FIRST, true, None), NoCall), Cell(None, [], {1}, 1, false), STRANGER)
  {
    var flow := LoginFlow(FIRST, None);
    run := [NewProcess(0), NewTask(0, 0, flow)];
    Begins(flow);
    var s := Cell(None, [], {1}, 0, false);
    var h := s.(holds := 1);
    run := Drive(run, EMPTY, 0, Task(0, Queued(flow), NoCall), s, STRANGER, Acquire,
                 Local(Task(0, Locked(flow), NoCall), h, STRANGER));
    run := Drive(run, EMPTY, 0, Task(0, Locked(flow), NoCall), h, STRANGER, Load,
                 Local(Task(0, Checking(FIRST, true, None), NoCall), h, STRANGER));
  }

  lemma SavingMoves(bundle: Bundle, s: Shared, auth: AuthState)
    requires bundle.valid && auth.account == None && s.cell == None
    ensures LocalStep(Local(Task(0, Checking(bundle, true, None), NoCall), s, auth), Check)
            == Some(Local(Task(0, Comparing(bundle, true, None, None), NoCall), s, auth))
    ensures LocalStep(Local(Task(0, Comparing(bundle, true, None, None), NoCall), s, auth), Compare)
            == Some(Local(Task(0, ReadyToSave(bundle, true, None, None), NoCall), s, auth))
    ensures LocalStep(Local(Task(0, ReadyToSave(bundle, true, None, None), NoCall), s, auth), StartSave)
            == Some(Local(Task(0, Saving(bundle, true, None, None), SaveCall(bundle.refresh, false)), s, auth))
  {
  }

  /** The same login up to its save. */
  lemma SavesLogin() returns (run: seq<Action>)
    ensures RunFrom(START, run)
            == Busy(EMPTY, 0, Task(0, Saving(FIRST, true, None, None), SaveCall(1, false)),
                    Cell(None, [], {1}, 1, false), STRANGER)
  {
    run := LogsIn();
    var h := Cell(None, [], {1}, 1, false);
    SavingMoves(FIRST, h, STRANGER);
    run := Drive(run, EMPTY, 0, Task(0, Checking(FIRST, true, None), NoCall), h, STRANGER, Check,
                 Local(Task(0, Comparing(FIRST, true, None, None), NoCall), h, STRANGER));
    run := Drive(run, EMPTY, 0, Task(0, Comparing(FIRST, true, None, None), NoCall), h, STRANGER, Compare,
                 Local(Task(0, ReadyToSave(FIRST, true, None, None), NoCall), h, STRANGER));
    run := Drive(run, EMPTY, 0, Task(0, ReadyToSave(FIRST, true, None, None), NoCall), h, STRANGER, StartSave,
                 Local(Task(0, Saving(FIRST, true, None, None), SaveCall(1, false)), h, STRANGER));
  }

  lemma Begins(flow: Flow)
    requires flow == LoginFlow(FIRST, None)
    ensures RunFrom(START, [NewProcess(0), NewTask(0, 0, flow)])
            == Busy(EMPTY, 0, Task(0, Queued(flow), NoCall), Cell(None, [], {1}, 0, false), STRANGER)
  {
    assert [NewProcess(0), NewTask(0, 0, flow)] == [NewProcess(0)] + [NewTask(0, 0, flow)];
    RunOne(START, NewProcess(0), [NewTask(0, 0, flow)]);
    RunOne(EMPTY, NewTask(0, 0, flow), []);
    assert START.procs[0 := STRANGER] == EMPTY.procs;
    assert {} + {1} == {1};
  }

  /** Process 0 signed in as alice, with token 1 stored and never sent. */
  const SIGNED_IN := EMPTY.(tasks := map[0 := Task(0, Ended, NoCall)], procs := map[0 := ALICE],
                            shared := Shared(Some(1), [], {1}, 1, false))

  lemma StoresToken() returns (run: seq<Action>)
    ensures RunFrom(START, run)
            == Busy(EMPTY, 0, Task(0, Writing(FIRST, true, None), NoCall), SIGNED_IN.shared, STRANGER)
  {
    run := SavesLogin();
    var h := Cell(None, [], {1}, 1, false);
    var c := h.(cell := Some(1));
    run := Drive(run, EMPTY, 0, Task(0, Saving(FIRST, true, None, None), SaveCall(1, false)), h, STRANGER, FinishSave,
                 Local(Task(0, Saving(FIRST, true, None, None), SaveDone), c, STRANGER));
    run := Drive(run, EMPTY, 0, Task(0, Saving(FIRST, true, None, None), SaveDone), c, STRANGER, CollectSave,
                 Local(Task(0, Writing(FIRST, true, None), NoCall), c, STRANGER));
  }

  lemma Writes() returns (run: seq<Action>)
    ensures RunFrom(START, run) == Busy(EMPTY, 0, Task(0, Releasing, NoCall), SIGNED_IN.shared, ALICE)
  {
    run := StoresToken();
    var c := SIGNED_IN.shared;
    run := Drive(run, EMPTY, 0, Task(0, Writing(FIRST, true, None), NoCall), c, STRANGER, Write,
                 Local(Task(0, Releasing, NoCall), c, ALICE));
  }

  lemma SignsIn() returns (run: seq<Action>)
    ensures RunFrom(START, run) == SIGNED_IN
  {
    run := Writes();
    var c := SIGNED_IN.shared;
    run := Drive(run, EMPTY, 0, Task(0, Releasing, NoCall), c, ALICE, Release,
                 Local(Task(0, Ended, NoCall), c, ALICE));
    assert EMPTY.tasks[0 := Task(0, Ended, NoCall)] == SIGNED_IN.tasks;
    assert EMPTY.procs[0 := ALICE] == SIGNED_IN.procs;
  }

  lemma QueuesRefresh(run: seq<Action>, base: World) returns (next: seq<Action>)
    requires RunFrom(START, run) == base && 1 !in base.tasks && base.handles == {}
    requires 0 in base.procs && base.procs[0] == ALICE
    ensures RunFrom(START, next) == Busy(base, 1, Task(0, Queued(RefreshFlow(true)), NoCall), base.shared, ALICE)
  {
    next := run + [NewTask(1, 0, RefreshFlow(true))];
    assert next[..|run|] == run;
    assert base.procs[0 := ALICE] == base.procs;
  }

  /** Refresh 1 of alice's process up to reading the cell. */
  lemma ReadsToken(run: seq<Action>, base: World) returns (next: seq<Action>)
    requires RunFrom(START, run) == base && 1 !in base.tasks && base.handles == {}
    requires 0 in base.procs && base.procs[0] == ALICE && base.shared == SIGNED_IN.shared
    ensures RunFrom(START, next)
            == Busy(base, 1, Task(0, Loaded(Some(1), RefreshFlow(true)), NoCall), Cell(Some(1), [], {1}, 2, false),
                    ALICE)
  {
    var flow := RefreshFlow(true);
    next := QueuesRefresh(run, base);
    var s := base.shared;
    var h := s.(holds := 2);
    next := Drive(next, base, 1, Task(0, Queued(flow), NoCall), s, ALICE, Acquire,
                  Local(Task(0, Locked(flow), NoCall), h, ALICE));
    next := Drive(next, base, 1, Task(0, Locked(flow), NoCall), h, ALICE, Load,
                  Local(Task(0, Loaded(Some(1), flow), NoCall), h, ALICE));
  }

  const AWAITING := Awaiting(1, false, Some("alice"))
  const SENT := Cell(Some(1), [1], {1}, 2, false)

  /** Refresh 1 of alice's process up to its request. */
  lemma SendsToken(run: seq<Action>, base: World) returns (next: seq<Action>)
    requires RunFrom(START, run) == base && 1 !in base.tasks && base.handles == {}
    requires 0 in base.procs && base.procs[0] == ALICE && base.shared == SIGNED_IN.shared
    ensures RunFrom(START, next) == Busy(base, 1, Task(0, AWAITING, NoCall), SENT, ALICE)
  {
    next := ReadsToken(run, base);
    var h := SENT.(sent := []);
    next := Drive(next, base, 1, Task(0, Loaded(Some(1), RefreshFlow(true)), NoCall), h, ALICE, Decide,
                  Local(Task(0, ReadyToSend(1, false, Some("alice")), NoCall), h, ALICE));
    assert [] + [1] == [1];
    next := Drive(next, base, 1, Task(0, ReadyToSend(1, false, Some("alice")), NoCall), h, ALICE, Send,
                  Local(Task(0, AWAITING, NoCall), SENT, ALICE));
  }

  lemma RefusalMoves(token: Token, account: Option<AccountId>, s: Shared, auth: AuthState)
    requires s.cell == Some(token)
    ensures LocalStep(Local(Task(0, Awaiting(token, false, account), NoCall), s, auth), Refuse)
            == Some(Local(Task(0, Matching(Some(token)), NoCall), s, auth))
    ensures LocalStep(Local(Task(0, Matching(Some(token)), NoCall), s, auth), Match)
            == Some(Local(Task(0, ReadyToDelete(token, s.holds), NoCall), s, auth))
  {
  }

  /** A refusal, and the cell still holds the token that was sent. */
  lemma Refuses(run: seq<Action>, base: World, token: Token, account: Option<AccountId>, s: Shared, auth: AuthState)
    returns (next: seq<Action>)
    requires RunFrom(START, run) == Busy(base, 1, Task(0, Awaiting(token, false, account), NoCall), s, auth)
    requires s.cell == Some(token)
    ensures RunFrom(START, next) == Busy(base, 1, Task(0, ReadyToDelete(token, s.holds), NoCall), s, auth)
  {
    RefusalMoves(token, account, s, auth);
    next := Drive(run, base, 1, Task(0, Awaiting(token, false, account), NoCall), s, auth, Refuse,
                  Local(Task(0, Matching(Some(token)), NoCall), s, auth));
    next := Drive(next, base, 1, Task(0, Matching(Some(token)), NoCall), s, auth, Match,
                  Local(Task(0, ReadyToDelete(token, s.holds), NoCall), s, auth));
  }

  lemma DeleteStarts(token: Token, hold: nat, s: Shared, auth: AuthState)
    ensures LocalStep(Local(Task(0, ReadyToDelete(token, hold), NoCall), s, auth), StartDelete)
            == Some(Local(Task(0, AwaitingDelete, DeleteCall(token, hold, false)), s, auth))
  {
  }

  /** The server refuses, and the spent token is to be deleted. */
  lemma StartsDelete() returns (run: seq<Action>)
    ensures RunFrom(START, run)
            == Busy(SIGNED_IN, 1, Task(0, AwaitingDelete, DeleteCall(1, 2, false)), SENT, ALICE)
  {
    run := SignsIn();
    run := SendsToken(run, SIGNED_IN);
    run := Refuses(run, SIGNED_IN, 1, Some("alice"), SENT, ALICE);
    DeleteStarts(1, 2, SENT, ALICE);
    run := Drive(run, SIGNED_IN, 1, Task(0, ReadyToDelete(1, 2), NoCall), SENT, ALICE, StartDelete,
                 Local(Task(0, AwaitingDelete, DeleteCall(1, 2, false)), SENT, ALICE));
  }

  const SPENT := SENT.(fault := true)

  lemma FailedDeleteMoves(token: Token, hold: nat, s: Shared, auth: AuthState)
    ensures LocalStep(Local(Task(0, AwaitingDelete, DeleteCall(token, hold, false)), s, auth), FailDelete)
            == Some(Local(Task(0, AwaitingDelete, DeleteDone(true)), Faulted(s), auth))
    ensures LocalStep(Local(Task(0, AwaitingDelete, DeleteDone(true)), Faulted(s), auth), CollectDelete)
            == Some(Local(Task(0, Clearing(true), NoCall), Faulted(s), auth))
  {
  }

  lemma FailsDelete(run: seq<Action>, base: World, token: Token, hold: nat, s: Shared, auth: AuthState)
    returns (next: seq<Action>)
    requires RunFrom(START, run) == Busy(base, 1, Task(0, AwaitingDelete, DeleteCall(token, hold, false)), s, auth)
    ensures RunFrom(START, next) == Busy(base, 1, Task(0, Clearing(true), NoCall), Faulted(s), auth)
  {
    FailedDeleteMoves(token, hold, s, auth);
    next := Drive(run, base, 1, Task(0, AwaitingDelete, DeleteCall(token, hold, false)), s, auth, FailDelete,
                  Local(Task(0, AwaitingDelete, DeleteDone(true)), Faulted(s), auth));
    next := Drive(next, base, 1, Task(0, AwaitingDelete, DeleteDone(true)), Faulted(s), auth, CollectDelete,
                  Local(Task(0, Clearing(true), NoCall), Faulted(s), auth));
  }

  lemma ClearingMoves(s: Shared, auth: AuthState)
    ensures LocalStep(Local(Task(0, Clearing(true), NoCall), s, auth), Clear)
            == Some(Local(Task(0, Releasing, NoCall), s, ClearIn(auth, true)))
    ensures LocalStep(Local(Task(0, Releasing, NoCall), s, ClearIn(auth, true)), Release)
            == Some(Local(Task(0, Ended, NoCall), s, ClearIn(auth, true)))
  {
  }

  lemma ClearsAndReleases(run: seq<Action>, base: World, s: Shared, auth: AuthState) returns (next: seq<Action>)
    requires RunFrom(START, run) == Busy(base, 1, Task(0, Clearing(true), NoCall), s, auth)
    ensures RunFrom(START, next) == Busy(base, 1, Task(0, Ended, NoCall), s, ClearIn(auth, true))
  {
    ClearingMoves(s, auth);
    next := Drive(run, base, 1, Task(0, Clearing(true), NoCall), s, auth, Clear,
                  Local(Task(0, Releasing, NoCall), s, ClearIn(auth, true)));
    next := Drive(next, base, 1, Task(0, Releasing, NoCall), s, ClearIn(auth, true), Release,
                  Local(Task(0, Ended, NoCall), s, ClearIn(auth, true)));
  }

  /** The delete returns an error, and the lock is free. */
  lemma FailsToDelete() returns (run: seq<Action>)
    ensures RunFrom(START, run) == Busy(SIGNED_IN, 1, Task(0, Ended, NoCall), SPENT, ClearIn(ALICE, true))
  {
    run := StartsDelete();
    assert Faulted(SENT) == SPENT;
    run := FailsDelete(run, SIGNED_IN, 1, 2, SENT, ALICE);
    run := ClearsAndReleases(run, SIGNED_IN, SPENT, ALICE);
  }

  /** After such a failing delete, with nothing else gone wrong, the process knows that the store is
      unavailable and validates no more; but a process that starts loads the spent token, and its
      first refresh sends it again. */
  lemma FailedDeleteResends() returns (run: seq<Action>)
    ensures var w := RunFrom(START, run + [NewProcess(1)]);
            && w.handles == {} && !MayRefresh(w, 0) && MayRefresh(w, 1)
            && RefreshUpToSend(w, 2, 1).shared.sent == [1, 1]
  {
    run := FailsToDelete();
    assert (run + [NewProcess(1)])[..|run|] == run;
    NextRefreshSends(RunFrom(START, run + [NewProcess(1)]), 2, 1);
    assert [1] + [1] == [1, 1];
  }

  /** Alice's process signed in, with a login that is starting queued for the lock. */
  const STARTING := SIGNED_IN.(tasks := SIGNED_IN.tasks[2 := Task(0, Queued(StartLoginFlow), NoCall)])

  lemma StartsLogin() returns (run: seq<Action>)
    ensures RunFrom(START, run) == Busy(STARTING, 1, Task(0, AWAITING, NoCall), SENT, ALICE)
  {
    run := SignsIn();
    run := run + [NewTask(2, 0, StartLoginFlow)];
    assert run[..|run| - 1] + [NewTask(2, 0, StartLoginFlow)] == run;
    run := SendsToken(run, STARTING);
  }

  const COMPARING := Comparing(SECOND, false, Some(1), Some("alice"))

  /** Next to it, a refresh up to its commit. */
  lemma ReachesCommit() returns (run: seq<Action>)
    ensures RunFrom(START, run)
            == Busy(STARTING, 1, Task(0, COMPARING, NoCall), SENT.(issued := {1, 2}), ALICE)
  {
    run := StartsLogin();
    var i := SENT.(issued := {1, 2});
    assert {1} + {2} == {1, 2};
    run := Drive(run, STARTING, 1, Task(0, AWAITING, NoCall), SENT, ALICE, Rotate(SECOND),
                 Local(Task(0, Checking(SECOND, false, Some(1)), NoCall), i, ALICE));
    run := Drive(run, STARTING, 1, Task(0, Checking(SECOND, false, Some(1)), NoCall), i, ALICE, Check,
                 Local(Task(0, COMPARING, NoCall), i, ALICE));
  }

  lemma CommitRaces(w: World, s: Shared)
    requires w == Busy(STARTING, 1, Task(0, COMPARING, NoCall), s, ALICE)
    ensures 2 in w.tasks && w.tasks[2] == Task(0, Queued(StartLoginFlow), NoCall) && 0 in w.procs
    ensures Races(w, 2, AcquireFail) && 0 !in w.raced
    ensures Step(w, Do(2, AcquireFail)).Some?
  {
    assert 1 in w.tasks && Commits(w.tasks[1]) && w.tasks[1].proc == 0;
  }

  /**
   From the start, alice's process reaches a commit of a refresh while a login that is starting
   waits for the lock: if the wait fails, one generation can name two accounts.
   */
  lemma StartingLoginConfuses() returns (run: seq<Action>)
    ensures var w := RunFrom(START, run);
            && 2 in w.tasks && w.tasks[2].main == Queued(StartLoginFlow) && w.tasks[2].proc == 0 && 0 in w.procs
            && exists later :: NoLockFails(later) && Confused(After(w, Do(2, AcquireFail)), later, 0)
  {
    run := ReachesCommit();
    CommitRaces(RunFrom(START, run), SENT.(issued := {1, 2}));
    AccountsAreConfusedExactly(run, Do(2, AcquireFail), 0);
  }
}
