/**
 Which account a generation names. Commits, adoptions and validations of one process keep a
 generation on one account, except when an attempt to take the lock fails during a commit.
 */
module SessionIdentity {
  import opened Prelude
  import opened Credentials
  import opened Rotation

  // ---------- A commit keeps the account it read ----------

  /** A commit under way that will not open a generation still finds the account it read. */
  predicate CommitInv(task: Task, auth: AuthState) {
    Commits(task) ==> task.main.previous == Some(task.main.bundle.account) && auth.account == task.main.previous
  }

  lemma MainStepAgrees(l: Local, e: Event)
    requires MainStep(l, e).Some? && CommitInv(l.task, l.auth) && CallInv(l.task, l.shared)
    ensures var n := MainStep(l, e).value;
            && n.task.proc == l.task.proc
            && Agrees(l.auth, n.auth)
            && CommitInv(n.task, n.auth)
            && (!HasOwn(l.task) && !e.AcquireFail? ==> n.auth == l.auth)
  {
  }

  lemma CallStepAgrees(l: Local, e: Event)
    requires CallStep(l, e).Some? && CommitInv(l.task, l.auth)
    ensures var n := CallStep(l, e).value;
            && n.task.proc == l.task.proc
            && n.auth == l.auth
            && CommitInv(n.task, n.auth)
  {
  }

  /** In a process without a race every commit finds its account. */
  ghost predicate Identities(w: World) {
    forall t | t in w.tasks ::
      && w.tasks[t].proc in w.procs
      && (w.tasks[t].proc !in w.raced ==> CommitInv(w.tasks[t], w.procs[w.tasks[t].proc]))
  }

  /** Every process that was there still is, and without a race a generation has kept its account. */
  ghost predicate Since(w: World, v: World) {
    && w.raced <= v.raced
    && forall p | p in w.procs :: p in v.procs && (p !in v.raced ==> Agrees(w.procs[p], v.procs[p]))
  }

  lemma LocalStepAgrees(l: Local, e: Event, n: Local)
    requires LocalStep(l, e) == Some(n) && CommitInv(l.task, l.auth) && CallInv(l.task, l.shared)
    ensures n.task.proc == l.task.proc && Agrees(l.auth, n.auth) && CommitInv(n.task, n.auth)
    ensures !HasOwn(l.task) && !e.AcquireFail? ==> n.auth == l.auth
  {
    if MainStep(l, e).Some? {
      MainStepAgrees(l, e);
    } else {
      CallStepAgrees(l, e);
    }
  }

  lemma LocalStepKeepsProc(l: Local, e: Event, n: Local)
    requires LocalStep(l, e) == Some(n)
    ensures n.task.proc == l.task.proc
  {
  }

  /** A task that commits has the lock, so no other task of its process writes meanwhile, unless
      it races. */
  lemma OtherCommitKept(w: World, t: TaskId, e: Event, n: Local, u: TaskId)
    requires Inv(w) && Identities(w) && t in w.tasks && u in w.tasks && t != u && w.tasks[t].proc in w.procs
    requires LocalStep(Local(w.tasks[t], w.shared, w.procs[w.tasks[t].proc]), e) == Some(n)
    requires w.tasks[u].proc == w.tasks[t].proc && w.tasks[t].proc !in w.raced && !Races(w, t, e)
    ensures CommitInv(w.tasks[u], n.auth)
  {
    LocalStepAgrees(Local(w.tasks[t], w.shared, w.procs[w.tasks[t].proc]), e, n);
    if HasOwn(w.tasks[u]) && HasOwn(w.tasks[t]) {
      HoldersCoincide(w, t, u);
    }
  }

  lemma DoKeepsIdentities(w: World, t: TaskId, e: Event)
    requires Inv(w) && Identities(w) && Step(w, Do(t, e)).Some?
    ensures Identities(After(w, Do(t, e))) && Since(w, After(w, Do(t, e)))
  {
    var n := DoSteps(w, t, e);
    var v, p := After(w, Do(t, e)), w.tasks[t].proc;
    LocalStepKeepsProc(Local(w.tasks[t], w.shared, w.procs[p]), e, n);
    if p !in v.raced {
      LocalStepAgrees(Local(w.tasks[t], w.shared, w.procs[p]), e, n);
      forall u | u in w.tasks && u != t && w.tasks[u].proc == p
        ensures CommitInv(w.tasks[u], n.auth)
      {
        OtherCommitKept(w, t, e, n, u);
      }
    }
  }

  lemma StepKeepsIdentities(w: World, a: Action)
    requires Inv(w) && Identities(w)
    ensures Identities(After(w, a)) && Since(w, After(w, a))
  {
    if Step(w, a).Some? && a.Do? {
      DoKeepsIdentities(w, a.t, a.e);
    }
  }

  lemma {:induction false} IdentitiesHold(run: seq<Action>)
    ensures Inv(RunFrom(START, run)) && Identities(RunFrom(START, run))
  {
    InvHolds(run);
    if run != [] {
      IdentitiesHold(run[..|run| - 1]);
      StepKeepsIdentities(RunFrom(START, run[..|run| - 1]), run[|run| - 1]);
    }
  }

  lemma SinceTransitive(w: World, v: World, u: World)
    requires Since(w, v) && Since(v, u)
    ensures Since(w, u)
  {
    forall p | p in w.procs && p !in u.raced
      ensures p in u.procs && Agrees(w.procs[p], u.procs[p])
    {
      AgreesTransitive(w.procs[p], v.procs[p], u.procs[p]);
    }
  }

  lemma {:induction false} SinceHolds(w: World, later: seq<Action>)
    requires Inv(w) && Identities(w)
    ensures Since(w, RunFrom(w, later)) && Inv(RunFrom(w, later)) && Identities(RunFrom(w, later))
  {
    if later != [] {
      var v := RunFrom(w, later[..|later| - 1]);
      SinceHolds(w, later[..|later| - 1]);
      StepKeepsInv(v, later[|later| - 1]);
      StepKeepsIdentities(v, later[|later| - 1]);
      SinceTransitive(w, v, After(v, later[|later| - 1]));
    }
  }

  /**
   Within a process, over every interleaving with peers, validations, login commits and failing
   locks: two moments with the same generation never show two different accounts, unless an
   attempt of this very process to take the lock failed during one of its commits.
   */
  lemma GenerationNamesOneAccount(run: seq<Action>, later: seq<Action>, p: ProcId)
    requires p in RunFrom(START, run).procs && p !in RunFrom(RunFrom(START, run), later).raced
    ensures var w, v := RunFrom(START, run), RunFrom(RunFrom(START, run), later);
            && p in v.procs
            && w.procs[p].generation <= v.procs[p].generation
            && (w.procs[p].generation == v.procs[p].generation && w.procs[p].account.Some? ==>
                  v.procs[p].account == w.procs[p].account)
  {
    IdentitiesHold(run);
    SinceHolds(RunFrom(START, run), later);
  }

  // ---------- Every race can confuse two accounts ----------

  predicate NoLockFails(run: seq<Action>) {
    forall i | 0 <= i < |run| && run[i].Do? :: !run[i].e.AcquireFail?
  }

  /** Two moments of one process show two accounts under one generation. */
  predicate TwoAccounts(s: AuthState, t: AuthState) {
    s.generation == t.generation && s.account.Some? && t.account.Some? && s.account != t.account
  }

  /** Some moment of the continuation and its end show two accounts under one generation. */
  ghost predicate Confused(w: World, later: seq<Action>, p: ProcId) {
    exists k | 0 <= k <= |later| ::
      && p in RunFrom(w, later[..k]).procs && p in RunFrom(w, later).procs
      && TwoAccounts(RunFrom(w, later[..k]).procs[p], RunFrom(w, later).procs[p])
  }

  lemma {:induction false} RunConcat(w: World, a: seq<Action>, b: seq<Action>)
    ensures RunFrom(w, a + b) == RunFrom(RunFrom(w, a), b)
  {
    if b == [] {
      assert a + b == a;
    } else {
      assert (a + b)[..|a + b| - 1] == a + b[..|b| - 1];
      RunConcat(w, a, b[..|b| - 1]);
    }
  }

  lemma RunOne(w: World, a: Action, b: seq<Action>)
    ensures RunFrom(w, [a]) == After(w, a)
    ensures RunFrom(w, [a] + b) == RunFrom(After(w, a), b)
  {
    assert [a][..0] == [];
    RunConcat(w, [a], b);
  }

  /** How many steps a commit is from its write. */
  function StepsToWrite(task: Task): nat {
    match task.main
    case Comparing(_, _, _, _) => 5
    case ReadyToSave(_, _, _, _) => 4
    case Saving(_, _, _, _) => if task.call.SaveCall? then 3 else 2
    case _ => 1
  }

  function NextOfCommit(task: Task): Event {
    match task.main
    case Comparing(_, _, _, _) => Compare
    case ReadyToSave(_, _, _, _) => StartSave
    case Saving(_, _, _, _) => if task.call.SaveCall? then FinishSave else CollectSave
    case _ => Write
  }

  /** A commit under way goes on when nothing fails: its next step brings it closer to its write,
      and only the write touches the process. */
  lemma CommitGoesOn(l: Local)
    requires Commits(l.task) && CallInv(l.task, l.shared)
    ensures var n := LocalStep(l, NextOfCommit(l.task));
            && n.Some? && n.value.task.proc == l.task.proc
            && if l.task.main.Writing?
               then n.value.auth == CommitIn(l.auth, l.task.main.bundle, false, l.task.main.previous)
               else Commits(n.value.task) && StepsToWrite(n.value.task) < StepsToWrite(l.task)
                    && n.value.auth == l.auth && n.value.task.main.bundle == l.task.main.bundle
                    && n.value.task.main.previous == l.task.main.previous
  {
  }

  lemma {:induction false} CommitFinishes(w: World, t: TaskId) returns (later: seq<Action>)
    requires Inv(w) && t in w.tasks && w.tasks[t].proc in w.procs && Commits(w.tasks[t])
    ensures NoLockFails(later)
    ensures var (p, m) := (w.tasks[t].proc, w.tasks[t].main);
            RunFrom(w, later).procs == w.procs[p := CommitIn(w.procs[p], m.bundle, false, m.previous)]
    decreases StepsToWrite(w.tasks[t])
  {
    var e, p := NextOfCommit(w.tasks[t]), w.tasks[t].proc;
    CommitGoesOn(Local(w.tasks[t], w.shared, w.procs[p]));
    assert Step(w, Do(t, e)).Some?;
    var n := DoSteps(w, t, e);
    var v := After(w, Do(t, e));
    if w.tasks[t].main.Writing? {
      later := [Do(t, e)];
      RunOne(w, Do(t, e), []);
    } else {
      StepKeepsInv(w, Do(t, e));
      assert v.procs == w.procs;
      var rest := CommitFinishes(v, t);
      later := [Do(t, e)] + rest;
      RunOne(w, Do(t, e), rest);
    }
  }

  /** A validation that began after the race may name any account. */
  lemma ValidationNames(w: World, p: ProcId, other: AccountId)
    requires p in w.procs && w.procs[p].account == None
    ensures var v := RunFrom(w, [Capture(0, p), FinishValidation(0, other)]);
            && v.tasks == w.tasks && v.shared == w.shared && v.handles == w.handles
            && v.procs == w.procs[p := w.procs[p].(account := Some(other), externalPending := false)]
  {
    var captured := After(w, Capture(0, p));
    RunOne(w, Capture(0, p), [FinishValidation(0, other)]);
    RunOne(captured, FinishValidation(0, other), []);
    assert [Capture(0, p)] + [FinishValidation(0, other)] == [Capture(0, p), FinishValidation(0, other)];
    assert captured.captures[0] == (p, w.procs[p].generation);
  }

  lemma SameCellAndTasks(v: World, w: World)
    requires Inv(v) && w.tasks == v.tasks && w.shared == v.shared && w.handles == v.handles
    ensures Inv(w)
  {
  }

  lemma FailedAcquire(l: Local, n: Local)
    requires LocalStep(l, AcquireFail) == Some(n)
    ensures n.task.proc == l.task.proc && n.auth == ClearIn(l.auth, true)
  {
  }

  /** The race forgets the account the commit has read. */
  lemma RaceForgets(w: World, t: TaskId) returns (u: TaskId)
    requires Inv(w) && Identities(w) && Step(w, Do(t, AcquireFail)).Some? && Races(w, t, AcquireFail)
    requires w.tasks[t].proc !in w.raced
    ensures var (v, p) := (After(w, Do(t, AcquireFail)), w.tasks[t].proc);
            && p in v.procs && v.procs[p].account == None
            && u in v.tasks && v.tasks[u].proc == p && Commits(v.tasks[u])
            && v.tasks[u].main.previous == Some(v.tasks[u].main.bundle.account)
  {
    var p := w.tasks[t].proc;
    var n := DoSteps(w, t, AcquireFail);
    u :| u in w.tasks && u != t && w.tasks[u].proc == p && Commits(w.tasks[u]);
    assert CommitInv(w.tasks[u], w.procs[p]);
    FailedAcquire(Local(w.tasks[t], w.shared, w.procs[p]), n);
  }

  lemma NamingThenCommit(v: World, u: TaskId, p: ProcId, other: AccountId) returns (later: seq<Action>)
    requires Inv(v) && p in v.procs && v.procs[p].account == None
    requires u in v.tasks && v.tasks[u].proc == p && Commits(v.tasks[u]) && other != v.tasks[u].main.bundle.account
    requires v.tasks[u].main.previous == Some(v.tasks[u].main.bundle.account)
    ensures NoLockFails(later) && Confused(v, later, p)
  {
    var naming := [Capture(0, p), FinishValidation(0, other)];
    ValidationNames(v, p, other);
    var named := RunFrom(v, naming);
    SameCellAndTasks(v, named);
    var rest := CommitFinishes(named, u);
    later := naming + rest;
    RunConcat(v, naming, rest);
    assert later[..2] == naming;
    assert p in RunFrom(v, later[..2]).procs
           && TwoAccounts(RunFrom(v, later[..2]).procs[p], RunFrom(v, later).procs[p]);
  }

  /** After a race a validation may name one account and the commit another, under one generation. */
  lemma RaceConfuses(w: World, t: TaskId) returns (later: seq<Action>)
    requires Inv(w) && Identities(w) && Step(w, Do(t, AcquireFail)).Some? && Races(w, t, AcquireFail)
    requires w.tasks[t].proc !in w.raced
    ensures NoLockFails(later) && Confused(After(w, Do(t, AcquireFail)), later, w.tasks[t].proc)
  {
    var u := RaceForgets(w, t);
    var v := After(w, Do(t, AcquireFail));
    StepKeepsInv(w, Do(t, AcquireFail));
    var account := v.tasks[u].main.bundle.account;
    assert |account + "'"| != |account|;
    later := NamingThenCommit(v, u, w.tasks[t].proc, account + "'");
  }

  lemma {:induction false} RacedStays(w: World, later: seq<Action>)
    requires NoLockFails(later)
    ensures RunFrom(w, later).raced == w.raced
  {
    if later != [] {
      RacedStays(w, later[..|later| - 1]);
    }
  }

  lemma StaysAgreed(w: World, first: seq<Action>, rest: seq<Action>, p: ProcId)
    requires Inv(w) && Identities(w) && p in w.procs && p !in w.raced && NoLockFails(first) && NoLockFails(rest)
    ensures p in RunFrom(w, first).procs && p in RunFrom(RunFrom(w, first), rest).procs
    ensures Agrees(RunFrom(w, first).procs[p], RunFrom(RunFrom(w, first), rest).procs[p])
  {
    var v := RunFrom(w, first);
    SinceHolds(w, first);
    RacedStays(w, first);
    SinceHolds(v, rest);
    RacedStays(v, rest);
  }

  lemma NeverConfused(w: World, later: seq<Action>, p: ProcId)
    requires Inv(w) && Identities(w) && p in w.procs && p !in w.raced && NoLockFails(later)
    ensures !Confused(w, later, p)
  {
    forall k | 0 <= k <= |later|
      ensures p in RunFrom(w, later).procs && p in RunFrom(w, later[..k]).procs
      ensures Agrees(RunFrom(w, later[..k]).procs[p], RunFrom(w, later).procs[p])
    {
      StaysAgreed(w, later[..k], later[k..], p);
      RunConcat(w, later[..k], later[k..]);
      assert later[..k] + later[k..] == later;
    }
  }

  /**
   When a generation can name two accounts, exactly: after any step of any run, some
   continuation in which no attempt to take the lock fails shows two accounts under one
   generation if and only if that step is a failing attempt to take the lock while another task
   of the process has read its account and has yet to write its commit. In the code only a
   starting login takes this lock without the operation lock that commits hold.
   */
  lemma AccountsAreConfusedExactly(run: seq<Action>, a: Action, p: ProcId)
    requires p in RunFrom(START, run).procs && p !in RunFrom(START, run).raced
    ensures (exists later :: NoLockFails(later) && Confused(After(RunFrom(START, run), a), later, p))
            <==> a.Do? && a.t in RunFrom(START, run).tasks && RunFrom(START, run).tasks[a.t].proc == p
                 && Step(RunFrom(START, run), a).Some? && Races(RunFrom(START, run), a.t, a.e)
  {
    var w := RunFrom(START, run);
    IdentitiesHold(run);
    StepKeepsInv(w, a);
    StepKeepsIdentities(w, a);
    if a.Do? && a.t in w.tasks && w.tasks[a.t].proc == p && Step(w, a).Some? && Races(w, a.t, a.e) {
      var later := RaceConfuses(w, a.t);
    } else {
      RacedOnlyThere(w, a, p);
      forall later | NoLockFails(later)
        ensures !Confused(After(w, a), later, p)
      {
        NeverConfused(After(w, a), later, p);
      }
    }
  }

  lemma RacedOnlyThere(w: World, a: Action, p: ProcId)
    requires p in w.procs && p !in w.raced
    requires !(a.Do? && a.t in w.tasks && w.tasks[a.t].proc == p && Step(w, a).Some? && Races(w, a.t, a.e))
    ensures p in After(w, a).procs && p !in After(w, a).raced
  {
    if Step(w, a).Some? && a.Do? {
      var n := DoSteps(w, a.t, a.e);
      LocalStepKeepsProc(Local(w.tasks[a.t], w.shared, w.procs[w.tasks[a.t].proc]), a.e, n);
    }
  }
}
