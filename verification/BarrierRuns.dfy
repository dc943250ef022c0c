/**
 What the account-switch barrier lets through: work that is left alone registers, binds and
 publishes, and a switch that finds the work gone moves the store and opens the barrier again.
 */
module BarrierRuns {
  import opened Prelude
  import opened AccountWork
  import opened SwitchBarrier

  /** Nobody switches, and nobody holds the gate. */
  predicate IsOpen(w: World) {
    !w.registry.switching && !w.tracker.switching && w.lock.None?
  }

  /** New work is registered, and bound to the store of the moment. */
  lemma RegistersAndBinds(w: World, id: WorkId, token: TokenId)
    requires IsOpen(w) && id !in w.workers && w.store.account.Some?
    ensures var v := After(After(w, Register(id, token)), Bind(id));
            && v == w.(workers := v.workers, tracker := v.tracker)
            && v.tracker == w.tracker.(active := w.tracker.active[id := token])
            && v.workers
               == w.workers[id := Worker(Live(Binding(w.store.generation, w.store.account.value)), token, false)]
  {
  }

  /** Live work that nobody cancelled publishes when it is bound to the current account, and leaves
      the gate without publishing when it is not. */
  lemma PublishesExactly(w: World, id: WorkId)
    requires IsOpen(w) && id in w.workers && w.workers[id].pc.Live?
    requires id in w.tracker.active && w.workers[id].token !in w.cancelled
    ensures var b := w.workers[id].pc.binding;
            var entered := After(w, EnterGate(id));
            && entered.lock == Some(id)
            && (w.store == Store(b.generation, Some(b.account)) ==>
                  After(After(entered, CheckBinding(id)), Publish(id)) == w.(log := w.log + [Published(b)]))
            && (w.store != Store(b.generation, Some(b.account)) ==>
                  After(entered, CheckBinding(id)) == entered && After(entered, LeaveGate(id)) == w)
  {
    assert w.workers[id := w.workers[id]] == w.workers;
  }

  /** Both flags up, with the tracker found drained. */
  function DrainRun(w: World, s: SwitchId, excluding: Option<WorkId>): World {
    After(After(After(After(w, RaiseRegistry(s, excluding)), RaiseTracker(s)), MakeFuture(s)), LookDrained(s))
  }

  lemma Drains(w: World, s: SwitchId, excluding: Option<WorkId>)
    requires IsOpen(w) && PcOf(w, s) == Idle && forall id | id in w.tracker.active :: Some(id) == excluding
    ensures DrainRun(w, s, excluding)
            == w.(switches := w.switches[s := SwitchPc.Drained],
                  registry := w.registry.(switching := true),
                  tracker := TrackerState(true, excluding, w.tracker.active),
                  log := w.log + [SwitchStarted])
  {
    var raised := After(w, RaiseRegistry(s, excluding));
    var begun := After(raised, RaiseTracker(s));
    assert begun.tracker == TrackerState(true, excluding, w.tracker.active);
    var waiting := After(begun, MakeFuture(s));
    assert DrainedIn(waiting.tracker);
    assert DrainRun(w, s, excluding).switches == w.switches[s := SwitchPc.Drained];
  }

  function MoveRun(w: World, s: SwitchId, target: AccountId): World {
    After(After(After(w, EmptyRegistry(s)), CloseStore(s, Some(target))), OpenStore(s))
  }

  /** The store moves to another account, closed in between. */
  lemma Moves(w: World, s: SwitchId, target: AccountId)
    requires PcOf(w, s) == SwitchPc.Drained && w.store.account != Some(target)
    ensures var v := MoveRun(w, s, target);
            && v.registry == w.registry.(activeWork := map[], sessions := map[])
            && v.tracker == w.tracker && v.lock == w.lock && PcOf(v, s) == SwitchPc.Moved
            && v.store == Store(w.store.generation + 1, Some(target))
            && v.log == w.log + [StoreMoved(Store(w.store.generation + 1, None)), StoreMoved(v.store)]
  {
    var emptied := After(w, EmptyRegistry(s));
    var closed := After(emptied, CloseStore(s, Some(target)));
    assert PcOf(closed, s) == Opening(target);
    assert closed.store == Store(w.store.generation + 1, None);
  }

  lemma Lowers(w: World, s: SwitchId)
    requires PcOf(w, s) == SwitchPc.Moved && w.lock.None?
    ensures var v := After(After(w, LowerRegistry(s)), LowerTracker(s));
            && v.registry == w.registry.(switching := false)
            && v.tracker == TrackerState(false, None, w.tracker.active)
            && v.store == w.store && v.lock.None? && PcOf(v, s) == Idle && v.log == w.log + [SwitchFinished]
  {
    assert PcOf(After(w, LowerRegistry(s)), s) == RegistryLowered;
  }

  /** Worlds reached from one another by running a switch. */
  ghost predicate Leads(w: World, v: World) {
    exists run :: RunFrom(w, run) == v
  }

  lemma {:induction false} RunConcat(w: World, a: seq<Action>, b: seq<Action>)
    ensures RunFrom(w, a + b) == RunFrom(RunFrom(w, a), b)
  {
    if b == [] {
      assert a + b == a;
    } else {
      assert (a + b)[..|a + b| - 1] == a + b[..|b| - 1];
      RunConcat(w, a, b[..|b| - 1]);
    }
  }

  lemma OneLeads(w: World, a: Action)
    ensures Leads(w, After(w, a))
  {
    assert [a][..0] == [] && RunFrom(w, [a]) == After(w, a);
  }

  lemma LeadsOn(w: World, v: World, u: World)
    requires Leads(w, v) && Leads(v, u)
    ensures Leads(w, u)
  {
    var a :| RunFrom(w, a) == v;
    var b :| RunFrom(v, b) == u;
    RunConcat(w, a, b);
  }

  lemma ThreeLead(w: World, a: Action, b: Action, c: Action)
    ensures Leads(w, After(After(After(w, a), b), c))
  {
    OneLeads(w, a);
    OneLeads(After(w, a), b);
    OneLeads(After(After(w, a), b), c);
    LeadsOn(w, After(w, a), After(After(w, a), b));
    LeadsOn(w, After(After(w, a), b), After(After(After(w, a), b), c));
  }

  lemma DrainLeads(w: World, s: SwitchId, excluding: Option<WorkId>) returns (v: World)
    requires IsOpen(w) && PcOf(w, s) == Idle && forall id | id in w.tracker.active :: Some(id) == excluding
    ensures Leads(w, v)
    ensures v == w.(switches := w.switches[s := SwitchPc.Drained],
                    registry := w.registry.(switching := true),
                    tracker := TrackerState(true, excluding, w.tracker.active),
                    log := w.log + [SwitchStarted])
  {
    v := DrainRun(w, s, excluding);
    Drains(w, s, excluding);
    var u := After(After(After(w, RaiseRegistry(s, excluding)), RaiseTracker(s)), MakeFuture(s));
    ThreeLead(w, RaiseRegistry(s, excluding), RaiseTracker(s), MakeFuture(s));
    OneLeads(u, LookDrained(s));
    LeadsOn(w, u, v);
  }

  lemma MoveLeads(w: World, s: SwitchId, target: AccountId) returns (v: World)
    requires PcOf(w, s) == SwitchPc.Drained && w.store.account != Some(target)
    ensures Leads(w, v)
    ensures v.registry == w.registry.(activeWork := map[], sessions := map[]) && v.tracker == w.tracker
    ensures v.lock == w.lock && PcOf(v, s) == SwitchPc.Moved
    ensures v.store == Store(w.store.generation + 1, Some(target))
    ensures v.log == w.log + [StoreMoved(Store(w.store.generation + 1, None)), StoreMoved(v.store)]
  {
    v := MoveRun(w, s, target);
    Moves(w, s, target);
    ThreeLead(w, EmptyRegistry(s), CloseStore(s, Some(target)), OpenStore(s));
  }

  lemma LowerLeads(w: World, s: SwitchId) returns (v: World)
    requires PcOf(w, s) == SwitchPc.Moved && w.lock.None?
    ensures Leads(w, v)
    ensures v.registry == w.registry.(switching := false) && v.tracker == TrackerState(false, None, w.tracker.active)
    ensures v.store == w.store && v.lock.None? && v.log == w.log + [SwitchFinished]
  {
    v := After(After(w, LowerRegistry(s)), LowerTracker(s));
    Lowers(w, s);
    OneLeads(w, LowerRegistry(s));
    OneLeads(After(w, LowerRegistry(s)), LowerTracker(s));
    LeadsOn(w, After(w, LowerRegistry(s)), v);
  }

  /**
   A switch that finds nothing but the work it excludes runs to its end: the sessions are
   forgotten, the store names the new account under a new generation, and the barrier is open.
   */
  lemma SwitchCompletes(w: World, s: SwitchId, excluding: Option<WorkId>, target: AccountId) returns (v: World)
    requires IsOpen(w) && PcOf(w, s) == Idle && w.store.account != Some(target)
    requires forall id | id in w.tracker.active :: Some(id) == excluding
    ensures Leads(w, v) && IsOpen(v)
    ensures v.registry == RegistryState(false, map[], map[])
    ensures v.tracker == TrackerState(false, None, w.tracker.active)
    ensures v.store == Store(w.store.generation + 1, Some(target))
    ensures v.log == w.log + [SwitchStarted, StoreMoved(Store(w.store.generation + 1, None)), StoreMoved(v.store),
                              SwitchFinished]
  {
    var drained := DrainLeads(w, s, excluding);
    var moved := MoveLeads(drained, s, target);
    v := LowerLeads(moved, s);
    LeadsOn(w, drained, moved);
    LeadsOn(w, moved, v);
  }
}
