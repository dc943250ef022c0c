/**
 The account-switch barrier as an interleaved system: any number of workers register, bind the
 store, publish and drop their guards while any number of switches begin, drain, move the store
 and finish. A step is one critical section, or one action between two of them.
 */
module SwitchBarrier {
  import opened Prelude
  import opened AccountWork

  type SwitchId = nat

  datatype Binding = Binding(generation: nat, account: AccountId)

  predicate Current(b: Binding, store: Store) {
    store == Store(b.generation, Some(b.account))
  }

  /** Where a worker is. `Gate` and `Cleared` hold the tracker's lock across a publication. */
  datatype WorkPc =
    | Registered
    | Live(binding: Binding)
    | Gate(binding: Binding)
    | Cleared(binding: Binding)
    | Removed

  /** `spared`: a switch that excluded this work has moved the store since it was registered. */
  datatype Worker = Worker(pc: WorkPc, token: TokenId, spared: bool)

  /** Where a switch is. `Waiting` and `Parked` carry the notifications seen when their future was made. */
  datatype SwitchPc =
    | Idle
    | RegistryRaised(excluding: Option<WorkId>)
    | Undoing
    | Begun
    | Waiting(seen: nat)
    | Parked(seen: nat)
    | Drained
    | Emptied
    | Opening(target: AccountId)
    | Moved
    | RegistryLowered
    | Stuck

  datatype LogEntry = SwitchStarted | StoreMoved(store: Store) | SwitchFinished | Published(binding: Binding)

  datatype World = World(
    registry: RegistryState,
    tracker: TrackerState,
    lock: Option<WorkId>,
    notifications: nat,
    store: Store,
    cancelled: set<TokenId>,
    workers: map<WorkId, Worker>,
    switches: map<SwitchId, SwitchPc>,
    log: seq<LogEntry>)

  const START := World(RegistryState(false, map[], map[]), TrackerState(false, None, map[]), None, 0,
                       Store(0, None), {}, map[], map[], [])

  datatype Action =
    | Register(id: WorkId, token: TokenId)
    | Bind(id: WorkId)
    | EnterGate(id: WorkId)
    | CheckBinding(id: WorkId)
    | Publish(id: WorkId)
    | LeaveGate(id: WorkId)
    | Drop(id: WorkId)
    | Notify(id: WorkId)
    | CancelToken(token: TokenId)
    | Reserve(session: SessionKey, work: SessionWork)
    | Release(session: SessionKey, work: SessionWork)
    | RaiseRegistry(s: SwitchId, excluding: Option<WorkId>)
    | RaiseTracker(s: SwitchId)
    | Undo(s: SwitchId)
    | MakeFuture(s: SwitchId)
    | LookDrained(s: SwitchId)
    | Wake(s: SwitchId)
    | TimeOut(s: SwitchId)
    | EmptyRegistry(s: SwitchId)
    | CloseStore(s: SwitchId, target: Option<AccountId>)
    | OpenStore(s: SwitchId)
    | FailOpen(s: SwitchId)
    | SkipStore(s: SwitchId)
    | LowerRegistry(s: SwitchId)
    | LowerTracker(s: SwitchId)

  function PcOf(w: World, s: SwitchId): SwitchPc {
    if s in w.switches then w.switches[s] else Idle
  }

  function At(w: World, s: SwitchId, pc: SwitchPc): World {
    w.(switches := w.switches[s := pc])
  }

  function Work(w: World, id: WorkId, pc: WorkPc): World
    requires id in w.workers
  {
    w.(workers := w.workers[id := w.workers[id].(pc := pc)])
  }

  predicate IsAt(w: World, id: WorkId, pc: WorkPc) {
    id in w.workers && w.workers[id].pc == pc
  }

  /** The workers after a switch has moved the store: the one it excluded is spared. */
  function SparedWorkers(w: World): map<WorkId, Worker> {
    map id | id in w.workers :: if Some(id) == w.tracker.excluded then w.workers[id].(spared := true) else w.workers[id]
  }

  function MoveStore(w: World, store: Store): World {
    w.(store := store, workers := SparedWorkers(w), log := w.log + [StoreMoved(store)])
  }

  /** One step of a worker or of the session handlers, when it is enabled. */
  function WorkerStep(w: World, a: Action): Option<World> {
    match a
    case Register(id, token) =>
      if w.lock.Some? || id in w.workers then None
      else (match RegisterIn(w.tracker, id, token)
            case Err(_) => None
            case Ok(t) => Some(w.(tracker := t, workers := w.workers[id := Worker(Registered, token, false)])))
    case Bind(id) =>
      if !IsAt(w, id, Registered) || w.store.account.None? then None
      else Some(Work(w, id, Live(Binding(w.store.generation, w.store.account.value))))
    case EnterGate(id) =>
      if id !in w.workers || !w.workers[id].pc.Live? || w.lock.Some?
         || !GateOpen(w.tracker, id, w.workers[id].token in w.cancelled) then None
      else Some(Work(w, id, Gate(w.workers[id].pc.binding)).(lock := Some(id)))
    case CheckBinding(id) =>
      if id !in w.workers || !w.workers[id].pc.Gate? || !Current(w.workers[id].pc.binding, w.store) then None
      else Some(Work(w, id, Cleared(w.workers[id].pc.binding)))
    case Publish(id) =>
      if id !in w.workers || !w.workers[id].pc.Cleared? then None
      else
        var b := w.workers[id].pc.binding;
        Some(Work(w, id, Live(b)).(lock := None, log := w.log + [Published(b)]))
    case LeaveGate(id) =>
      if id !in w.workers || !w.workers[id].pc.Gate? || Current(w.workers[id].pc.binding, w.store) then None
      else Some(Work(w, id, Live(w.workers[id].pc.binding)).(lock := None))
    case Drop(id) =>
      if id !in w.workers || !(w.workers[id].pc.Registered? || w.workers[id].pc.Live?) || w.lock.Some? then None
      else Some(Work(w, id, Removed).(tracker := DropIn(w.tracker, id)))
    case Notify(id) =>
      if !IsAt(w, id, Removed) then None
      else Some(w.(workers := w.workers - {id}, notifications := w.notifications + 1))
    case CancelToken(token) => Some(w.(cancelled := w.cancelled + {token}))
    case Reserve(session, work) =>
      if w.registry.switching || session in w.registry.activeWork then None
      else Some(w.(registry := w.registry.(activeWork := w.registry.activeWork[session := work])))
    case Release(session, work) =>
      if !Holds(w.registry, session, work) then None
      else Some(w.(registry := w.registry.(activeWork := w.registry.activeWork - {session})))
    case _ => None
  }

  /** One step of a switch, when it is enabled. */
  function SwitchStep(w: World, a: Action): Option<World> {
    match a
    case RaiseRegistry(s, excluding) =>
      if !PcOf(w, s).Idle? || BeginIn(w.registry).Err? then None
      else Some(At(w, s, RegistryRaised(excluding)).(registry := BeginIn(w.registry).value))
    case RaiseTracker(s) =>
      if !PcOf(w, s).RegistryRaised? || w.lock.Some? then None
      else (match StartIn(w.tracker, PcOf(w, s).excluding)
            case Err(_) => Some(At(w, s, Undoing))
            case Ok(t) => Some(At(w, s, Begun).(tracker := t, log := w.log + [SwitchStarted])))
    case Undo(s) =>
      if !PcOf(w, s).Undoing? then None
      else Some(At(w, s, Idle).(registry := LowerIn(w.registry)))
    case MakeFuture(s) =>
      if !PcOf(w, s).Begun? then None else Some(At(w, s, Waiting(w.notifications)))
    case LookDrained(s) =>
      if !PcOf(w, s).Waiting? || w.lock.Some? then None
      else Some(At(w, s, if DrainedIn(w.tracker) then Drained else Parked(PcOf(w, s).seen)))
    case Wake(s) =>
      if !PcOf(w, s).Parked? || PcOf(w, s).seen == w.notifications then None else Some(At(w, s, Begun))
    case TimeOut(s) =>
      if !(PcOf(w, s).Begun? || PcOf(w, s).Waiting? || PcOf(w, s).Parked?) then None
      else Some(At(w, s, Stuck))
    case EmptyRegistry(s) =>
      if !PcOf(w, s).Drained? then None
      else Some(At(w, s, Emptied).(registry := EmptyIn(w.registry)))
    case CloseStore(s, target) =>
      if !PcOf(w, s).Emptied? then None
      else if target.Some? && w.store.account == target then Some(At(w, s, Moved))
      else Some(MoveStore(At(w, s, if target.Some? then Opening(target.value) else Moved),
                          DeactivateIn(w.store)))
    case OpenStore(s) =>
      if !PcOf(w, s).Opening? then None
      else Some(MoveStore(At(w, s, Moved), Store(w.store.generation, Some(PcOf(w, s).target))))
    case FailOpen(s) =>
      if !PcOf(w, s).Opening? then None else Some(At(w, s, Moved))
    case SkipStore(s) =>
      if !PcOf(w, s).Emptied? then None else Some(At(w, s, Moved))
    case LowerRegistry(s) =>
      if !PcOf(w, s).Moved? then None
      else Some(At(w, s, RegistryLowered).(registry := LowerIn(w.registry)))
    case LowerTracker(s) =>
      if !PcOf(w, s).RegistryLowered? || w.lock.Some? then None
      else Some(At(w, s, Idle).(tracker := FinishIn(w.tracker), log := w.log + [SwitchFinished]))
    case _ => None
  }

  function Step(w: World, a: Action): Option<World> {
    if WorkerStep(w, a).Some? then WorkerStep(w, a) else SwitchStep(w, a)
  }

  /** Steps that are not enabled do not happen. */
  function After(w: World, a: Action): World {
    if Step(w, a).Some? then Step(w, a).value else w
  }

  function RunFrom(w: World, run: seq<Action>): World {
    if run == [] then w else After(RunFrom(w, run[..|run| - 1]), run[|run| - 1])
  }

  // ---------- What a publication log may look like ----------

  /** A sequential reading of the log: whether a switch is open, and the store. */
  datatype Reading = Reading(open: bool, store: Store) | Broken

  function Observe(r: Reading, e: LogEntry): Reading {
    if r.Broken? then Broken
    else match e
      case SwitchStarted => if r.open then Broken else Reading(true, r.store)
      case StoreMoved(store) =>
        if !r.open || store.generation < r.store.generation then Broken else Reading(true, store)
      case SwitchFinished => if !r.open then Broken else Reading(false, r.store)
      case Published(b) => if r.open || !Current(b, r.store) then Broken else r
  }

  function Read(log: seq<LogEntry>): Reading {
    if log == [] then Reading(false, Store(0, None)) else Observe(Read(log[..|log| - 1]), log[|log| - 1])
  }

  // ---------- The invariant ----------

  predicate OwnsRegistry(pc: SwitchPc) {
    pc.RegistryRaised? || pc.Undoing? || pc.Begun? || pc.Waiting? || pc.Parked? || pc.Drained?
    || pc.Emptied? || pc.Opening? || pc.Moved? || pc.Stuck?
  }

  predicate OwnsTracker(pc: SwitchPc) {
    pc.Begun? || pc.Waiting? || pc.Parked? || pc.Drained? || pc.Emptied? || pc.Opening? || pc.Moved?
    || pc.RegistryLowered? || pc.Stuck?
  }

  predicate PastDrain(pc: SwitchPc) {
    pc.Drained? || pc.Emptied? || pc.Opening? || pc.Moved? || pc.RegistryLowered?
  }

  /** The flag is up exactly while a switch owns it, and one switch at most does. */
  ghost predicate OneOwner(up: bool, switches: map<SwitchId, SwitchPc>, owns: SwitchPc -> bool) {
    && (up <==> exists s :: s in switches && owns(switches[s]))
    && (forall s, t | s in switches && t in switches && owns(switches[s]) && owns(switches[t]) :: s == t)
  }

  ghost predicate FlagsOwned(w: World) {
    && OneOwner(w.registry.switching, w.switches, OwnsRegistry)
    && OneOwner(w.tracker.switching, w.switches, OwnsTracker)
  }

  /** A worker holds the tracker's lock exactly inside its publication, with no switch open. */
  ghost predicate GateHeld(w: World) {
    && (forall id | id in w.workers && (w.workers[id].pc.Gate? || w.workers[id].pc.Cleared?) :: w.lock == Some(id))
    && (w.lock.Some? ==> w.lock.value in w.workers
                         && (w.workers[w.lock.value].pc.Gate? || w.workers[w.lock.value].pc.Cleared?))
    && (w.lock.Some? ==> !w.tracker.switching)
    && (forall id | id in w.workers && w.workers[id].pc.Cleared? :: Current(w.workers[id].pc.binding, w.store))
  }

  ghost predicate ActiveWorkers(w: World) {
    forall id :: id in w.tracker.active <==> id in w.workers && !w.workers[id].pc.Removed?
  }

  ghost predicate DrainHolds(w: World) {
    (exists s :: s in w.switches && PastDrain(w.switches[s])) ==> DrainedIn(w.tracker)
  }

  predicate IsBound(pc: WorkPc) {
    pc.Live? || pc.Gate? || pc.Cleared?
  }

  /** Bound work is bound to the current account, unless a switch that excluded it moved the store. */
  ghost predicate BindingsCurrent(w: World) {
    forall id | id in w.workers && IsBound(w.workers[id].pc) && !w.workers[id].spared ::
      Current(w.workers[id].pc.binding, w.store)
  }

  /** Something will still notify the drain loop. */
  ghost predicate WakeupComing(w: World) {
    || (exists id :: id in w.tracker.active && Some(id) != w.tracker.excluded)
    || (exists id :: IsAt(w, id, Removed))
  }

  ghost predicate NoLostWakeup(w: World) {
    forall s | s in w.switches ::
      && (w.switches[s].Waiting? || w.switches[s].Parked? ==> w.switches[s].seen <= w.notifications)
      && (w.switches[s].Parked? && w.switches[s].seen == w.notifications ==> WakeupComing(w))
  }

  ghost predicate LogReads(w: World) {
    Read(w.log) == Reading(w.tracker.switching, w.store)
  }

  ghost predicate Inv(w: World) {
    && FlagsOwned(w)
    && GateHeld(w)
    && ActiveWorkers(w)
    && DrainHolds(w)
    && BindingsCurrent(w)
    && NoLostWakeup(w)
    && LogReads(w)
  }

  lemma LogExtends(log: seq<LogEntry>, e: LogEntry)
    ensures Read(log + [e]) == Observe(Read(log), e)
  {
    assert (log + [e])[..|log|] == log;
  }

  /** While the tracker's flag is up, some switch owns it. */
  lemma OwnerOf(w: World, s: SwitchId)
    requires FlagsOwned(w) && s in w.switches
    ensures OwnsRegistry(w.switches[s]) ==> w.registry.switching
    ensures OwnsTracker(w.switches[s]) ==> w.tracker.switching
  {
  }

  lemma WorkerKeepsGate(w: World, a: Action)
    requires GateHeld(w) && WorkerStep(w, a).Some?
    ensures GateHeld(WorkerStep(w, a).value)
  {
  }

  lemma WorkerKeepsActive(w: World, a: Action)
    requires ActiveWorkers(w) && WorkerStep(w, a).Some?
    ensures ActiveWorkers(WorkerStep(w, a).value)
  {
  }

  lemma WorkerKeepsDrain(w: World, a: Action)
    requires DrainHolds(w) && WorkerStep(w, a).Some? && OwnedWhilePastDrain(w)
    ensures DrainHolds(WorkerStep(w, a).value)
  {
  }

  lemma WorkerKeepsBindings(w: World, a: Action)
    requires BindingsCurrent(w) && WorkerStep(w, a).Some?
    ensures BindingsCurrent(WorkerStep(w, a).value)
  {
  }

  /** A switch past its drain holds the tracker's flag. */
  ghost predicate OwnedWhilePastDrain(w: World) {
    forall s | s in w.switches && PastDrain(w.switches[s]) :: w.tracker.switching
  }

  /** Workers leave the switches, the store and both flags alone. */
  lemma WorkerFrame(w: World, a: Action)
    requires WorkerStep(w, a).Some?
    ensures var v := WorkerStep(w, a).value;
            && v.switches == w.switches && v.store == w.store
            && v.registry.switching == w.registry.switching && v.tracker.switching == w.tracker.switching
            && v.tracker.excluded == w.tracker.excluded
            && w.notifications <= v.notifications
            && (w.tracker.switching ==> v.tracker.active.Keys <= w.tracker.active.Keys)
            && (v.log == w.log || (a.Publish? && exists b :: v.log == w.log + [Published(b)]))
  {
    if a.Publish? {
      assert WorkerStep(w, a).value.log == w.log + [Published(w.workers[a.id].pc.binding)];
    }
  }

  lemma PublishReads(w: World, id: WorkId)
    requires GateHeld(w) && LogReads(w) && WorkerStep(w, Publish(id)).Some?
    ensures LogReads(WorkerStep(w, Publish(id)).value)
  {
    LogExtends(w.log, Published(w.workers[id].pc.binding));
  }

  lemma WorkerKeepsLog(w: World, a: Action)
    requires GateHeld(w) && LogReads(w) && WorkerStep(w, a).Some?
    ensures LogReads(WorkerStep(w, a).value)
  {
    if a.Publish? {
      PublishReads(w, a.id);
    } else {
      WorkerFrame(w, a);
    }
  }

  lemma WorkerKeepsInv(w: World, a: Action)
    requires Inv(w) && WorkerStep(w, a).Some?
    ensures Inv(WorkerStep(w, a).value)
  {
    var v := WorkerStep(w, a).value;
    WorkerFrame(w, a);
    WorkerKeepsGate(w, a);
    WorkerKeepsActive(w, a);
    WorkerKeepsDrain(w, a);
    WorkerKeepsBindings(w, a);
    WorkerKeepsLog(w, a);
    forall s | s in v.switches
      ensures v.switches[s].Parked? && v.switches[s].seen == v.notifications ==> WakeupComing(v)
    {
      if v.switches[s].Parked? && v.switches[s].seen == v.notifications {
        WorkerKeepsWakeup(w, a);
      }
    }
  }

  lemma ActiveWorkStays(w: World, a: Action, id: WorkId)
    requires ActiveWorkers(w) && WorkerStep(w, a).Some? && id in w.tracker.active && a != Drop(id)
    ensures id in WorkerStep(w, a).value.tracker.active
  {
  }

  lemma RemovedWorkStays(w: World, a: Action, id: WorkId)
    requires WorkerStep(w, a).Some? && IsAt(w, id, Removed)
    ensures IsAt(WorkerStep(w, a).value, id, Removed) || w.notifications < WorkerStep(w, a).value.notifications
  {
  }

  /** Only a notification ends the promise of one: removed work still has its notify to do. */
  lemma WorkerKeepsWakeup(w: World, a: Action)
    requires ActiveWorkers(w) && WorkerStep(w, a).Some? && WakeupComing(w)
    ensures WorkerStep(w, a).value.notifications == w.notifications ==> WakeupComing(WorkerStep(w, a).value)
  {
    var v := WorkerStep(w, a).value;
    WorkerFrame(w, a);
    if id :| id in w.tracker.active && Some(id) != w.tracker.excluded {
      if a == Drop(id) {
        assert IsAt(v, id, Removed);
      } else {
        ActiveWorkStays(w, a, id);
      }
    } else {
      var id :| IsAt(w, id, Removed);
      RemovedWorkStays(w, a, id);
    }
  }

  /** What one switch step does to the flags, by who owned them. */
  lemma SwitchFlagMoves(w: World, a: Action)
    requires SwitchStep(w, a).Some?
    ensures var v := SwitchStep(w, a).value;
            && v.switches == w.switches[a.s := PcOf(v, a.s)]
            && v.registry.switching == (if OwnsRegistry(PcOf(v, a.s)) == OwnsRegistry(PcOf(w, a.s))
                                        then w.registry.switching else OwnsRegistry(PcOf(v, a.s)))
            && v.tracker.switching == (if OwnsTracker(PcOf(v, a.s)) == OwnsTracker(PcOf(w, a.s))
                                       then w.tracker.switching else OwnsTracker(PcOf(v, a.s)))
            && (OwnsRegistry(PcOf(v, a.s)) && !OwnsRegistry(PcOf(w, a.s)) ==> !w.registry.switching)
            && (OwnsTracker(PcOf(v, a.s)) && !OwnsTracker(PcOf(w, a.s)) ==> !w.tracker.switching)
  {
  }

  lemma OwnershipMoves(up: bool, switches: map<SwitchId, SwitchPc>, s: SwitchId, pc: SwitchPc,
                       next: map<SwitchId, SwitchPc>, owns: SwitchPc -> bool)
    requires OneOwner(up, switches, owns) && next == switches[s := pc]
    requires owns(pc) && !(s in switches && owns(switches[s])) ==> !up
    ensures OneOwner(if owns(pc) == (s in switches && owns(switches[s])) then up else owns(pc), next, owns)
  {
    assert owns(pc) ==> s in next && owns(next[s]);
    if up {
      var t :| t in switches && owns(switches[t]);
      assert t != s ==> t in next && owns(next[t]);
    }
  }

  lemma SwitchKeepsFlags(w: World, a: Action)
    requires FlagsOwned(w) && SwitchStep(w, a).Some?
    ensures FlagsOwned(SwitchStep(w, a).value)
  {
    SwitchFlagMoves(w, a);
    var pc := PcOf(SwitchStep(w, a).value, a.s);
    var next := w.switches[a.s := pc];
    OwnershipMoves(w.registry.switching, w.switches, a.s, pc, next, OwnsRegistry);
    OwnershipMoves(w.tracker.switching, w.switches, a.s, pc, next, OwnsTracker);
  }

  lemma SwitchKeepsGate(w: World, a: Action)
    requires FlagsOwned(w) && GateHeld(w) && SwitchStep(w, a).Some?
    ensures GateHeld(SwitchStep(w, a).value)
  {
    if a.s in w.switches {
      OwnerOf(w, a.s);
    }
  }

  lemma SwitchKeepsDrain(w: World, a: Action)
    requires FlagsOwned(w) && DrainHolds(w) && SwitchStep(w, a).Some?
    ensures DrainHolds(SwitchStep(w, a).value)
  {
    var v, s := SwitchStep(w, a).value, a.s;
    if t :| t in v.switches && PastDrain(v.switches[t]) {
      if t != s {
        assert t in w.switches && PastDrain(w.switches[t]);
        OwnerOf(w, t);
      }
      if s in w.switches {
        OwnerOf(w, s);
      }
    }
  }

  lemma StoreMovesOrStays(w: World, a: Action)
    requires SwitchStep(w, a).Some?
    ensures var v := SwitchStep(w, a).value;
            || (v.store == w.store && v.workers == w.workers)
            || (v.workers == SparedWorkers(w) && (PcOf(w, a.s).Emptied? || PcOf(w, a.s).Opening?))
  {
  }

  /** A switch that moves the store is past its drain. */
  lemma MoverIsPastDrain(w: World, a: Action)
    requires FlagsOwned(w) && GateHeld(w)
    requires SwitchStep(w, a).Some? && (PcOf(w, a.s).Emptied? || PcOf(w, a.s).Opening?)
    ensures w.tracker.switching && w.lock.None?
    ensures exists s :: s in w.switches && PastDrain(w.switches[s])
  {
    OwnerOf(w, a.s);
    assert PastDrain(w.switches[a.s]);
  }

  /** When the store moves, every worker still bound is the one excluded from the switch. */
  lemma SwitchKeepsBindings(w: World, a: Action)
    requires FlagsOwned(w) && GateHeld(w) && ActiveWorkers(w) && DrainHolds(w) && BindingsCurrent(w)
    requires SwitchStep(w, a).Some?
    ensures BindingsCurrent(SwitchStep(w, a).value)
  {
    var v := SwitchStep(w, a).value;
    StoreMovesOrStays(w, a);
    if v.workers == SparedWorkers(w) && (PcOf(w, a.s).Emptied? || PcOf(w, a.s).Opening?) {
      MoverIsPastDrain(w, a);
      forall id | id in v.workers && IsBound(v.workers[id].pc)
        ensures v.workers[id].spared
      {
        assert id in w.tracker.active;
      }
    }
  }

  lemma SwitchKeepsWakeup(w: World, a: Action)
    requires FlagsOwned(w) && NoLostWakeup(w) && SwitchStep(w, a).Some?
    ensures NoLostWakeup(SwitchStep(w, a).value)
  {
    var v, s := SwitchStep(w, a).value, a.s;
    forall t | t in v.switches && v.switches[t].Parked? && v.switches[t].seen == v.notifications
      ensures WakeupComing(v)
    {
      if t == s {
        assert a.LookDrained? && !DrainedIn(w.tracker);
      } else {
        assert WakeupComing(w);
        OwnerOf(w, t);
        assert v.tracker == w.tracker;
        KeepsRemoved(w, v);
      }
    }
  }

  lemma KeepsRemoved(w: World, v: World)
    requires WakeupComing(w) && v.tracker == w.tracker
    requires forall id | IsAt(w, id, Removed) :: IsAt(v, id, Removed)
    ensures WakeupComing(v)
  {
  }

  /** What one switch step adds to the log. */
  lemma SwitchLogs(w: World, a: Action)
    requires SwitchStep(w, a).Some?
    ensures var v := SwitchStep(w, a).value;
            || (v.log == w.log && v.store == w.store && v.tracker.switching == w.tracker.switching)
            || (v.log == w.log + [SwitchStarted] && v.store == w.store && !w.tracker.switching && v.tracker.switching)
            || (v.log == w.log + [SwitchFinished] && v.store == w.store && PcOf(w, a.s).RegistryLowered?
                && !v.tracker.switching)
            || (v.log == w.log + [StoreMoved(v.store)] && v.tracker == w.tracker
                && w.store.generation <= v.store.generation && (PcOf(w, a.s).Emptied? || PcOf(w, a.s).Opening?))
  {
  }

  lemma SwitchKeepsLog(w: World, a: Action)
    requires FlagsOwned(w) && LogReads(w) && SwitchStep(w, a).Some?
    ensures LogReads(SwitchStep(w, a).value)
  {
    var v := SwitchStep(w, a).value;
    SwitchLogs(w, a);
    if a.s in w.switches {
      OwnerOf(w, a.s);
    }
    LogExtends(w.log, SwitchStarted);
    LogExtends(w.log, SwitchFinished);
    LogExtends(w.log, StoreMoved(v.store));
  }

  lemma SwitchKeepsInv(w: World, a: Action)
    requires Inv(w) && SwitchStep(w, a).Some?
    ensures Inv(SwitchStep(w, a).value)
  {
    SwitchKeepsFlags(w, a);
    SwitchKeepsGate(w, a);
    SwitchKeepsDrain(w, a);
    SwitchKeepsBindings(w, a);
    SwitchKeepsWakeup(w, a);
    SwitchKeepsLog(w, a);
    SwitchKeepsWorkers(w, a);
  }

  lemma SwitchKeepsWorkers(w: World, a: Action)
    requires ActiveWorkers(w) && SwitchStep(w, a).Some?
    ensures ActiveWorkers(SwitchStep(w, a).value)
  {
  }

  lemma StepKeepsInv(w: World, a: Action)
    requires Inv(w)
    ensures Inv(After(w, a))
  {
    if WorkerStep(w, a).Some? {
      WorkerKeepsInv(w, a);
    } else if SwitchStep(w, a).Some? {
      SwitchKeepsInv(w, a);
    }
  }

  lemma {:induction false} InvHolds(run: seq<Action>)
    ensures Inv(RunFrom(START, run))
  {
    if run != [] {
      InvHolds(run[..|run| - 1]);
      StepKeepsInv(RunFrom(START, run[..|run| - 1]), run[|run| - 1]);
    }
  }

  // ---------- Main results ----------

  /** In every interleaving, bound work is on the store's current account, unless a switch that
      excluded it has moved the store. */
  lemma WorkStaysOnItsAccount(run: seq<Action>, id: WorkId)
    requires var w := RunFrom(START, run);
             id in w.workers && IsBound(w.workers[id].pc) && !w.workers[id].spared
    ensures var w := RunFrom(START, run);
            Current(w.workers[id].pc.binding, w.store)
  {
    InvHolds(run);
  }

  /** The store moves only under a switch, with no work registered but the one excluded from it. */
  lemma StoreMovesAlone(run: seq<Action>, a: Action)
    requires After(RunFrom(START, run), a).store != RunFrom(START, run).store
    ensures var w := RunFrom(START, run);
            && w.tracker.switching && w.lock.None?
            && (forall id | id in w.tracker.active :: Some(id) == w.tracker.excluded)
            && (forall id | id in w.workers && !w.workers[id].pc.Removed? :: Some(id) == w.tracker.excluded)
  {
    InvHolds(run);
    var w := RunFrom(START, run);
    if WorkerStep(w, a).Some? {
      WorkerFrame(w, a);
    } else {
      SwitchLogs(w, a);
      MoverIsPastDrain(w, a);
    }
  }

  /** Nothing registers or enters a publication while a switch is open. */
  lemma OpenSwitchAdmitsNothing(run: seq<Action>, a: Action)
    requires RunFrom(START, run).tracker.switching
    ensures var w, v := RunFrom(START, run), After(RunFrom(START, run), a);
            && v.tracker.active.Keys <= w.tracker.active.Keys
            && v.lock.None?
            && (v.log == w.log || v.log == w.log + [SwitchFinished] || v.log == w.log + [StoreMoved(v.store)])
  {
    InvHolds(run);
    var w := RunFrom(START, run);
    if WorkerStep(w, a).Some? {
      WorkerFrame(w, a);
      AdmitsNoGate(w, a);
    } else if SwitchStep(w, a).Some? {
      SwitchLogs(w, a);
      SwitchAdmitsNothing(w, a);
    }
  }

  lemma SwitchAdmitsNothing(w: World, a: Action)
    requires SwitchStep(w, a).Some? && w.lock.None?
    ensures SwitchStep(w, a).value.tracker.active == w.tracker.active && SwitchStep(w, a).value.lock.None?
  {
  }

  lemma AdmitsNoGate(w: World, a: Action)
    requires GateHeld(w) && w.tracker.switching && WorkerStep(w, a).Some?
    ensures WorkerStep(w, a).value.lock.None? && WorkerStep(w, a).value.log == w.log
  {
  }

  /**
   The publications, the switches and the moves of the store happen as if one after the other:
   each publication falls outside every switch and is bound to the store of that moment.
   */
  lemma PublicationsAreSerial(run: seq<Action>)
    ensures var w := RunFrom(START, run);
            Read(w.log) == Reading(w.tracker.switching, w.store)
  {
    InvHolds(run);
  }

  /** In a log that reads well, no publication follows a switch start before that switch finishes. */
  lemma {:induction false} NoPublicationDuringSwitch(log: seq<LogEntry>, i: nat, j: nat)
    requires !Read(log).Broken? && i < j < |log| && log[i].SwitchStarted? && log[j].Published?
    ensures exists k :: i < k < j && log[k].SwitchFinished?
  {
    ReadPrefix(log, j + 1);
    assert log[..j + 1][..j] == log[..j] && log[..j][i] == log[i];
    var k := LastFinish(log[..j], i);
    assert log[..j][k] == log[k];
  }

  /** After a switch start, a log that reads closed has seen a finish since. */
  lemma {:induction false} LastFinish(log: seq<LogEntry>, i: nat) returns (k: nat)
    requires i < |log| && log[i].SwitchStarted? && !Read(log).Broken? && !Read(log).open
    ensures i < k < |log| && log[k].SwitchFinished?
  {
    var n := |log| - 1;
    if log[n].SwitchFinished? {
      k := n;
    } else {
      assert log[..n][i] == log[i];
      k := LastFinish(log[..n], i);
    }
  }

  lemma {:induction false} ReadPrefix(log: seq<LogEntry>, n: nat)
    requires !Read(log).Broken? && n <= |log|
    ensures !Read(log[..n]).Broken?
    decreases |log|
  {
    if n == |log| {
      assert log[..n] == log;
    } else {
      ReadPrefix(log[..|log| - 1], n);
      assert log[..|log| - 1][..n] == log[..n];
    }
  }

  /** A publication after the store moved is bound to that store or a later one. */
  lemma {:induction false} NoStalePublication(log: seq<LogEntry>, i: nat, j: nat)
    requires !Read(log).Broken? && i < j < |log| && log[i].StoreMoved? && log[j].Published?
    ensures log[i].store.generation <= log[j].binding.generation
  {
    ReadPrefix(log, j + 1);
    assert log[..j + 1][..j] == log[..j];
    GenerationsGrow(log[..j], i);
  }

  lemma {:induction false} GenerationsGrow(log: seq<LogEntry>, i: nat)
    requires i < |log| && log[i].StoreMoved? && !Read(log).Broken?
    ensures log[i].store.generation <= Read(log).store.generation
  {
    if i < |log| - 1 {
      assert log[..|log| - 1][i] == log[i];
      GenerationsGrow(log[..|log| - 1], i);
    }
  }

  /** A failing begin lowers only the flag it raised: the other switch keeps both of its own. */
  lemma FailedBeginUndoesItsOwnFlag(run: seq<Action>, s: SwitchId)
    requires PcOf(RunFrom(START, run), s).Undoing?
    ensures var w, v := RunFrom(START, run), After(RunFrom(START, run), Undo(s));
            && w.registry.switching && !v.registry.switching
            && v.tracker == w.tracker
            && (forall t | t in w.switches && t != s :: v.switches[t] == w.switches[t] && !OwnsRegistry(w.switches[t]))
  {
    InvHolds(run);
    var w := RunFrom(START, run);
    OwnerOf(w, s);
  }

  /** Each flag is up exactly while one switch owns it, whoever begins, fails or finishes. */
  lemma EachFlagHasOneOwner(run: seq<Action>)
    ensures FlagsOwned(RunFrom(START, run))
  {
    InvHolds(run);
  }

  /** A parked drain loop that no one has signalled yet will be: no wakeup is lost. */
  lemma ParkedDrainIsWoken(run: seq<Action>, s: SwitchId)
    requires var w := RunFrom(START, run); PcOf(w, s).Parked? && PcOf(w, s).seen == w.notifications
    ensures WakeupComing(RunFrom(START, run))
  {
    InvHolds(run);
  }

  function Publications(log: seq<LogEntry>): nat {
    if log == [] then 0
    else Publications(log[..|log| - 1]) + (if log[|log| - 1].Published? then 1 else 0)
  }

  /** What a switch whose drain timed out leaves behind, in every world from then on. */
  ghost predicate StuckSince(w: World, v: World, s: SwitchId) {
    && PcOf(v, s).Stuck?
    && v.registry.switching && v.tracker.switching
    && v.tracker.active.Keys <= w.tracker.active.Keys
    && v.store == w.store
    && Publications(v.log) == Publications(w.log)
  }

  /** No switch takes a step once one is stuck. */
  lemma StuckStopsSwitches(v: World, s: SwitchId, a: Action)
    requires FlagsOwned(v) && PcOf(v, s).Stuck?
    ensures SwitchStep(v, a).None?
  {
    OwnerOf(v, s);
    assert s in v.switches && OwnsRegistry(v.switches[s]) && OwnsTracker(v.switches[s]);
  }

  lemma StuckStep(w: World, v: World, s: SwitchId, a: Action)
    requires Inv(v) && StuckSince(w, v, s)
    ensures StuckSince(w, After(v, a), s)
  {
    StuckStopsSwitches(v, s, a);
    WithoutSwitchStep(v, a);
    if WorkerStep(v, a).Some? {
      WorkerFrame(v, a);
      AdmitsNoGate(v, a);
    }
  }

  lemma WithoutSwitchStep(v: World, a: Action)
    requires SwitchStep(v, a).None?
    ensures After(v, a) == if WorkerStep(v, a).Some? then WorkerStep(v, a).value else v
  {
  }

  /** After a drain timed out both flags stay up for good: no later work registers, matches or
      publishes, and the store does not move. */
  lemma {:induction false} TimedOutDrainStaysLocked(run: seq<Action>, s: SwitchId, later: seq<Action>)
    requires PcOf(RunFrom(START, run), s).Stuck?
    ensures StuckSince(RunFrom(START, run), RunFrom(RunFrom(START, run), later), s)
    ensures Inv(RunFrom(RunFrom(START, run), later))
    ensures forall session, work ::
              !WorkMatches(RunFrom(RunFrom(START, run), later).registry, session, work)
  {
    var w := RunFrom(START, run);
    if later == [] {
      InvHolds(run);
      OwnerOf(w, s);
    } else {
      TimedOutDrainStaysLocked(run, s, later[..|later| - 1]);
      var v := RunFrom(w, later[..|later| - 1]);
      StuckStep(w, v, s, later[|later| - 1]);
      StepKeepsInv(v, later[|later| - 1]);
    }
  }
}
