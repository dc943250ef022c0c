/**
 The two guarded tables of the account switch: the tracker of running work and the registry of
 sessions. Each method says what it does to its table through a function that the interleaved
 model of `SwitchBarrier` steps with.
 */
module AccountWork {
  import opened Prelude

  type WorkId = nat
  type TokenId = nat
  type SessionKey = string
  type AccountId = string

  /** The account-routed store. It is open exactly while an account is active. */
  datatype Store = Store(generation: nat, account: Option<AccountId>)

  // ---------- The tracker ----------

  datatype TrackerState = TrackerState(switching: bool, excluded: Option<WorkId>, active: map<WorkId, TokenId>)

  function RegisterIn(t: TrackerState, id: WorkId, token: TokenId): Result<TrackerState> {
    if t.switching then Err(InvalidTransition) else Ok(t.(active := t.active[id := token]))
  }

  function StartIn(t: TrackerState, excluding: Option<WorkId>): Result<TrackerState> {
    if t.switching then Err(InvalidTransition) else Ok(t.(switching := true, excluded := excluding))
  }

  /** The cancellation tokens of all registered work but one. */
  function TokensBut(active: map<WorkId, TokenId>, excluding: Option<WorkId>): set<TokenId> {
    set id | id in active && Some(id) != excluding :: active[id]
  }

  predicate DrainedIn(t: TrackerState) {
    forall id | id in t.active :: Some(id) == t.excluded
  }

  function FinishIn(t: TrackerState): TrackerState {
    t.(switching := false, excluded := None)
  }

  function DropIn(t: TrackerState, id: WorkId): TrackerState {
    t.(active := t.active - {id})
  }

  function DropAllIn(t: TrackerState, ids: seq<WorkId>): TrackerState {
    t.(active := t.active - set id | id in ids)
  }

  /** The flags a publication checks under the tracker's lock. */
  predicate GateOpen(t: TrackerState, id: WorkId, cancelled: bool) {
    !t.switching && id in t.active && !cancelled
  }

  class AccountWorkTracker {
    var switching: bool
    var excluded: Option<WorkId>
    var active: map<WorkId, TokenId>
    var notifications: nat

    function View(): TrackerState
      reads this
    {
      TrackerState(switching, excluded, active)
    }

    constructor ()
      ensures View() == TrackerState(false, None, map[]) && notifications == 0
    {
      switching, excluded, active, notifications := false, None, map[], 0;
    }

    /** `id` is a fresh identifier. */
    method Register(id: WorkId, token: TokenId) returns (r: Result<WorkId>)
      requires id !in active
      modifies this`active
      ensures match RegisterIn(old(View()), id, token)
              case Ok(t) => r == Ok(id) && View() == t
              case Err(e) => r == Err(e) && View() == old(View())
    {
      if switching {
        return Err(InvalidTransition);
      }
      active := active[id := token];
      r := Ok(id);
    }

    /** Raise the flag, then collect the tokens of the work that must stop. */
    method StartSwitch(excluding: Option<WorkId>) returns (r: Result<set<TokenId>>)
      modifies this`switching, this`excluded
      ensures match StartIn(old(View()), excluding)
              case Ok(t) => r == Ok(TokensBut(old(active), excluding)) && View() == t
              case Err(e) => r == Err(e) && View() == old(View())
    {
      if switching {
        return Err(InvalidTransition);
      }
      switching := true;
      excluded := excluding;
      var tokens: set<TokenId> := {};
      var remaining := active.Keys;
      while remaining != {}
        invariant remaining <= active.Keys
        invariant tokens == set id | id in active.Keys - remaining && Some(id) != excluding :: active[id]
        decreases |remaining|
      {
        var id :| id in remaining;
        if Some(id) != excluding {
          tokens := tokens + {active[id]};
        }
        remaining := remaining - {id};
      }
      assert tokens == TokensBut(active, excluding);
      r := Ok(tokens);
    }

    /** One look of the drain loop under the lock. */
    method IsDrained() returns (drained: bool)
      ensures drained <==> DrainedIn(View())
    {
      var remaining := active.Keys;
      while remaining != {}
        invariant remaining <= active.Keys
        invariant forall id | id in active.Keys - remaining :: Some(id) == excluded
        decreases |remaining|
      {
        var id :| id in remaining;
        if Some(id) != excluded {
          return false;
        }
        remaining := remaining - {id};
      }
      drained := true;
    }

    method FinishSwitch()
      modifies this`switching, this`excluded
      ensures View() == FinishIn(old(View()))
    {
      switching, excluded := false, None;
    }

    /** Dropping a guard removes its work and wakes the drain loop if it was still there. */
    method DropGuard(id: WorkId)
      modifies this`active, this`notifications
      ensures View() == DropIn(old(View()), id)
      ensures notifications == old(notifications) + (if id in old(active) then 1 else 0)
    {
      var removed := id in active;
      active := active - {id};
      if removed {
        notifications := notifications + 1;
      }
    }

    /** Wait until only excluded work is left. Guards are dropped in the order of `departures`,
        each drop waking the loop to look again; a timeout ends the wait with the flags as they
        were. The wait succeeds exactly when the departures drain the tracker. */
    method DrainSwitch(departures: seq<WorkId>) returns (r: Result<()>, dropped: nat)
      modifies this`active, this`notifications
      ensures dropped <= |departures| && View() == DropAllIn(old(View()), departures[..dropped])
      ensures r == if DrainedIn(View()) then Ok(()) else Err(InvalidTransition)
      ensures r.Ok? <==> DrainedIn(DropAllIn(old(View()), departures))
      ensures forall k | 0 <= k < dropped :: !DrainedIn(DropAllIn(old(View()), departures[..k]))
    {
      dropped := 0;
      var drained := IsDrained();
      while !drained && dropped < |departures|
        invariant dropped <= |departures| && View() == DropAllIn(old(View()), departures[..dropped])
        invariant drained <==> DrainedIn(View())
        invariant forall k | 0 <= k < dropped :: !DrainedIn(DropAllIn(old(View()), departures[..k]))
        decreases |departures| - dropped
      {
        assert departures[..dropped + 1] == departures[..dropped] + [departures[dropped]];
        DropGuard(departures[dropped]);
        dropped := dropped + 1;
        drained := IsDrained();
      }
      assert departures[..|departures|] == departures;
      if drained {
        DrainingIsLasting(old(View()), departures, dropped);
      }
      r := if drained then Ok(()) else Err(InvalidTransition);
    }
  }

  /** Once the tracker is drained, later drops keep it so. */
  lemma DrainingIsLasting(t: TrackerState, departures: seq<WorkId>, k: nat)
    requires k <= |departures| && DrainedIn(DropAllIn(t, departures[..k]))
    ensures DrainedIn(DropAllIn(t, departures))
  {
    var few, all := DropAllIn(t, departures[..k]), DropAllIn(t, departures);
    forall id | id in all.active
      ensures id in few.active
    {
      assert id !in departures[..k];
    }
  }

  // ---------- The session registry ----------

  datatype SessionWork = SessionWork(id: nat, token: TokenId)

  datatype AcpSession = AcpSession(internalId: SessionKey, model: string, security: string)

  datatype RegistryState =
    RegistryState(switching: bool, activeWork: map<SessionKey, SessionWork>, sessions: map<string, AcpSession>)

  function BeginIn(g: RegistryState): Result<RegistryState> {
    if g.switching then Err(InvalidTransition) else Ok(g.(switching := true))
  }

  function LowerIn(g: RegistryState): RegistryState {
    g.(switching := false)
  }

  function EmptyIn(g: RegistryState): RegistryState {
    g.(activeWork := map[], sessions := map[])
  }

  predicate Holds(g: RegistryState, session: SessionKey, work: SessionWork) {
    session in g.activeWork && g.activeWork[session].id == work.id
  }

  predicate WorkMatches(g: RegistryState, session: SessionKey, work: SessionWork) {
    !g.switching && Holds(g, session, work)
  }

  class SessionRegistry {
    var sessions: map<string, AcpSession>
    var activeWork: map<SessionKey, SessionWork>
    var accountSwitching: bool

    function View(): RegistryState
      reads this
    {
      RegistryState(accountSwitching, activeWork, sessions)
    }

    constructor ()
      ensures View() == RegistryState(false, map[], map[])
    {
      sessions, activeWork, accountSwitching := map[], map[], false;
    }

    /** The first half of beginning a switch: raise the flag and cancel every other work, each
        once however many sessions it holds. */
    method BeginSwitch(excluding: Option<nat>) returns (r: Result<map<nat, TokenId>>)
      modifies this`accountSwitching
      ensures match BeginIn(old(View()))
              case Ok(g) =>
                && View() == g && r.Ok?
                && r.value.Keys == OtherWork(activeWork, excluding)
                && (forall id | id in r.value ::
                      exists session :: session in activeWork && activeWork[session] == SessionWork(id, r.value[id]))
              case Err(e) => r == Err(e) && View() == old(View())
    {
      if accountSwitching {
        return Err(InvalidTransition);
      }
      accountSwitching := true;
      var seen: map<nat, TokenId> := map[];
      var remaining := activeWork.Keys;
      while remaining != {}
        invariant remaining <= activeWork.Keys
        invariant forall id :: id in seen <==>
                    exists k :: k in activeWork.Keys - remaining && activeWork[k].id == id && Some(id) != excluding
        invariant forall id | id in seen ::
                    exists k :: k in activeWork && activeWork[k] == SessionWork(id, seen[id])
        decreases |remaining|
      {
        var session :| session in remaining;
        var work := activeWork[session];
        if Some(work.id) != excluding && work.id !in seen {
          seen := seen[work.id := work.token];
        }
        remaining := remaining - {session};
      }
      r := Ok(seen);
    }

    /** Undo a begin whose second half failed. */
    method UndoBegin()
      modifies this`accountSwitching
      ensures View() == LowerIn(old(View()))
    {
      accountSwitching := false;
    }

    /** Once the old work has drained, forget every session and reservation. */
    method Empty()
      modifies this`activeWork, this`sessions
      ensures View() == EmptyIn(old(View()))
    {
      activeWork := map[];
      sessions := map[];
    }

    method FinishSwitch()
      modifies this`accountSwitching
      ensures View() == LowerIn(old(View()))
    {
      accountSwitching := false;
    }

    /** Cancel the work and release one reservation, switch or no switch. Another work's
        reservation stays. */
    method ReleaseWork(session: SessionKey, work: SessionWork) returns (cancelled: TokenId)
      modifies this`activeWork
      ensures cancelled == work.token
      ensures activeWork == if Holds(old(View()), session, work) then old(activeWork) - {session} else old(activeWork)
      ensures session in old(activeWork) ==>
                (session !in activeWork <==> old(activeWork)[session].id == work.id)
      ensures forall other | other in old(activeWork) && old(activeWork)[other].id != work.id ::
                other in activeWork && activeWork[other] == old(activeWork)[other]
    {
      cancelled := work.token;
      if session in activeWork && activeWork[session].id == work.id {
        activeWork := activeWork - {session};
      }
    }

    /** Cancel the work and release several reservations. During a switch the drain owns them and
        none is touched. */
    method ReleaseWorks(internalIds: seq<SessionKey>, work: SessionWork) returns (cancelled: TokenId)
      modifies this`activeWork
      ensures cancelled == work.token
      ensures activeWork == old(activeWork) - Released(old(View()), internalIds, work)
      ensures forall session | session in old(activeWork) ::
                (session !in activeWork
                 <==> !accountSwitching && session in internalIds && old(activeWork)[session].id == work.id)
      ensures forall session | session in activeWork ::
                session in old(activeWork) && activeWork[session] == old(activeWork)[session]
    {
      cancelled := work.token;
      for i := 0 to |internalIds|
        invariant activeWork == old(activeWork) - Released(old(View()), internalIds[..i], work)
      {
        var session := internalIds[i];
        if !accountSwitching && session in activeWork && activeWork[session].id == work.id {
          activeWork := activeWork - {session};
        }
        assert internalIds[..i + 1] == internalIds[..i] + [session];
      }
      assert internalIds[..|internalIds|] == internalIds;
    }

    /** Publish a security status only for work that still owns its session on this account. */
    method SetSecurityIfWork(externalId: string, internalId: SessionKey, work: SessionWork,
                             expectedModel: string, status: string)
      returns (done: bool)
      modifies this`sessions
      ensures done <==> && WorkMatches(old(View()), internalId, work)
                        && externalId in old(sessions)
                        && old(sessions)[externalId].internalId == internalId
                        && old(sessions)[externalId].model == expectedModel
      ensures done ==> !accountSwitching && internalId in activeWork && activeWork[internalId].id == work.id
      ensures internalId in activeWork && activeWork[internalId].id != work.id ==> !done && sessions == old(sessions)
      ensures sessions == if done
                          then old(sessions)[externalId := old(sessions)[externalId].(security := status)]
                          else old(sessions)
    {
      if accountSwitching || internalId !in activeWork || activeWork[internalId].id != work.id {
        return false;
      }
      if externalId !in sessions {
        return false;
      }
      var session := sessions[externalId];
      if session.internalId != internalId || session.model != expectedModel {
        return false;
      }
      sessions := sessions[externalId := session.(security := status)];
      done := true;
    }
  }

  function OtherWork(work: map<SessionKey, SessionWork>, excluding: Option<nat>): set<nat> {
    set session | session in work && Some(work[session].id) != excluding :: work[session].id
  }

  function Released(g: RegistryState, internalIds: seq<SessionKey>, work: SessionWork): set<SessionKey> {
    set session | session in internalIds && WorkMatches(g, session, work)
  }

  /** Some session is reserved by work other than the excluded one, and this is its token. */
  predicate IsOtherToken(work: map<SessionKey, SessionWork>, excluding: Option<nat>, token: TokenId) {
    exists session :: session in work && Some(work[session].id) != excluding && work[session].token == token
  }

  /** One token of every work other than the excluded one is among the cancelled. */
  predicate CancelsOthers(work: map<SessionKey, SessionWork>, excluding: Option<nat>, cancelled: set<TokenId>) {
    forall id | id in OtherWork(work, excluding) ::
      exists session :: session in work && work[session].id == id && work[session].token in cancelled
  }

  function TokensOf(work: map<nat, TokenId>): set<TokenId> {
    set id | id in work :: work[id]
  }

  lemma BegunCancels(work: map<SessionKey, SessionWork>, excluding: Option<nat>, begun: map<nat, TokenId>)
    requires begun.Keys == OtherWork(work, excluding)
    requires forall id | id in begun :: exists session :: session in work && work[session] == SessionWork(id, begun[id])
    ensures CancelsOthers(work, excluding, TokensOf(begun))
    ensures forall token | token in TokensOf(begun) :: IsOtherToken(work, excluding, token)
  {
    forall id | id in begun
      ensures exists session :: session in work && work[session].id == id && work[session].token in TokensOf(begun)
      ensures IsOtherToken(work, excluding, begun[id])
    {
      var session :| session in work && work[session] == SessionWork(id, begun[id]);
      var other :| other in work && Some(work[other].id) != excluding && work[other].id == id;
    }
  }

  lemma MoreCancels(work: map<SessionKey, SessionWork>, excluding: Option<nat>, some: set<TokenId>, more: set<TokenId>)
    requires CancelsOthers(work, excluding, some) && some <= more
    ensures CancelsOthers(work, excluding, more)
  {
  }

  // ---------- The store ----------

  /** Move to an account: the store closes under a new generation, and then opens, unless the
      database of the account does not. The active account needs no move. */
  function ActivateIn(s: Store, account: AccountId, opens: bool): Store {
    if s.account == Some(account) then s
    else Store(s.generation + 1, if opens then Some(account) else None)
  }

  function DeactivateIn(s: Store): Store {
    Store(s.generation + 1, None)
  }

  class AccountStore {
    var generation: nat
    var account: Option<AccountId>

    function View(): Store
      reads this
    {
      Store(generation, account)
    }

    constructor ()
      ensures View() == Store(0, None)
    {
      generation, account := 0, None;
    }

    method ActivateAccount(id: AccountId, opens: bool) returns (r: Result<()>)
      modifies this
      ensures View() == ActivateIn(old(View()), id, opens)
      ensures r.Ok? <==> account == Some(id)
      ensures generation == old(generation) <==> old(account) == Some(id)
    {
      if account == Some(id) {
        return Ok(());
      }
      generation := generation + 1;
      account := None;
      if !opens {
        return Err(Storage);
      }
      account := Some(id);
      r := Ok(());
    }

    method DeactivateAccount()
      modifies this
      ensures View() == DeactivateIn(old(View()))
    {
      generation := generation + 1;
      account := None;
    }
  }

  // ---------- A whole switch ----------

  /**
   Begin a switch on both tables. A begin that fails on either leaves both as they were, but one
   that fails on the tracker has already cancelled the work of the sessions.
   */
  method BeginAccountSwitch(registry: SessionRegistry, tracker: AccountWorkTracker,
                            excludedWork: Option<nat>, excludedTask: Option<WorkId>)
    returns (r: Result<()>, cancelled: set<TokenId>)
    modifies registry, tracker
    ensures r.Ok? <==> !old(registry.accountSwitching) && !old(tracker.switching)
    ensures r.Ok? ==> registry.View() == BeginIn(old(registry.View())).value
    ensures r.Ok? ==> tracker.View() == StartIn(old(tracker.View()), excludedTask).value
    ensures r.Err? ==> registry.View() == old(registry.View()) && tracker.View() == old(tracker.View())
    ensures old(registry.accountSwitching) ==> cancelled == {}
    ensures !old(registry.accountSwitching) ==> CancelsOthers(old(registry.activeWork), excludedWork, cancelled)
    ensures r.Ok? ==> TokensBut(old(tracker.active), excludedTask) <= cancelled
    ensures forall token | token in cancelled ::
              || IsOtherToken(old(registry.activeWork), excludedWork, token)
              || (r.Ok? && token in TokensBut(old(tracker.active), excludedTask))
  {
    var begun := registry.BeginSwitch(excludedWork);
    if begun.Err? {
      return Err(begun.error), {};
    }
    cancelled := TokensOf(begun.value);
    BegunCancels(registry.activeWork, excludedWork, begun.value);
    var started := tracker.StartSwitch(excludedTask);
    if started.Err? {
      registry.UndoBegin();
      return Err(started.error), cancelled;
    }
    MoreCancels(registry.activeWork, excludedWork, cancelled, cancelled + started.value);
    cancelled := cancelled + started.value;
    r := Ok(());
  }

  /** Drain both tables: the sessions go when the work has gone, and only then. */
  method DrainAccountSwitch(registry: SessionRegistry, tracker: AccountWorkTracker, departures: seq<WorkId>)
    returns (r: Result<()>)
    modifies registry, tracker
    ensures r.Ok? <==> DrainedIn(DropAllIn(old(tracker.View()), departures))
    ensures registry.View() == if r.Ok? then EmptyIn(old(registry.View())) else old(registry.View())
    ensures r.Ok? ==> DrainedIn(tracker.View())
    ensures tracker.switching == old(tracker.switching) && tracker.excluded == old(tracker.excluded)
  {
    var dropped;
    r, dropped := tracker.DrainSwitch(departures);
    if r.Ok? {
      registry.Empty();
    }
  }

  /** Commit a begun switch: the store moves only on drained tables, and then both flags fall, also
      when the account's database does not open; a switch that does not drain keeps both flags and
      the store. */
  method CommitAccountStoreSwitch(registry: SessionRegistry, tracker: AccountWorkTracker, store: AccountStore?,
                                  target: Option<AccountId>, departures: seq<WorkId>, opens: bool)
    returns (r: Result<()>)
    modifies registry, tracker, store
    ensures var drained := DrainedIn(DropAllIn(old(tracker.View()), departures));
            && (drained ==>
                  && registry.View() == RegistryState(false, map[], map[])
                  && !tracker.switching && tracker.excluded == None
                  && (store != null ==>
                        store.View() == if target.None? then DeactivateIn(old(store.View()))
                                        else ActivateIn(old(store.View()), target.value, opens)))
            && (!drained ==>
                  && registry.View() == old(registry.View())
                  && (store != null ==> store.View() == old(store.View()))
                  && tracker.switching == old(tracker.switching) && tracker.excluded == old(tracker.excluded))
            && (r.Ok? <==> drained && (store != null ==> store.account == target))
  {
    r := DrainAccountSwitch(registry, tracker, departures);
    if r.Err? {
      return;
    }
    if store != null {
      match target {
        case Some(account) => r := store.ActivateAccount(account, opens);
        case None => store.DeactivateAccount();
      }
    }
    registry.FinishSwitch();
    tracker.FinishSwitch();
  }
}
