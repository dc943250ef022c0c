/**
 The authorization state of one process and the writes the manager makes to it, and a whole
 token refresh under the audience lock against the shared credential cell.
 */
module Credentials {
  import opened Prelude

  type Token = nat
  type AccountId = string

  /** A session bundle the server issued; `valid` is the verdict of the bundle validator. */
  datatype Bundle = Bundle(refresh: Token, access: string, account: AccountId, valid: bool)

  datatype AuthState = AuthState(
    refresh: Option<Token>,
    access: Option<string>,
    account: Option<AccountId>,
    generation: nat,
    revision: nat,
    externalPending: bool,
    unavailable: bool)

  function AdoptIn(s: AuthState, credential: Option<Token>): AuthState {
    AuthState(credential, None, None, s.generation + 1, s.revision + 1, credential.Some?, false)
  }

  function ClearIn(s: AuthState, unavailable: bool): AuthState {
    AuthState(None, None, None, s.generation + 1, s.revision + 1, false, unavailable)
  }

  /** The write that ends a commit; `previous` is the account read when the commit began. */
  function CommitIn(s: AuthState, b: Bundle, force: bool, previous: Option<AccountId>): AuthState {
    AuthState(Some(b.refresh), Some(b.access), Some(b.account),
              if force || previous != Some(b.account) then s.generation + 1 else s.generation,
              s.revision + 1,
              if force then false else s.externalPending,
              false)
  }

  datatype Validation = Superseded | WrongAccount | Validated(state: AuthState)

  /** The write that ends a validation begun at generation `captured`. */
  function ValidateIn(s: AuthState, captured: nat, account: AccountId): Validation {
    if s.generation != captured then Superseded
    else if s.account.Some? && s.account != Some(account) then WrongAccount
    else Validated(s.(account := Some(account), externalPending := false))
  }

  /** Two states of one process agree: a generation names one account at most. */
  predicate Agrees(s: AuthState, t: AuthState) {
    && s.generation <= t.generation
    && (s.generation == t.generation && s.account.Some? ==> t.account == s.account)
  }

  lemma AgreesTransitive(s: AuthState, t: AuthState, u: AuthState)
    requires Agrees(s, t) && Agrees(t, u)
    ensures Agrees(s, u)
  {
  }

  // ---------- One refresh ----------

  datatype Response = Failed | Rotated(bundle: Bundle)

  /** How one store call ends. A call that times out is still running. */
  datatype CallOutcome = Done | Errored | TimedOut

  /** What the environment does during one refresh: whether the loads succeed, what the server
      answers, and how the save and the delete end. */
  datatype Io = Io(loads: bool, reloads: bool, response: Response, save: CallOutcome, delete: CallOutcome)

  /** What a delete leaves of the process and of the cell. */
  function DeletedIn(s: AuthState, cell: Option<Token>, expected: Option<Token>, reloads: bool, delete: CallOutcome)
    : (AuthState, Option<Token>)
  {
    var fits := reloads && expected.Some? && cell == expected;
    (ClearIn(s, !reloads || (fits && delete != Done)), if fits && delete == Done then None else cell)
  }

  /** What a commit leaves of them. */
  function CommittedIn(s: AuthState, cell: Option<Token>, b: Bundle, force: bool, expected: Option<Token>, io: Io)
    : (AuthState, Option<Token>)
  {
    if !b.valid || (!force && s.account.Some? && s.account.value != b.account)
    then DeletedIn(s, cell, expected, io.reloads, io.delete)
    else if !io.reloads then (ClearIn(s, true), cell)
    else if cell != expected then (AdoptIn(s, cell), cell)
    else match io.save
      case Done => (CommitIn(s, b, force, s.account), Some(b.refresh))
      case TimedOut => (ClearIn(s, true), cell)
      case Errored => DeletedIn(s, cell, expected, io.reloads, io.delete)
  }

  /** What a refresh leaves of them, and the token it sends. */
  function RefreshedIn(s: AuthState, cell: Option<Token>, allow: bool, io: Io)
    : (AuthState, Option<Token>, Option<Token>)
  {
    var changed := cell != s.refresh;
    var adopts := changed && (s.account.None? || cell.None?);
    var begun := if adopts then AdoptIn(s, cell) else s;
    if !io.loads then (ClearIn(s, true), cell, None)
    else if cell.None? || (adopts && !allow) then (begun, cell, None)
    else match io.response
      case Failed =>
        var (after, left) := DeletedIn(begun, cell, cell, io.reloads, io.delete);
        (after, left, cell)
      case Rotated(b) =>
        var switched := changed && s.account.Some? && s.account.value != b.account;
        var (after, left) := CommittedIn(if switched then AdoptIn(begun, cell) else begun, cell, b, false, cell, io);
        (after, left, cell)
  }

  class CredentialCell {
    var value: Option<Token>

    constructor (value: Option<Token>)
      ensures this.value == value
    {
      this.value := value;
    }
  }

  class AuthManager {
    var refresh: Option<Token>
    var access: Option<string>
    var account: Option<AccountId>
    var generation: nat
    var revision: nat
    var externalPending: bool
    var unavailable: bool

    function View(): AuthState
      reads this
    {
      AuthState(refresh, access, account, generation, revision, externalPending, unavailable)
    }

    constructor (stored: Option<Token>)
      ensures View() == AuthState(stored, None, None, 0, 0, false, false)
    {
      refresh, access, account := stored, None, None;
      generation, revision := 0, 0;
      externalPending, unavailable := false, false;
    }

    method AdoptExternalCredential(credential: Option<Token>)
      modifies this
      ensures View() == AdoptIn(old(View()), credential)
      ensures refresh == credential && access == None && account == None && generation == old(generation) + 1
      ensures externalPending == credential.Some? && !unavailable && revision == old(revision) + 1
    {
      refresh := credential;
      access, account := None, None;
      unavailable := false;
      externalPending := refresh.Some?;
      generation := generation + 1;
      revision := revision + 1;
    }

    method ClearLocalAuthorization(detail: bool) returns (r: nat)
      modifies this
      ensures View() == ClearIn(old(View()), detail) && r == revision
      ensures refresh == None && access == None && account == None && generation == old(generation) + 1
      ensures !externalPending && unavailable == detail && revision == old(revision) + 1
    {
      refresh, access, account := None, None, None;
      unavailable := detail;
      externalPending := false;
      generation := generation + 1;
      revision := revision + 1;
      r := revision;
    }

    method CommitState(b: Bundle, force: bool, previous: Option<AccountId>)
      modifies this
      ensures View() == CommitIn(old(View()), b, force, previous)
      ensures refresh == Some(b.refresh) && access == Some(b.access) && account == Some(b.account) && !unavailable
      ensures generation == old(generation) + if force || previous != Some(b.account) then 1 else 0
      ensures externalPending == (old(externalPending) && !force) && revision == old(revision) + 1
    {
      refresh := Some(b.refresh);
      access := Some(b.access);
      account := Some(b.account);
      unavailable := false;
      if force {
        externalPending := false;
      }
      if force || previous != Some(b.account) {
        generation := generation + 1;
      }
      revision := revision + 1;
    }

    method FinishValidation(captured: nat, validated: AccountId) returns (v: Validation)
      modifies this
      ensures v == ValidateIn(old(View()), captured, validated)
      ensures View() == if v.Validated? then v.state else old(View())
    {
      if generation != captured {
        return Superseded;
      }
      if account.Some? && account.value != validated {
        return WrongAccount;
      }
      account := Some(validated);
      externalPending := false;
      v := Validated(View());
    }

    /** Delete the stored credential if it is the expected one, and clear this process. */
    method DeleteIfMatchesAndClear(cell: CredentialCell, expected: Option<Token>, reloads: bool, delete: CallOutcome)
      returns (r: Result<nat>)
      modifies this, cell
      ensures (View(), cell.value) == DeletedIn(old(View()), old(cell.value), expected, reloads, delete)
      ensures View() == ClearIn(old(View()), r.Err?)
      ensures cell.value == if reloads && expected.Some? && old(cell.value) == expected && delete == Done
                            then None else old(cell.value)
      ensures r.Ok? <==> reloads && (expected.Some? && old(cell.value) == expected ==> delete == Done)
    {
      var failed := !reloads;
      if reloads && expected.Some? && cell.value == expected {
        if delete == Done {
          cell.value := None;
        } else {
          failed := true;
        }
      }
      var at := ClearLocalAuthorization(failed);
      r := if failed then Err(Storage) else Ok(at);
    }

    /** Delete the stored credential and forget the session, if the generation is still `captured`.
        A key from the environment is left to the environment. */
    method ClearIfGeneration(cell: CredentialCell, captured: nat, fromEnvironment: bool, locks: bool, reloads: bool,
                             delete: CallOutcome)
      modifies this, cell
      ensures generation == if old(generation) == captured && !fromEnvironment then captured + 1 else old(generation)
      ensures old(generation) == captured && !fromEnvironment ==> account == None && refresh == None
      ensures old(generation) != captured || fromEnvironment ==> View() == old(View())
      ensures cell.value == if old(generation) == captured && !fromEnvironment && locks && reloads
                               && old(refresh).Some? && old(cell.value) == old(refresh) && delete == Done
                            then None else old(cell.value)
    {
      if generation != captured || fromEnvironment {
        return;
      }
      var expected := refresh;
      if !locks {
        var _ := ClearLocalAuthorization(true);
        return;
      }
      var _ := DeleteIfMatchesAndClear(cell, expected, reloads, delete);
    }

    /** End a validation begun at generation `captured`: the session endpoint's account is written,
        or, when it is another one than this process holds, the session is given up. */
    method CompleteValidation(cell: CredentialCell, captured: nat, validated: AccountId, fromEnvironment: bool,
                              locks: bool, reloads: bool, delete: CallOutcome)
      returns (v: Validation)
      modifies this, cell
      ensures v == ValidateIn(old(View()), captured, validated)
      ensures v.Validated? ==> View() == v.state && account == Some(validated)
      ensures v.Superseded? || (v.WrongAccount? && fromEnvironment) ==> View() == old(View())
      ensures v.WrongAccount? && !fromEnvironment ==> account == None && refresh == None && generation == captured + 1
      ensures cell.value == if v.WrongAccount? && !fromEnvironment && locks && reloads && old(refresh).Some?
                               && old(cell.value) == old(refresh) && delete == Done
                            then None else old(cell.value)
      ensures Agrees(old(View()), View())
    {
      v := FinishValidation(captured, validated);
      if v.WrongAccount? {
        ClearIfGeneration(cell, captured, fromEnvironment, locks, reloads, delete);
      }
    }

    /** Commit a bundle whose predecessor is `expected`, if the store still holds it. */
    method CommitBundle(cell: CredentialCell, b: Bundle, force: bool, expected: Option<Token>, io: Io)
      returns (r: Result<nat>)
      modifies this, cell
      ensures r.Ok? <==>
              && b.valid && (force || old(account) == None || old(account) == Some(b.account))
              && io.reloads && old(cell.value) == expected && io.save == Done
      ensures (View(), cell.value) == CommittedIn(old(View()), old(cell.value), b, force, expected, io)
      ensures r.Ok? ==> View() == CommitIn(old(View()), b, force, old(account)) && cell.value == Some(b.refresh)
      ensures r.Ok? ==> refresh == Some(b.refresh) && access == Some(b.access) && account == Some(b.account)
      ensures r.Err? ==> account == None && access == None && generation == old(generation) + 1
      ensures r.Err? ==> refresh == if r.error == AccountChanged then cell.value else None
      ensures r == Err(AccountChanged) <==>
              && b.valid && (force || old(account) == None || old(account) == Some(b.account))
              && io.reloads && old(cell.value) != expected
      ensures cell.value == Some(b.refresh) || cell.value == None || cell.value == old(cell.value)
      ensures r == Err(AccountChanged) || (r.Err? && !io.reloads) ==> cell.value == old(cell.value)
      ensures r.Err? && io.reloads && io.save != TimedOut && io.delete == Done && old(cell.value) == expected ==>
                cell.value == None
    {
      if !b.valid {
        var _ := DeleteIfMatchesAndClear(cell, expected, io.reloads, io.delete);
        return Err(Protocol);
      }
      var previous := account;
      if !force && previous.Some? && previous.value != b.account {
        var _ := DeleteIfMatchesAndClear(cell, expected, io.reloads, io.delete);
        return Err(Protocol);
      }
      if !io.reloads {
        var _ := ClearLocalAuthorization(true);
        return Err(Storage);
      }
      if cell.value != expected {
        AdoptExternalCredential(cell.value);
        return Err(AccountChanged);
      }
      match io.save
      case Done =>
        cell.value := Some(b.refresh);
        CommitState(b, force, previous);
        r := Ok(revision);
      case TimedOut =>
        var _ := ClearLocalAuthorization(true);
        r := Err(Storage);
      case Errored =>
        var _ := DeleteIfMatchesAndClear(cell, expected, io.reloads, io.delete);
        r := Err(Storage);
    }

    /**
     Refresh the session under the audience lock. The token that was stored is the one sent. A
     peer that rotated the same account's session leaves the generation alone; a peer that
     switched accounts raises it and fails work that may not change account; and when no store
     call fails or times out, the token sent is gone from the store.
     */
    method RefreshUnderLock(cell: CredentialCell, allowExternalChange: bool, io: Io)
      returns (r: Result<string>, sent: Option<Token>)
      modifies this, cell
      ensures (View(), cell.value, sent) == RefreshedIn(old(View()), old(cell.value), allowExternalChange, io)
      ensures sent.Some? ==> sent == old(cell.value)
      ensures sent.Some? <==>
              && io.loads && old(cell.value).Some?
              && (old(cell.value) != old(refresh) && old(account) == None ==> allowExternalChange)
      ensures r.Ok? <==>
              && sent.Some? && io.response.Rotated? && io.response.bundle.valid && io.reloads && io.save == Done
              && (|| old(account) == None || old(account) == Some(io.response.bundle.account)
                  || (old(cell.value) != old(refresh) && allowExternalChange))
      ensures r.Ok? ==> io.response.Rotated? && sent.Some? && cell.value == Some(io.response.bundle.refresh)
                        && account == Some(io.response.bundle.account)
      ensures r.Ok? ==> r.value == io.response.bundle.access && access == Some(r.value)
      ensures !io.loads ==> r == Err(Storage) && View() == ClearIn(old(View()), true) && cell.value == old(cell.value)
      ensures io.loads && sent.None? ==>
                && cell.value == old(cell.value)
                && View() == if old(cell.value) == old(refresh) then old(View())
                             else AdoptIn(old(View()), old(cell.value))
      ensures sent.Some? && io.response.Failed? ==>
                r == Err(Provider) && refresh == None && access == None && account == None
      ensures r.Ok? && old(account).Some? && old(account) == account ==> generation == old(generation)
      ensures r.Ok? && old(account).Some? && old(account) != account ==>
                old(cell.value) != old(refresh) && allowExternalChange && generation == old(generation) + 2
      ensures old(account).Some? && old(account) != account && account.Some? && !allowExternalChange ==>
                r == Err(AccountChanged) && generation > old(generation)
      ensures Agrees(old(View()), View())
      ensures sent.Some? && io.reloads && io.save != TimedOut && io.delete == Done
              && IsFresh(io.response, sent.value) ==>
                cell.value != sent
    {
      sent := None;
      if !io.loads {
        var _ := ClearLocalAuthorization(true);
        return Err(Storage), None;
      }
      var persisted := cell.value;
      var changedExternally := persisted != refresh;
      var previous := account;
      if changedExternally && (previous.None? || persisted.None?) {
        AdoptExternalCredential(persisted);
        if !allowExternalChange {
          return Err(AccountChanged), None;
        }
      }
      if persisted.None? {
        return Err(AuthenticationRequired), None;
      }
      sent := persisted;
      if io.response.Failed? {
        var _ := DeleteIfMatchesAndClear(cell, persisted, io.reloads, io.delete);
        return Err(Provider), sent;
      }
      var bundle := io.response.bundle;
      var switched := changedExternally && previous.Some? && previous.value != bundle.account;
      if switched {
        AdoptExternalCredential(persisted);
      }
      var committed := CommitBundle(cell, bundle, false, persisted, io);
      if committed.Err? {
        return Err(committed.error), sent;
      }
      if switched && !allowExternalChange {
        return Err(AccountChanged), sent;
      }
      r := Ok(bundle.access);
    }

    /** Before a browser login, take over what a peer stored, and refuse a second session, a key
        from the environment, and a store known to be unavailable. */
    method StartNativeLogin(cell: CredentialCell, fromEnvironment: bool, locks: bool, loads: bool)
      returns (r: Result<nat>)
      modifies this
      ensures View() == if fromEnvironment || old(unavailable) then old(View())
                        else if !locks || !loads then ClearIn(old(View()), true)
                        else if cell.value != old(refresh) then AdoptIn(old(View()), cell.value)
                        else old(View())
      ensures r.Ok? <==> !fromEnvironment && !old(unavailable) && locks && loads && cell.value == None
      ensures r.Ok? ==> r.value == generation
    {
      if fromEnvironment {
        return Err(InvalidTransition);
      }
      if unavailable {
        return Err(Storage);
      }
      if !locks {
        var _ := ClearLocalAuthorization(true);
        return Err(Storage);
      }
      if !loads {
        var _ := ClearLocalAuthorization(true);
        return Err(Storage);
      }
      if cell.value != refresh {
        AdoptExternalCredential(cell.value);
      }
      if refresh.Some? {
        return Err(InvalidTransition);
      }
      r := Ok(generation);
    }

    /** Finish a browser login begun at `expectedGeneration`: if the authorization has changed
        since, nothing is committed; a lock that cannot be taken forgets the session. */
    method FinishExchange(cell: CredentialCell, bundle: Bundle, expectedGeneration: nat, locks: bool, io: Io)
      returns (r: Result<nat>)
      modifies this, cell
      ensures old(generation) != expectedGeneration ==>
                r.Err? && View() == old(View()) && cell.value == old(cell.value)
      ensures old(generation) == expectedGeneration && !locks ==>
                r.Err? && View() == ClearIn(old(View()), true) && cell.value == old(cell.value)
      ensures r.Err? && old(generation) == expectedGeneration ==>
                account == None && generation == expectedGeneration + 1
      ensures r.Ok? <==>
              && old(generation) == expectedGeneration && locks && bundle.valid
              && io.reloads && old(cell.value) == old(refresh) && io.save == Done
      ensures r.Ok? ==> generation == expectedGeneration + 1 && account == Some(bundle.account)
                        && cell.value == Some(bundle.refresh) && old(cell.value) == old(refresh)
      ensures Agrees(old(View()), View())
    {
      if generation != expectedGeneration {
        return Err(InvalidTransition);
      }
      var expected := refresh;
      if !locks {
        var _ := ClearLocalAuthorization(true);
        return Err(Storage);
      }
      r := CommitBundle(cell, bundle, true, expected, io);
    }
  }

  predicate IsFresh(response: Response, sent: Token) {
    response.Rotated? ==> response.bundle.refresh != sent
  }
}
