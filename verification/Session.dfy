/** The wallet session, its account registry and the vault on disk. */
module Session {
  import opened Field
  import opened Backoff

  // ---- derivation branches ----

  datatype Domain = User | Agent

  const AGENT_ACCOUNT_INDEX: U32 := 0x4147_4E54
  const HARDENED: nat := 0x8000_0000

  function Limit(d: Domain): U32 {
    match d case User => AGENT_ACCOUNT_INDEX case Agent => HARDENED
  }

  /** BIP-44 (account index, address index) of the `n`-th account of a branch. */
  function PathIndices(d: Domain, n: U32): (U32, U32) {
    match d case User => (n, 0) case Agent => (AGENT_ACCOUNT_INDEX, n)
  }

  /** The key that is derived: the hardened bit is ORed into the account index ("Path levels", BIP-44). */
  function EffectivePath(d: Domain, n: U32): (U32, U32) {
    var (account, address) := PathIndices(d, n);
    (if account < HARDENED then account + HARDENED else account, address)
  }

  /** Within the branch limits, different accounts derive different keys. */
  lemma PathsApart(d: Domain, n: U32, d': Domain, n': U32)
    requires n < Limit(d) && n' < Limit(d')
    ensures EffectivePath(d, n) == EffectivePath(d', n') <==> d == d' && n == n'
  {
  }

  /** Without the limits the branches meet: at the reserved index, with or without its hardened bit. */
  lemma BranchesMeetAt(n: U32, m: U32)
    ensures EffectivePath(User, n) == EffectivePath(Agent, m)
       <==> m == 0 && (n == AGENT_ACCOUNT_INDEX || n == AGENT_ACCOUNT_INDEX + HARDENED)
  {
  }

  // ---- the registry ----

  datatype AccountRef = AccountRef(domain: Domain, index: U32, address: Felt, name: string, owner: Option<string>)

  /** One past the largest index of the branch. */
  function NextIndex(accounts: seq<AccountRef>, d: Domain): nat {
    if accounts == [] then 0
    else
      var a, before := accounts[|accounts| - 1], NextIndex(accounts[..|accounts| - 1], d);
      if a.domain == d && a.index + 1 > before then a.index + 1 else before
  }

  function Without(accounts: seq<AccountRef>, address: Felt): seq<AccountRef> {
    if accounts == [] then []
    else
      var a := accounts[|accounts| - 1];
      Without(accounts[..|accounts| - 1], address) + (if a.address != address then [a] else [])
  }

  /** Library derivation: the address at an effective path of a seed, on a chain. */
  datatype Keys = Keys(address: (string, (U32, U32), nat) -> Felt)

  /** Different paths of one seed give different addresses, on whatever chain they were derived for. */
  ghost predicate PathsDistinct(keys: Keys, mnemonic: string) {
    forall p, q, c, e :: keys.address(mnemonic, p, c) == keys.address(mnemonic, q, e) ==> p == q
  }

  predicate Derived(keys: Keys, mnemonic: string, a: AccountRef, chain: nat) {
    a.address == keys.address(mnemonic, EffectivePath(a.domain, a.index), chain)
  }

  ghost predicate Proper(keys: Keys, mnemonic: string, a: AccountRef) {
    && a.index < Limit(a.domain)
    && (a.owner.Some? <==> a.domain == Agent)
    && exists c :: Derived(keys, mnemonic, a, c)
  }

  ghost predicate ValidRegistry(keys: Keys, mnemonic: string, accounts: seq<AccountRef>) {
    && (forall i :: 0 <= i < |accounts| ==> Proper(keys, mnemonic, accounts[i]))
    && (forall i, j :: 0 <= i < j < |accounts| ==>
          accounts[i].domain != accounts[j].domain || accounts[i].index != accounts[j].index)
  }

  /** In a valid registry no two accounts share an address or a derived key. */
  lemma AccountsApart(keys: Keys, mnemonic: string, accounts: seq<AccountRef>, i: nat, j: nat)
    requires PathsDistinct(keys, mnemonic) && ValidRegistry(keys, mnemonic, accounts) && i < j < |accounts|
    ensures accounts[i].address != accounts[j].address
    ensures EffectivePath(accounts[i].domain, accounts[i].index) != EffectivePath(accounts[j].domain, accounts[j].index)
  {
    var a, b := accounts[i], accounts[j];
    PathsApart(a.domain, a.index, b.domain, b.index);
    SameAddressSamePath(keys, mnemonic, a, b);
  }

  lemma SameAddressSamePath(keys: Keys, mnemonic: string, a: AccountRef, b: AccountRef)
    requires PathsDistinct(keys, mnemonic) && Proper(keys, mnemonic, a) && Proper(keys, mnemonic, b)
    ensures a.address == b.address ==> EffectivePath(a.domain, a.index) == EffectivePath(b.domain, b.index)
  {
    var c :| Derived(keys, mnemonic, a, c);
    var e :| Derived(keys, mnemonic, b, e);
  }

  lemma {:induction false} NextIndexIsFresh(accounts: seq<AccountRef>, d: Domain, bound: nat)
    requires forall i :: 0 <= i < |accounts| && accounts[i].domain == d ==> accounts[i].index < bound
    ensures NextIndex(accounts, d) <= bound
    ensures forall i :: 0 <= i < |accounts| && accounts[i].domain == d ==> accounts[i].index < NextIndex(accounts, d)
    decreases |accounts|
  {
    if accounts != [] {
      var k := |accounts| - 1;
      NextIndexIsFresh(accounts[..k], d, bound);
      assert forall i :: 0 <= i < k ==> accounts[..k][i] == accounts[i];
    }
  }

  lemma {:induction false} WithoutAbsent(accounts: seq<AccountRef>, address: Felt)
    requires forall i :: 0 <= i < |accounts| ==> accounts[i].address != address
    ensures Without(accounts, address) == accounts
    decreases |accounts|
  {
    if accounts != [] {
      WithoutAbsent(accounts[..|accounts| - 1], address);
    }
  }

  lemma {:induction false} WithoutShrinks(accounts: seq<AccountRef>, address: Felt)
    ensures |Without(accounts, address)| <= |accounts|
    ensures (exists i :: 0 <= i < |accounts| && accounts[i].address == address) ==>
        |Without(accounts, address)| < |accounts|
    decreases |accounts|
  {
    if accounts != [] {
      var k := |accounts| - 1;
      WithoutShrinks(accounts[..k], address);
      assert forall i :: 0 <= i < k ==> accounts[..k][i] == accounts[i];
    }
  }

  /** Removing the account just added by its address restores the registry exactly when no account had that
      address before; otherwise it would take the older one with it. */
  lemma RollbackRestores(accounts: seq<AccountRef>, a: AccountRef)
    ensures Without(accounts + [a], a.address) == accounts
       <==> forall i :: 0 <= i < |accounts| ==> accounts[i].address != a.address
  {
    assert (accounts + [a])[..|accounts|] == accounts;
    if forall i :: 0 <= i < |accounts| ==> accounts[i].address != a.address {
      WithoutAbsent(accounts, a.address);
    } else {
      WithoutShrinks(accounts, a.address);
    }
  }

  /** What a caller may see: an agent client its own accounts, anybody else the user's. */
  predicate Visible(a: AccountRef, client: Option<string>) {
    match client case None => a.domain == User case Some(c) => a.owner == Some(c)
  }

  /** No agent account, named by its address, is visible to two different callers. */
  lemma AgentAccountsArePrivate(keys: Keys, mnemonic: string, accounts: seq<AccountRef>, i: nat, j: nat,
                                c: Option<string>, e: Option<string>)
    requires PathsDistinct(keys, mnemonic) && ValidRegistry(keys, mnemonic, accounts)
    requires i < |accounts| && j < |accounts| && accounts[i].address == accounts[j].address
    requires accounts[i].domain == Agent && Visible(accounts[i], c) && Visible(accounts[j], e)
    ensures c == e && c.Some?
  {
    if i < j {
      AccountsApart(keys, mnemonic, accounts, i, j);
    } else if j < i {
      AccountsApart(keys, mnemonic, accounts, j, i);
    }
  }

  // ---- the session, the vault and the commands ----

  datatype Contents = Contents(mnemonic: string, accounts: seq<AccountRef>)

  /** A sealed vault file. `supported` says whether its version is the one this build opens; `plaintext` is
      what was sealed, `None` when it does not decode as contents. */
  datatype Vault = Vault(supported: bool, passphrase: string, plaintext: Option<Contents>)

  datatype Unlocked = Unlocked(passphrase: string, contents: Contents)

  datatype Refusal =
    | Locked | IndexOutOfRange | SaveFailed | WrongPassphrase | UnsupportedVersion | Undecodable | NoVault
    | NothingStaged | TooManyWrong(wait: nat)

  function Sealed(u: Unlocked): Vault {
    Vault(true, u.passphrase, Some(u.contents))
  }

  /** Opening after sealing works under the same passphrase and no other. */
  function OpenVault(v: Vault, passphrase: string): Result<Contents, Refusal> {
    if !v.supported then Err(UnsupportedVersion)
    else if v.passphrase != passphrase then Err(WrongPassphrase)
    else match v.plaintext case None => Err(Undecodable) case Some(c) => Ok(c)
  }

  /** How writing the vault file goes; a service without a vault store does not write at all. */
  datatype Saving = Saved | Failed | NoStore

  /** The chain the app was started for, the session in memory with its own chain, the vault file, the mnemonic
      staged for setup, and the passphrase guard. */
  datatype World = World(home: nat, chain: nat, session: Option<Unlocked>, disk: Option<Vault>, staged: Option<string>,
                         guard: Guard)

  /** A command. An unlock is checked against the guard at `now` and, if wrong, recorded at `later`. */
  datatype Command =
    | Stage(mnemonic: string)
    | Setup(passphrase: string, saved: bool)
    | Unlock(passphrase: string, now: nat, later: nat)
    | Lock
    | SetChain(chain: nat)
    | CreateUser(name: string, saved: bool)
    | CreateAgent(client: string, name: string, saving: Saving)

  /** The account the registry would get next; refused beyond the branch's limit. */
  function NewAccount(keys: Keys, c: Contents, chain: nat, d: Domain, name: string, owner: Option<string>):
    Result<AccountRef, Refusal>
  {
    var n := NextIndex(c.accounts, d);
    if n < Limit(d) then Ok(AccountRef(d, n, keys.address(c.mnemonic, EffectivePath(d, n), chain), name, owner))
    else Err(IndexOutOfRange)
  }

  function WithAccount(u: Unlocked, a: AccountRef): Unlocked {
    u.(contents := u.contents.(accounts := u.contents.accounts + [a]))
  }

  /** What a command leaves behind. */
  function After(keys: Keys, w: World, c: Command): World {
    match c
    case Stage(mnemonic) => w.(staged := Some(mnemonic))
    case Setup(passphrase, saved) => AfterSetup(w, passphrase, saved)
    case Unlock(passphrase, now, later) => AfterUnlock(w, passphrase, now, later)
    case Lock => w.(session := None)
    case SetChain(chain) => w.(chain := chain)
    case CreateUser(name, saved) => AfterCreate(keys, w, User, name, None, if saved then Saved else Failed)
    case CreateAgent(client, name, saving) => AfterCreate(keys, w, Agent, name, Some(client), saving)
  }

  /** The staged mnemonic is used up whether or not the save works out. The new session replaces the old one and is
      on the app's own chain, whichever the old one had been switched to. */
  function AfterSetup(w: World, passphrase: string, saved: bool): World {
    if w.staged.None? || !saved then w.(staged := None)
    else
      var u := Unlocked(passphrase, Contents(w.staged.value, []));
      w.(staged := None, chain := w.home, session := Some(u), disk := Some(Sealed(u)))
  }

  /** Only a passphrase that was tried and failed counts; a vault this build refuses is no guess. */
  function AfterUnlock(w: World, passphrase: string, now: nat, later: nat): World {
    if !Open(w.guard, now) || w.disk.None? then w
    else
      match OpenVault(w.disk.value, passphrase)
      case Ok(contents) => w.(session := Some(Unlocked(passphrase, contents)), guard := CLEAR)
      case Err(UnsupportedVersion) => w
      case Err(_) => w.(guard := AfterMiss(w.guard, later))
  }

  /** A new account is there in memory and on disk, or in neither; without a store, in memory only. */
  function AfterCreate(keys: Keys, w: World, d: Domain, name: string, owner: Option<string>, saving: Saving): World {
    if w.session.None? || saving == Failed then w
    else
      var u := w.session.value;
      match NewAccount(keys, u.contents, w.chain, d, name, owner)
      case Err(_) => w
      case Ok(a) =>
        var u' := WithAccount(u, a);
        w.(session := Some(u'), disk := if saving == Saved then Some(Sealed(u')) else w.disk)
  }

  // ---- what every run keeps ----

  ghost predicate ValidContents(keys: Keys, c: Contents) {
    ValidRegistry(keys, c.mnemonic, c.accounts)
  }

  /** The registries in memory and on disk are valid. */
  ghost predicate ValidWorld(keys: Keys, w: World) {
    && (w.session.Some? ==> ValidContents(keys, w.session.value.contents))
    && (w.disk.Some? && w.disk.value.plaintext.Some? ==> ValidContents(keys, w.disk.value.plaintext.value))
  }

  /** Memory and disk agree whenever the session is unlocked. */
  predicate Agrees(w: World) {
    w.session.Some? ==> w.disk == Some(Sealed(w.session.value))
  }

  lemma NewAccountIsProper(keys: Keys, c: Contents, chain: nat, d: Domain, name: string, owner: Option<string>)
    requires ValidRegistry(keys, c.mnemonic, c.accounts) && (owner.Some? <==> d == Agent)
    requires NewAccount(keys, c, chain, d, name, owner).Ok?
    ensures ValidRegistry(keys, c.mnemonic, c.accounts + [NewAccount(keys, c, chain, d, name, owner).value])
  {
    var a := NewAccount(keys, c, chain, d, name, owner).value;
    NextIndexIsFresh(c.accounts, d, Limit(d));
    assert Derived(keys, c.mnemonic, a, chain);
  }

  lemma CreateStaysValid(keys: Keys, w: World, d: Domain, name: string, owner: Option<string>, saving: Saving)
    requires ValidWorld(keys, w) && (owner.Some? <==> d == Agent)
    ensures ValidWorld(keys, AfterCreate(keys, w, d, name, owner, saving))
  {
    if w.session.Some? {
      var c := w.session.value.contents;
      if NewAccount(keys, c, w.chain, d, name, owner).Ok? {
        NewAccountIsProper(keys, c, w.chain, d, name, owner);
      }
    }
  }

  lemma CommandStaysValid(keys: Keys, w: World, c: Command)
    requires ValidWorld(keys, w)
    ensures ValidWorld(keys, After(keys, w, c))
  {
    match c {
      case CreateUser(name, saved) => CreateStaysValid(keys, w, User, name, None, if saved then Saved else Failed);
      case CreateAgent(client, name, saving) => CreateStaysValid(keys, w, Agent, name, Some(client), saving);
      case _ =>
    }
  }

  /** Every command keeps memory and disk in agreement, except creating an account where there is no store. */
  lemma CommandAgrees(keys: Keys, w: World, c: Command)
    requires Agrees(w)
    ensures Agrees(After(keys, w, c))
       <==> !(c.CreateAgent? && c.saving == NoStore && w.session.Some?
              && NewAccount(keys, w.session.value.contents, w.chain, Agent, c.name, Some(c.client)).Ok?)
  {
    if c.CreateAgent? && w.session.Some? {
      var u := w.session.value;
      var n := NewAccount(keys, u.contents, w.chain, Agent, c.name, Some(c.client));
      if n.Ok? {
        assert |WithAccount(u, n.value).contents.accounts| == |u.contents.accounts| + 1;
      }
    }
  }

  /** The wallet as it starts: locked, with whatever vault file there is. */
  function Start(chain: nat, disk: Option<Vault>): World {
    World(chain, chain, None, disk, None, CLEAR)
  }

  function RunAll(keys: Keys, start: World, commands: seq<Command>): World {
    if commands == [] then start
    else After(keys, RunAll(keys, start, commands[..|commands| - 1]), commands[|commands| - 1])
  }

  lemma {:induction false} EveryRunIsValid(keys: Keys, start: World, commands: seq<Command>)
    requires ValidWorld(keys, start)
    ensures ValidWorld(keys, RunAll(keys, start, commands))
    decreases |commands|
  {
    if commands != [] {
      EveryRunIsValid(keys, start, commands[..|commands| - 1]);
      CommandStaysValid(keys, RunAll(keys, start, commands[..|commands| - 1]), commands[|commands| - 1]);
    }
  }

  predicate Stored(commands: seq<Command>) {
    forall c :: c in commands && c.CreateAgent? ==> c.saving != NoStore
  }

  /** Over every run of setup, unlock, lock and creation, with saves failing anywhere, a wallet with a vault
      store has memory and disk in agreement whenever it is unlocked. */
  lemma {:induction false} EveryRunAgrees(keys: Keys, start: World, commands: seq<Command>)
    requires Agrees(start) && Stored(commands)
    ensures Agrees(RunAll(keys, start, commands))
    decreases |commands|
  {
    if commands != [] {
      assert commands[|commands| - 1] in commands;
      EveryRunAgrees(keys, start, commands[..|commands| - 1]);
      CommandAgrees(keys, RunAll(keys, start, commands[..|commands| - 1]), commands[|commands| - 1]);
    }
  }

  /** Over every run, the accounts in memory stay apart pairwise, in branch and index, in address and in
      derived key, and no agent account is visible to two different callers. */
  lemma AccountsStayApart(keys: Keys, start: World, commands: seq<Command>, i: nat, j: nat,
                          c: Option<string>, e: Option<string>)
    requires ValidWorld(keys, start)
    requires var w := RunAll(keys, start, commands);
             && w.session.Some? && PathsDistinct(keys, w.session.value.contents.mnemonic)
             && i < |w.session.value.contents.accounts| && j < |w.session.value.contents.accounts|
    ensures var accounts := RunAll(keys, start, commands).session.value.contents.accounts;
            var a, b := accounts[i], accounts[j];
            && (i != j ==>
                  && (a.domain != b.domain || a.index != b.index)
                  && a.address != b.address
                  && EffectivePath(a.domain, a.index) != EffectivePath(b.domain, b.index))
            && (a.address == b.address && a.domain == Agent && Visible(a, c) && Visible(b, e) ==> c == e && c.Some?)
  {
    EveryRunIsValid(keys, start, commands);
    var contents := RunAll(keys, start, commands).session.value.contents;
    if i < j {
      AccountsApart(keys, contents.mnemonic, contents.accounts, i, j);
    } else if j < i {
      AccountsApart(keys, contents.mnemonic, contents.accounts, j, i);
    }
  }

  /** The new account's address is nobody else's, so taking it back by address takes nothing else. */
  lemma NewAddressIsFresh(keys: Keys, c: Contents, chain: nat, d: Domain, name: string, owner: Option<string>)
    requires PathsDistinct(keys, c.mnemonic) && ValidContents(keys, c) && (owner.Some? <==> d == Agent)
    requires NewAccount(keys, c, chain, d, name, owner).Ok?
    ensures var a := NewAccount(keys, c, chain, d, name, owner).value;
            Without(c.accounts + [a], a.address) == c.accounts
  {
    var a := NewAccount(keys, c, chain, d, name, owner).value;
    NewAccountIsProper(keys, c, chain, d, name, owner);
    var all := c.accounts + [a];
    forall i | 0 <= i < |c.accounts|
      ensures c.accounts[i].address != a.address
    {
      AccountsApart(keys, c.mnemonic, all, i, |c.accounts|);
    }
    RollbackRestores(c.accounts, a);
  }

  // ---- the objects ----

  class WalletSession {
    var chain: nat
    var unlocked: Option<Unlocked>

    constructor (chain: nat)
      ensures this.chain == chain && unlocked == None
    {
      this.chain, unlocked := chain, None;
    }

    method UnlockWith(vault: Vault, passphrase: string) returns (res: Result<(), Refusal>)
      modifies this`unlocked
      ensures res == if !vault.supported then Err(UnsupportedVersion)
                     else if vault.passphrase != passphrase then Err(WrongPassphrase)
                     else if vault.plaintext.None? then Err(Undecodable) else Ok(())
      ensures unlocked == match OpenVault(vault, passphrase)
                          case Ok(contents) => Some(Unlocked(passphrase, contents))
                          case Err(_) => old(unlocked)
    {
      match OpenVault(vault, passphrase) {
        case Err(e) => res := Err(e);
        case Ok(contents) =>
          unlocked := Some(Unlocked(passphrase, contents));
          res := Ok(());
      }
    }

    /** Seal what is in memory under the stored passphrase: it opens under that passphrase to the same
        contents, and under no other. */
    method Reseal() returns (res: Result<Vault, Refusal>)
      ensures res == if unlocked.Some? then Ok(Sealed(unlocked.value)) else Err(Locked)
      ensures res.Ok? ==>
                && OpenVault(res.value, unlocked.value.passphrase) == Ok(unlocked.value.contents)
                && forall q :: q != unlocked.value.passphrase ==> OpenVault(res.value, q) == Err(WrongPassphrase)
    {
      match unlocked {
        case None => res := Err(Locked);
        case Some(u) => res := Ok(Vault(true, u.passphrase, Some(u.contents)));
      }
    }

    /** Derive and register the next account of a branch. */
    method Create(keys: Keys, d: Domain, name: string, owner: Option<string>) returns (res: Result<AccountRef, Refusal>)
      modifies this`unlocked
      ensures res == match old(unlocked)
                     case None => Err(Locked)
                     case Some(u) => NewAccount(keys, u.contents, chain, d, name, owner)
      ensures unlocked == if res.Ok? then Some(WithAccount(old(unlocked).value, res.value)) else old(unlocked)
    {
      if unlocked.None? { return Err(Locked); }
      var u := unlocked.value;
      res := NewAccount(keys, u.contents, chain, d, name, owner);
      if res.Ok? { unlocked := Some(WithAccount(u, res.value)); }
    }

    /** Take back an account by its address. */
    method Rollback(address: Felt)
      modifies this`unlocked
      ensures unlocked == match old(unlocked)
                          case None => None
                          case Some(u) =>
                            Some(u.(contents := u.contents.(accounts := Without(u.contents.accounts, address))))
    {
      match unlocked {
        case None =>
        case Some(u) =>
          unlocked := Some(u.(contents := u.contents.(accounts := Without(u.contents.accounts, address))));
      }
    }
  }

  /** The app: one session behind a lock, one vault file, one guard. Each command runs to its end before the
      next. */
  class App {
    const home: nat
    const session: WalletSession
    const backoff: PassphraseBackoff
    var disk: Option<Vault>
    var staged: Option<string>

    function State(): World
      reads this, session, backoff
    {
      World(home, session.chain, session.unlocked, disk, staged, backoff.State())
    }

    constructor (chain: nat, disk: Option<Vault>)
      ensures State() == Start(chain, disk) && fresh(session) && fresh(backoff)
    {
      session := new WalletSession(chain);
      backoff := new PassphraseBackoff();
      home := chain;
      this.disk, staged := disk, None;
    }

    method FinalizeSetup(keys: Keys, passphrase: string, saved: bool) returns (res: Result<(), Refusal>)
      modifies this, session
      ensures State() == After(keys, old(State()), Setup(passphrase, saved))
      ensures res == if old(staged).None? then Err(NothingStaged) else if saved then Ok(()) else Err(SaveFailed)
    {
      if staged.None? { return Err(NothingStaged); }
      var first := Unlocked(passphrase, Contents(staged.value, []));
      staged := None;
      if !saved { return Err(SaveFailed); }
      disk := Some(Sealed(first));
      session.chain, session.unlocked := home, Some(first);
      res := Ok(());
    }

    method UnlockVault(keys: Keys, passphrase: string, now: nat, later: nat) returns (res: Result<(), Refusal>)
      modifies session, backoff
      ensures State() == After(keys, old(State()), Unlock(passphrase, now, later))
      ensures res == if !Open(old(backoff.State()), now) then Err(TooManyWrong(old(backoff.until).value - now))
                     else if disk.None? then Err(NoVault)
                     else match OpenVault(disk.value, passphrase) case Ok(_) => Ok(()) case Err(e) => Err(e)
    {
      var free := backoff.Check(now);
      match free {
        case Err(wait) => return Err(TooManyWrong(wait));
        case Ok(_) =>
      }
      if disk.None? { return Err(NoVault); }
      res := session.UnlockWith(disk.value, passphrase);
      if res.Ok? {
        backoff.RecordSuccess();
      } else if res != Err(UnsupportedVersion) {
        backoff.RecordFailure(later);
      }
    }

    method LockSession(keys: Keys)
      modifies session
      ensures State() == After(keys, old(State()), Lock)
    {
      session.unlocked := None;
    }

    /** Add an account, save if there is a store, and take the account back if saving fails: then nothing has
        changed. */
    method AddAccount(keys: Keys, d: Domain, name: string, owner: Option<string>, saving: Saving)
      returns (res: Result<AccountRef, Refusal>)
      requires ValidWorld(keys, State()) && (owner.Some? <==> d == Agent)
      requires session.unlocked.Some? ==> PathsDistinct(keys, session.unlocked.value.contents.mnemonic)
      modifies this, session
      ensures State() == AfterCreate(keys, old(State()), d, name, owner, saving)
      ensures res.Err? ==> State() == old(State())
      ensures res.Ok? <==> session.unlocked != old(session.unlocked)
      ensures res.Ok? ==> session.unlocked == Some(WithAccount(old(session.unlocked).value, res.value))
      ensures res == Err(Locked) <==> old(session.unlocked).None?
      ensures res == Err(SaveFailed) ==> saving == Failed
    {
      var created := session.Create(keys, d, name, owner);
      if created.Err? { return Err(created.error); }
      Grown(old(session.unlocked).value, created.value);
      if saving == NoStore { return created; }
      var vault := session.Reseal();
      if saving == Saved && vault.Ok? {
        disk := Some(vault.value);
        return created;
      }
      NewAddressIsFresh(keys, old(session.unlocked).value.contents, session.chain, d, name, owner);
      session.Rollback(created.value.address);
      res := Err(SaveFailed);
    }
  }

  lemma Grown(u: Unlocked, a: AccountRef)
    ensures WithAccount(u, a) != u
  {
    assert |WithAccount(u, a).contents.accounts| == |u.contents.accounts| + 1;
  }
}
