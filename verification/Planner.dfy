/** Turning an intent and discovered state into an ordered batch: what the planner computes. */
module Planner {
  import opened Field
  import opened Errors
  import opened Lists
  import opened Ledger
  import opened Hashes
  import opened Crypto
  import opened Actions
  import opened Discovery

  type U120 = x: nat | x < TWO_120

  datatype Amount = Amount(token: Felt, amount: U128)

  datatype Move = Move(to: Felt, token: Felt, amount: U128)

  datatype Intent = Intent(register: bool, deposits: seq<Amount>, transfers: seq<Move>, withdrawals: seq<Move>)

  /** Discovered state the plan builds on. */
  datatype UserState = UserState(
    user: Account, registered: bool, outgoing: nat, channels: map<Felt, OutgoingChannel>, notes: seq<Note>)

  datatype Warning = UserLinkage

  datatype Plan = Plan(actions: seq<ClientAction>, spent: seq<Felt>, change: map<Felt, U128>, warnings: seq<Warning>)

  /** The draws a randomness source will make before its first failure. */
  datatype Rng = Rng(felts: seq<Felt>, salts: seq<U120>)

  function TakeFelt(rng: Rng): Result<(Felt, Rng), Error> {
    if rng.felts == [] then Err(Random) else Ok((rng.felts[0], rng.(felts := rng.felts[1..])))
  }

  /** The first salt drawn that is neither 0 nor the open-note mark. */
  function TakeSalt(rng: Rng): (r: Result<(U128, Rng), Error>)
    ensures r.Ok? ==> NoteSalt(r.value.0) && r.value.1.felts == rng.felts
    decreases |rng.salts|
  {
    if rng.salts == [] then Err(Random)
    else
      var rest := rng.(salts := rng.salts[1..]);
      if rng.salts[0] > OPEN_NOTE_SALT then Ok((rng.salts[0], rest)) else TakeSalt(rest)
  }

  // ---- per-token balances ----

  function Inflow(d: Amount): Flow {
    Flow(d.token, d.amount)
  }

  function Outflow(m: Move): Flow {
    Flow(m.token, -(m.amount as int))
  }

  /** Deposits in, then transfers and withdrawals out. */
  function Flows(intent: Intent): seq<Flow> {
    MapSeq(Inflow, intent.deposits) + MapSeq(Outflow, intent.transfers + intent.withdrawals)
  }

  /** An amount `i128::try_from` accepts; flows out carry a minus sign. */
  predicate Convertible(f: Flow) {
    -TWO_127 < f.amount < TWO_127
  }

  predicate AllConvertible(flows: seq<Flow>) {
    forall f :: f in flows ==> Convertible(f)
  }

  predicate InI128(x: int) {
    -TWO_127 <= x < TWO_127
  }

  /** No running per-token sum leaves the i128 range before the first amount that is refused anyway. */
  ghost predicate SafeFlows(flows: seq<Flow>) {
    forall i, t :: 0 <= i <= |flows| && AllConvertible(flows[..i]) ==> InI128(Total(flows[..i], t))
  }

  ghost predicate SafeSums(intent: Intent) {
    SafeFlows(Flows(intent))
  }

  function Balances(intent: Intent): Result<map<Felt, int>, Error> {
    if AllConvertible(Flows(intent)) then Ok(CreditAll(map[], Flows(intent))) else Err(Read)
  }

  lemma BalancesInRange(intent: Intent, t: Felt)
    requires SafeSums(intent) && AllConvertible(Flows(intent))
    ensures NetOf(CreditAll(map[], Flows(intent)), t) == Total(Flows(intent), t)
    ensures InI128(Total(Flows(intent), t))
  {
    CreditAllTotals(map[], Flows(intent), t);
    assert Flows(intent)[..|Flows(intent)|] == Flows(intent);
  }

  // ---- covering a deficit ----

  /** Stable insertion behind everything at least as large. */
  function InsertDesc(x: Note, ys: seq<Note>): seq<Note> {
    if ys == [] then [x]
    else
      var n := |ys| - 1;
      if ys[n].amount >= x.amount then ys + [x] else InsertDesc(x, ys[..n]) + [ys[n]]
  }

  /** A stable sort, largest amount first. */
  function SortDesc(xs: seq<Note>): seq<Note> {
    if xs == [] then [] else InsertDesc(xs[|xs| - 1], SortDesc(xs[..|xs| - 1]))
  }

  /** Notes of one token that can be spent. */
  function Spendable(token: Felt): Note -> bool {
    (n: Note) => n.token == token && !n.open && n.amount > 0
  }

  function Candidates(notes: seq<Note>, token: Felt): seq<Note> {
    SortDesc(Filter(Spendable(token), notes))
  }

  /** From the `i`-th candidate on, spend until the balance is no longer negative. */
  function SpendFrom(cs: seq<Note>, i: nat, bal: I128): (r: Result<(nat, I128), Error>)
    requires i <= |cs|
    ensures r.Ok? ==> i <= r.value.0 <= |cs|
    decreases |cs| - i
  {
    if i == |cs| || bal >= 0 then Ok((i, bal))
    else if cs[i].amount >= TWO_127 then Err(Read)
    else SpendFrom(cs, i + 1, bal + cs[i].amount)
  }

  function NoteFlow(n: Note): Flow {
    Flow(n.token, n.amount)
  }

  /** Everything held in a token, open notes included. */
  function Available(notes: seq<Note>, token: Felt): nat {
    if notes == [] then 0
    else
      var n := notes[|notes| - 1];
      Available(notes[..|notes| - 1], token) + (if n.token == token then n.amount else 0)
  }

  datatype Cover = Cover(spends: seq<Note>, change: map<Felt, U128>)

  /** The notes spent for one token and what is left over. */
  function CoverToken(notes: seq<Note>, token: Felt, bal: I128): (r: Result<(seq<Note>, I128), Error>)
    ensures r.Ok? ==> r.value.1 >= 0
  {
    if bal >= 0 then Ok(([], bal))
    else
      var cs := Candidates(notes, token);
      match SpendFrom(cs, 0, bal)
      case Err(e) => Err(e)
      case Ok((k, left)) =>
        if left < 0 then Err(InsufficientBalance(token, -(left as int), Available(notes, token)))
        else Ok((cs[..k], left))
  }

  function CoverAll(notes: seq<Note>, balance: map<Felt, int>, tokens: seq<Felt>): Result<Cover, Error>
    requires forall t :: t in tokens ==> InI128(NetOf(balance, t))
  {
    if tokens == [] then Ok(Cover([], map[]))
    else
      match CoverAll(notes, balance, tokens[..|tokens| - 1])
      case Err(e) => Err(e)
      case Ok(c) =>
        var token := tokens[|tokens| - 1];
        assert token in tokens && InI128(NetOf(balance, token));
        match CoverToken(notes, token, NetOf(balance, token))
        case Err(e) => Err(e)
        case Ok((spent, left)) =>
          Ok(Cover(c.spends + spent, if 0 < left then c.change[token := left] else c.change))
  }

  // ---- placing new notes ----

  /** The planner's working copy while it places notes. */
  datatype Work = Work(
    channels: map<Felt, OutgoingChannel>, next: nat,
    opens: seq<ClientAction>, subs: seq<ClientAction>, creates: seq<ClientAction>, rng: Rng)

  /** A count as the u32 it is sent as. */
  function Index(n: nat): U32 {
    n % TWO_32
  }

  function EnsureChannel(w: Work, recipient: Felt): Result<Work, Error> {
    if recipient !in w.channels then Err(NotRegistered(recipient))
    else if w.channels[recipient].open then Ok(w)
    else
      match TakeFelt(w.rng)
      case Err(e) => Err(e)
      case Ok((random, rng)) =>
        match TakeFelt(rng)
        case Err(e) => Err(e)
        case Ok((salt, rng)) =>
          Ok(w.(channels := w.channels[recipient := w.channels[recipient].(open := true)],
                next := w.next + 1,
                opens := w.opens + [OpenChannel(recipient, Index(w.next), random, salt)],
                rng := rng))
  }

  function EnsureSubchannel(w: Work, recipient: Felt, token: Felt): Result<Work, Error>
    requires recipient in w.channels
  {
    var ch := w.channels[recipient];
    if token in ch.subchannels then Ok(w)
    else
      match TakeFelt(w.rng)
      case Err(e) => Err(e)
      case Ok((salt, rng)) =>
        var k := Index(|ch.subchannels|);
        Ok(w.(channels := w.channels[recipient := ch.(subchannels := ch.subchannels[token := Subchannel(k, 0)])],
              subs := w.subs + [OpenSubchannel(recipient, ch.recipientPk, ch.key, k, token, salt)],
              rng := rng))
  }

  function AddNote(w: Work, m: Move): Result<Work, Error>
    requires m.to in w.channels && m.token in w.channels[m.to].subchannels
  {
    var ch := w.channels[m.to];
    var sub := ch.subchannels[m.token];
    match TakeSalt(w.rng)
    case Err(e) => Err(e)
    case Ok((salt, rng)) =>
      var bumped := sub.(nextNote := sub.nextNote + 1);
      Ok(w.(channels := w.channels[m.to := ch.(subchannels := ch.subchannels[m.token := bumped])],
            creates := w.creates + [CreateEncNote(m.to, ch.recipientPk, m.token, m.amount, Index(sub.nextNote), salt)],
            rng := rng))
  }

  function PlaceNote(w: Work, m: Move): Result<Work, Error> {
    match EnsureChannel(w, m.to)
    case Err(e) => Err(e)
    case Ok(w1) =>
      match EnsureSubchannel(w1, m.to, m.token)
      case Err(e) => Err(e)
      case Ok(w2) => AddNote(w2, m)
  }

  function PlaceAll(w: Work, ms: seq<Move>): Result<Work, Error> {
    if ms == [] then Ok(w)
    else
      match PlaceAll(w, ms[..|ms| - 1])
      case Err(e) => Err(e)
      case Ok(w') => PlaceNote(w', ms[|ms| - 1])
  }

  // ---- the whole plan ----

  predicate IsLeast(m: Felt, s: set<Felt>) {
    m in s && forall x :: x in s ==> m <= x
  }

  lemma {:induction false} LeastExists(s: set<Felt>) returns (m: Felt)
    requires s != {}
    ensures IsLeast(m, s)
  {
    var y :| y in s;
    var rest := s - {y};
    if rest == {} {
      assert s == {y};
      m := y;
    } else {
      var z := LeastExists(rest);
      m := if y < z then y else z;
      assert forall x :: x in s ==> x == y || x in rest;
    }
  }

  lemma LeastInhabited(s: set<Felt>)
    requires s != {}
    ensures exists m :: IsLeast(m, s)
  {
    var m := LeastExists(s);
  }

  ghost function LeastOf(s: set<Felt>): (m: Felt)
    requires s != {}
    ensures IsLeast(m, s)
  {
    LeastInhabited(s);
    var m :| IsLeast(m, s);
    m
  }

  /** The set in ascending order. */
  ghost function Ascending(s: set<Felt>): seq<Felt> {
    if s == {} then [] else [LeastOf(s)] + Ascending(s - {LeastOf(s)})
  }

  /** The change note of one token. */
  function ChangeNote(user: Felt, change: map<Felt, U128>): Felt -> Move {
    (t: Felt) => Move(user, t, if t in change then change[t] else 0)
  }

  /** Transfers first, then one change note per token with a surplus, in token order. */
  ghost function NewNotes(intent: Intent, user: Felt, change: map<Felt, U128>): seq<Move> {
    intent.transfers + MapSeq(ChangeNote(user, change), Ascending(change.Keys))
  }

  /** The batch registers the user: it asks to, and the user is not registered yet. */
  predicate Registering(intent: Intent, st: UserState) {
    intent.register && !st.registered
  }

  /** The account actions, and the working copy the notes are placed in. */
  function StartWork(env: Env, intent: Intent, st: UserState, rng: Rng): Result<(seq<ClientAction>, Work), Error> {
    if Registering(intent, st) then
      match TakeFelt(rng)
      case Err(e) => Err(e)
      case Ok((random, rng)) =>
        var pk := env.publicKey(st.user.sk);
        var key := ChannelKey(env, st.user, Identity(st.user.addr, pk));
        var self := OutgoingChannel(st.user.addr, pk, key, false, map[]);
        match EnsureChannel(Work(st.channels[st.user.addr := self], st.outgoing, [], [], [], rng), st.user.addr)
        case Err(e) => Err(e)
        case Ok(w) => Ok(([SetViewingKey(random)], w))
    else
      Ok(([], Work(st.channels, st.outgoing, [], [], [], rng)))
  }

  function WithdrawAll(ws: seq<Move>, rng: Rng): Result<(seq<ClientAction>, Rng), Error> {
    if ws == [] then Ok(([], rng))
    else
      match WithdrawAll(ws[..|ws| - 1], rng)
      case Err(e) => Err(e)
      case Ok((before, rng)) =>
        match TakeFelt(rng)
        case Err(e) => Err(e)
        case Ok((random, rng)) =>
          var m := ws[|ws| - 1];
          Ok((before + [Withdraw(m.to, m.token, m.amount, random)], rng))
  }

  function DepositAction(d: Amount): ClientAction {
    Deposit(d.token, d.amount)
  }

  function UseAction(n: Note): ClientAction {
    UseNote(n.key, n.token, n.index)
  }

  function NoteOf(n: Note): Felt {
    n.id
  }

  /** Every amount asked for is positive. */
  predicate PositiveAmounts(intent: Intent) {
    && (forall d :: d in intent.deposits ==> d.amount > 0)
    && (forall m :: m in intent.transfers ==> m.amount > 0)
    && (forall m :: m in intent.withdrawals ==> m.amount > 0)
  }

  function Assemble(intent: Intent, account: seq<ClientAction>, w: Work, spends: seq<Note>,
                    withdraws: seq<ClientAction>): seq<ClientAction>
  {
    account + w.opens + w.subs + MapSeq(DepositAction, intent.deposits) + MapSeq(UseAction, spends)
    + w.creates + withdraws
  }

  function IsOpening(a: ClientAction): bool {
    a.OpenChannel?
  }

  function Linkage(actions: seq<ClientAction>): seq<Warning> {
    if |Filter(IsOpening, actions)| > 1 then [UserLinkage] else []
  }

  /** Everything the plan is assembled from. */
  datatype Draft = Draft(cover: Cover, account: seq<ClientAction>, work: Work, withdraws: seq<ClientAction>)

  /** The notes to spend and the change: amounts checked, balances summed, deficits covered. */
  ghost function CoverIntent(intent: Intent, notes: seq<Note>): Result<Cover, Error>
    requires SafeSums(intent)
  {
    if !PositiveAmounts(intent) then Err(ZeroAmount)
    else
      match Balances(intent)
      case Err(e) => Err(e)
      case Ok(balance) =>
        assert forall t :: InI128(NetOf(balance, t)) by {
          forall t ensures InI128(NetOf(balance, t)) { BalancesInRange(intent, t); }
        }
        CoverAll(notes, balance, Ascending(balance.Keys))
  }

  /** The actions that take randomness: account, channels, subchannels, new notes, withdrawals. */
  ghost function PlaceIntent(env: Env, intent: Intent, st: UserState, rng: Rng, cover: Cover): Result<Draft, Error> {
    match StartWork(env, intent, st, rng)
    case Err(e) => Err(e)
    case Ok((account, start)) =>
      match PlaceAll(start, NewNotes(intent, st.user.addr, cover.change))
      case Err(e) => Err(e)
      case Ok(w) =>
        match WithdrawAll(intent.withdrawals, w.rng)
        case Err(e) => Err(e)
        case Ok((withdraws, _)) => Ok(Draft(cover, account, w, withdraws))
  }

  ghost function MakeDraft(env: Env, intent: Intent, st: UserState, rng: Rng): Result<Draft, Error>
    requires SafeSums(intent)
  {
    if !intent.register && !st.registered then Err(NotRegistered(st.user.addr))
    else
      match CoverIntent(intent, st.notes)
      case Err(e) => Err(e)
      case Ok(cover) => PlaceIntent(env, intent, st, rng, cover)
  }

  function Assembled(intent: Intent, d: Draft): Plan {
    var actions := Assemble(intent, d.account, d.work, d.cover.spends, d.withdraws);
    Plan(actions, MapSeq(NoteOf, d.cover.spends), d.cover.change, Linkage(actions))
  }

  ghost function MakePlan(env: Env, intent: Intent, st: UserState, rng: Rng): Result<Plan, Error>
    requires SafeSums(intent)
  {
    match MakeDraft(env, intent, st, rng)
    case Err(e) => Err(e)
    case Ok(d) => Ok(Assembled(intent, d))
  }
}
