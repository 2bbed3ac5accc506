/** One vault address, the lamport ledger and the clock, driven by every
    instruction in any order, by plain transfers and by the passing of time. */
module Protocol {
  import opened Base
  import opened Sums
  import opened VaultRules
  import opened Instructions
  import opened Estates

  /** What the address is derived from, and the rent reserve of a vault account. */
  datatype Env = Env(pda: Pubkey, owner: Pubkey, vaultId: u64, bump: u8, reserve: u64)

  datatype World = World(vault: Option<VaultData>, ledger: map<Pubkey, u64>, now: i64)

  datatype Step =
    | Open(signer: Pubkey, vaultId: u64, timeout: i64, table: seq<BeneficiaryInput>)
    | Deposit(signer: Pubkey, amount: u64)
    | Withdraw(signer: Pubkey, amount: u64)
    | CheckIn(signer: Pubkey)
    | SetTable(signer: Pubkey, table: seq<BeneficiaryInput>)
    | Claim(signer: Pubkey)
    | Close(signer: Pubkey)
    | Transfer(signer: Pubkey, to: Pubkey, amount: u64)  // no guard of the program sees this one
    | Tick(seconds: nat)

  datatype Receipt =
    | Opened
    | Deposited(amount: u64)
    | Withdrawn(amount: u64)
    | CheckedIn
    | TableSet
    | Paid(heir: Pubkey, amount: u64)
    | Closed
    | Sent(to: Pubkey, amount: u64)
    | Ticked

  type Outcome = Result<(World, Receipt), DmsError>

  predicate Shaped(w: World) {
    w.vault.Some? ==> w.vault.value.Shaped()
  }

  // ---- the ledger

  function BalancesOf(env: Env, w: World, who: Pubkey): Balances {
    Balances(At(w.ledger, env.pda), At(w.ledger, who))
  }

  function Settle(ledger: map<Pubkey, u64>, pda: Pubkey, who: Pubkey, b: Balances): map<Pubkey, u64> {
    ledger[pda := b.vault][who := b.wallet]
  }

  function SystemTransfer(ledger: map<Pubkey, u64>, from: Pubkey, to: Pubkey, amount: u64)
    : Result<map<Pubkey, u64>, DmsError>
  {
    if At(ledger, from) < amount then Err(RuntimeRefusal)
    else
      var debited := ledger[from := At(ledger, from) - amount];
      if At(debited, to) + amount > U64_MAX then Err(LamportOverflow)
      else Ok(debited[to := At(debited, to) + amount])
  }

  // ---- one transaction

  function Shortfall(lamports: u64, reserve: u64): u64 {
    if lamports >= reserve then 0 else reserve - lamports
  }

  /** The vault account is created with its reserve topped up by the payer. */
  function ApplyOpen(env: Env, w: World, s: Step): Outcome
    requires s.Open?
  {
    if w.vault.Some? || s.signer != env.owner || s.vaultId != env.vaultId then Err(RuntimeRefusal)
    else
      var b := BalancesOf(env, w, s.signer);
      var b' :- MoveIn(b, Shortfall(b.vault, env.reserve));
      var v :- Initialize(s.signer, s.vaultId, None, s.timeout, s.table, w.now, env.bump);
      Ok((World(Some(v), Settle(w.ledger, env.pda, s.signer, b'), w.now), Opened))
  }

  function ApplyToVault(env: Env, w: World, v: VaultData, s: Step): Outcome
    requires v.Shaped()
    requires s.Deposit? || s.Withdraw? || s.CheckIn? || s.SetTable? || s.Claim? || s.Close?
  {
    var b := BalancesOf(env, w, s.signer);
    match s
    case Deposit(signer, amount) =>
      var b' :- DepositSol(v, b, signer, amount);
      Ok((w.(ledger := Settle(w.ledger, env.pda, signer, b')), Deposited(amount)))
    case Withdraw(signer, amount) =>
      var b' :- WithdrawSol(v, b, env.reserve, signer, amount);
      Ok((w.(ledger := Settle(w.ledger, env.pda, signer, b')), Withdrawn(amount)))
    case CheckIn(signer) =>
      var v' :- Instructions.CheckIn(v, signer, w.now);
      Ok((w.(vault := Some(v')), CheckedIn))
    case SetTable(signer, table) =>
      var v' :- SetBeneficiaries(v, signer, table);
      Ok((w.(vault := Some(v')), TableSet))
    case Claim(signer) =>
      var (v', b', amount) :- ClaimSol(v, b, env.reserve, signer, w.now);
      Ok((w.(vault := Some(v'), ledger := Settle(w.ledger, env.pda, signer, b')), Paid(signer, amount)))
    case Close(signer) =>
      if !v.IsSol() then Err(RuntimeRefusal)
      else
        var b' :- CloseSol(v, b, env.reserve, signer);
        Ok((w.(vault := None, ledger := Settle(w.ledger, env.pda, signer, b')), Closed))
  }

  /** A transaction, or the clock moving. The vault address is derived from the
      program, so nobody can sign for it. */
  function Apply(env: Env, w: World, s: Step): Outcome
    requires Shaped(w)
  {
    if s.Tick? then
      if FitsI64(w.now + s.seconds) then Ok((w.(now := w.now + s.seconds), Ticked)) else Err(RuntimeRefusal)
    else if s.signer == env.pda then Err(RuntimeRefusal)
    else if s.Open? then ApplyOpen(env, w, s)
    else if s.Transfer? then
      var ledger :- SystemTransfer(w.ledger, s.signer, s.to, s.amount);
      Ok((w.(ledger := ledger), Sent(s.to, s.amount)))
    else if w.vault.None? then Err(RuntimeRefusal)
    else ApplyToVault(env, w, w.vault.value, s)
  }

  // ---- history, kept beside the world

  /** Lamports in and out over the life of the open vault, beyond its reserve. */
  datatype Flow = Flow(opening: nat, deposits: nat, gifts: nat, withdrawals: nat, payouts: nat)

  datatype Tracked = Tracked(w: World, books: Books, flow: Flow)

  function Held(env: Env, w: World): u64 {
    Withdrawable(At(w.ledger, env.pda), env.reserve)
  }

  function EstateOf(env: Env, t: Tracked): Estate
    requires t.w.vault.Some?
  {
    Estate(t.w.vault.value, Held(env, t.w), t.books)
  }

  function NextBooks(env: Env, t: Tracked, receipt: Receipt): Books
    requires Shaped(t.w)
  {
    if receipt.Opened? then EMPTY_BOOKS
    else if t.w.vault.None? then t.books
    else
      var heirs := t.w.vault.value.Active();
      match receipt
      case Paid(heir, amount) =>
        if IndexOf(heirs, heir).Some? then BooksAfterClaim(heirs, t.books, IndexOf(heirs, heir).value, amount)
        else t.books
      case Sent(to, amount) => if to == env.pda then BooksAfterInflow(EstateOf(env, t), amount) else t.books
      case _ => t.books
  }

  function NextFlow(env: Env, f: Flow, w': World, receipt: Receipt): Flow {
    match receipt
    case Opened => Flow(Held(env, w'), 0, 0, 0, 0)
    case Deposited(amount) => f.(deposits := f.deposits + amount)
    case Withdrawn(amount) => f.(withdrawals := f.withdrawals + amount)
    case Paid(_, amount) => f.(payouts := f.payouts + amount)
    case Sent(to, amount) => if to == env.pda then f.(gifts := f.gifts + amount) else f
    case _ => f
  }

  /** One step of a run; a refused transaction leaves no trace. */
  function Next(env: Env, t: Tracked, s: Step): Tracked
    requires Shaped(t.w)
  {
    match Apply(env, t.w, s)
    case Err(_) => t
    case Ok((w', receipt)) => Tracked(w', NextBooks(env, t, receipt), NextFlow(env, t.flow, w', receipt))
  }

  lemma NextShaped(env: Env, t: Tracked, s: Step)
    requires Shaped(t.w)
    ensures Shaped(Next(env, t, s).w)
  {
  }

  function Run(env: Env, t: Tracked, steps: seq<Step>): (r: Tracked)
    requires Shaped(t.w)
    ensures Shaped(r.w)
    decreases |steps|
  {
    if steps == [] then t
    else
      NextShaped(env, t, steps[0]);
      Run(env, Next(env, t, steps[0]), steps[1..])
  }

  lemma RunFirst(env: Env, t: Tracked, steps: seq<Step>)
    requires Shaped(t.w) && steps != []
    ensures Shaped(Next(env, t, steps[0]).w)
    ensures Run(env, t, steps) == Run(env, Next(env, t, steps[0]), steps[1..])
  {
    NextShaped(env, t, steps[0]);
  }

  /** Nothing opened yet; any balances, any time. */
  function Genesis(ledger: map<Pubkey, u64>, now: i64): Tracked {
    Tracked(World(None, ledger, now), EMPTY_BOOKS, Flow(0, 0, 0, 0, 0))
  }

  // ---- the invariant

  predicate GoodTimer(v: VaultData, now: i64) {
    && MIN_TIMEOUT_SECONDS <= v.timeoutSeconds <= MAX_TIMEOUT_SECONDS
    && v.Deadline().Ok?
    && v.lastCheckin <= now
    && (v.isClaimed ==> v.IsExpired(now) == Ok(true))
  }

  predicate FlowBalances(env: Env, t: Tracked)
    requires t.w.vault.Some? && t.w.vault.value.Shaped()
  {
    && Held(env, t.w) + t.flow.withdrawals + t.flow.payouts == t.flow.opening + t.flow.deposits + t.flow.gifts
    && t.flow.payouts == Sum(t.w.vault.value.Active(), PaidTo(t.books.paid))
  }

  /** What holds of an open vault after every run. */
  predicate Inv(env: Env, t: Tracked) {
    t.w.vault.Some? ==>
      var v := t.w.vault.value;
      && v.Shaped() && v.IsSol() && v.owner == env.owner
      && At(t.w.ledger, env.pda) >= env.reserve
      && GoodTimer(v, t.w.now)
      && Sound(EstateOf(env, t))
      && FlowBalances(env, t)
  }
}
