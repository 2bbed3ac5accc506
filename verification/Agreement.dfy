/** The keeper and the program give the same verdicts on the same vault. */
module Agreement {
  import opened Base
  import opened VaultRules
  import I = Instructions
  import opened Estates
  import opened Payouts
  import Protocol
  import Guarantees
  import opened KeeperVaults
  import T = Thresholds
  import R = Reminders
  import L = Layout
  import D = Decoding
  import Tiny = TinyVault

  datatype Refusal = NotNamed | AlreadyTaken | TooEarly | NotTheOwner | AlreadyTriggered

  // ---- the link server's guards

  function ClaimGuard(v: KeeperVault, account: Pubkey, now: Time): Result<(), Refusal> {
    match IndexOf(v.beneficiaries, account)
    case None => Err(NotNamed)
    case Some(i) =>
      if v.beneficiaries[i].claimed then Err(AlreadyTaken)
      else if v.TimeLeft(now) > 0 then Err(TooEarly)
      else Ok(())
  }

  /** The checks made before a claim transaction is handed out. */
  method PostClaim(v: KeeperVault, account: Pubkey, now: Time) returns (r: Result<(), Refusal>)
    ensures r == ClaimGuard(v, account, now)
  {
    var index := v.Index(account);
    if index < 0 {
      return Err(NotNamed);
    }
    if v.beneficiaries[index].claimed {
      return Err(AlreadyTaken);
    }
    if v.TimeLeft(now) > 0 {
      return Err(TooEarly);
    }
    return Ok(());
  }

  /** The checks made before a check-in transaction is handed out. */
  function CheckInGuard(v: KeeperVault, account: Pubkey): Result<(), Refusal> {
    if account != v.owner then Err(NotTheOwner)
    else if v.isClaimed then Err(AlreadyTriggered)
    else Ok(())
  }

  predicate TimerInRange(v: VaultData) {
    MIN_TIMEOUT_SECONDS <= v.timeoutSeconds <= MAX_TIMEOUT_SECONDS && v.Deadline().Ok?
  }

  /** The two verdicts on a claim concur: both let it through, or they object
      to the same thing, save that the program looks at the timer first. */
  predicate Concur<T>(server: Result<(), Refusal>, chain: Result<T, DmsError>) {
    match server
    case Ok(_) => chain.Ok?
    case Err(TooEarly) => chain == Err(TimeoutNotReached)
    case Err(NotNamed) => chain == Err(Unauthorized) || chain == Err(TimeoutNotReached)
    case Err(AlreadyTaken) => chain == Err(DmsError.AlreadyClaimed) || chain == Err(TimeoutNotReached)
    case Err(_) => false
  }

  lemma WholeSeconds(deadline: int, at: Time)
    ensures deadline * SECOND <= at <==> deadline <= at / SECOND
  {
  }

  /** At every instant of the server's nanosecond clock its verdict on a claim
      is the program's at the whole second that instant falls in. */
  lemma ClaimGuardAgrees(address: Pubkey, v: VaultData, who: Pubkey, at: Time, pool: u64)
    requires v.Shaped() && TimerInRange(v) && FitsI64(at / SECOND)
    ensures Concur(ClaimGuard(L.View(address, v), who, at), AuthorizeClaim(v, who, at / SECOND, pool))
  {
    D.TimeoutConvertsExactly(address, v);
    WholeSeconds(v.lastCheckin + v.timeoutSeconds, at);
  }

  /** Each reason the server gives, exactly: the wallet is not listed; else it is
      paid already; else the deadline is still ahead. */
  lemma ClaimGuardReasons(address: Pubkey, v: VaultData, who: Pubkey, at: Time)
    requires v.Shaped() && TimerInRange(v)
    ensures ClaimGuard(L.View(address, v), who, at) == Err(NotNamed)
       <==> forall i :: 0 <= i < v.count ==> v.slots[i].address != who
    ensures ClaimGuard(L.View(address, v), who, at) == Err(AlreadyTaken)
       <==> exists i :: 0 <= i < v.count && FirstListed(v, who, i) && v.slots[i].claimed
    ensures ClaimGuard(L.View(address, v), who, at) == Err(TooEarly)
       <==> && (exists i :: 0 <= i < v.count && FirstListed(v, who, i) && !v.slots[i].claimed)
            && at < (v.lastCheckin + v.timeoutSeconds) * SECOND
    ensures ClaimGuard(L.View(address, v), who, at).Ok?
       <==> && (exists i :: 0 <= i < v.count && FirstListed(v, who, i) && !v.slots[i].claimed)
            && (v.lastCheckin + v.timeoutSeconds) * SECOND <= at
  {
    D.TimeoutConvertsExactly(address, v);
    assert L.View(address, v).beneficiaries == v.Active();
    match IndexOf(v.Active(), who)
    case Some(i) =>
      assert FirstListed(v, who, i);
      assert forall k :: 0 <= k < v.count && FirstListed(v, who, k) ==> k == i;
    case None =>
      assert forall k :: 0 <= k < v.count ==> v.slots[k] == v.Active()[k];
  }

  /** The server's verdict on a check-in is that of the program's constraints,
      reason for reason; what is left to the program is the new deadline. */
  lemma CheckInGuardAgrees(address: Pubkey, v: VaultData, signer: Pubkey, now: i64)
    requires v.Shaped()
    ensures match CheckInGuard(L.View(address, v), signer)
            case Ok(_) => I.OwnerGate(v, signer) == Ok(())
            case Err(NotTheOwner) => I.OwnerGate(v, signer) == Err(Unauthorized)
            case Err(AlreadyTriggered) => I.OwnerGate(v, signer) == Err(VaultTriggered)
            case Err(_) => false
    ensures I.CheckIn(v, signer, now).Ok?
       <==> CheckInGuard(L.View(address, v), signer).Ok? && FitsI64(now + v.timeoutSeconds)
  {
  }

  /** For every reachable vault, read back from the bytes the program stores, at
      every instant: the server's verdicts are the program's, reasons included. */
  lemma ReachableVerdictsAgree(env: Protocol.Env, t: Protocol.Tracked, padding: L.Bytes,
                               who: Pubkey, at: Time, pool: u64)
    requires Guarantees.Reachable(env, t) && t.w.vault.Some? && FitsI64(at / SECOND)
    ensures t.w.vault.value.Shaped()
    ensures var v, decoded := t.w.vault.value, L.ParseVault(env.pda, L.Encode(t.w.vault.value) + padding);
            && decoded.Ok?
            && Concur(ClaimGuard(decoded.value, who, at), AuthorizeClaim(v, who, at / SECOND, pool))
            && (CheckInGuard(decoded.value, who).Ok? <==> I.OwnerGate(v, who).Ok?)
            && (CheckInGuard(decoded.value, who) == Err(NotTheOwner) <==> I.OwnerGate(v, who) == Err(Unauthorized))
  {
    Guarantees.ReachableInv(env, t);
    var v := t.w.vault.value;
    D.DecodeInvertsEncode(env.pda, v, padding);
    ClaimGuardAgrees(env.pda, v, who, at, pool);
  }

  lemma GuardedCoreIff(e: Estate, address: Pubkey, who: Pubkey, at: Time)
    requires Sound(e) && TimerInRange(e.v) && FitsI64(at / SECOND)
    ensures ClaimOn(e, who, at / SECOND).Ok?
       <==> ClaimGuard(L.View(address, e.v), who, at).Ok? && HasSomethingToTake(e, who)
    ensures ClaimGuard(L.View(address, e.v), who, at).Ok? && !HasSomethingToTake(e, who)
        ==> ClaimOn(e, who, at / SECOND) == Err(InsufficientFunds)
  {
    ClaimAcceptedIff(e, who, at / SECOND);
    ClaimGuardAgrees(address, e.v, who, at, e.held);
    if Unpaid(e.v.Active(), who) {
      ShareIsCovered(e, IndexOf(e.v.Active(), who).value);
    }
  }

  /** The last unpaid heir has something to sweep, any other one a share that
      does not round to nothing. */
  predicate HasSomethingToTake(e: Estate, who: Pubkey)
    requires e.v.Shaped()
  {
    if UnpaidCount(e.v.Active()) == 1 then e.held > 0 else !RoundsToNothing(e, who)
  }

  /** What the server does not check. It hands out `claim_sol` whatever asset the
      vault holds. So the transaction it lets through is accepted on chain iff
      the vault holds SOL and there is something for the heir to take; and what
      refuses it otherwise is the asset, else the funds. */
  lemma GuardedClaimGoesThroughIff(e: Estate, b: I.Balances, reserve: u64, address: Pubkey, who: Pubkey, at: Time)
    requires Sound(e) && TimerInRange(e.v) && FitsI64(at / SECOND)
    requires e.held == I.Withdrawable(b.vault, reserve) && b.vault + b.wallet <= U64_MAX
    ensures I.ClaimSol(e.v, b, reserve, who, at / SECOND).Ok?
       <==> ClaimGuard(L.View(address, e.v), who, at).Ok? && e.v.IsSol() && HasSomethingToTake(e, who)
    ensures ClaimGuard(L.View(address, e.v), who, at).Ok? && I.ClaimSol(e.v, b, reserve, who, at / SECOND).Err?
        ==> I.ClaimSol(e.v, b, reserve, who, at / SECOND)
            == Err(if e.v.IsSol() then InsufficientFunds else NotSolVault)
  {
    GuardedCoreIff(e, address, who, at);
  }

  /** A token vault the server is wrong about: past its deadline it lets the first
      heir through, the token claim would be accepted, and the transaction handed
      out is refused whatever the balances are. */
  lemma TokenHeirIsMisled(b: I.Balances, reserve: u64)
    ensures var e := Tiny.TinyTokenEstate();
            && Sound(e)
            && ClaimGuard(L.View(Tiny.Key(8), e.v), Tiny.Key(1), MIN_TIMEOUT_SECONDS * SECOND).Ok?
            && I.ClaimSpl(e.v, e.held, Tiny.Key(1), MIN_TIMEOUT_SECONDS).Ok?
            && I.ClaimSol(e.v, b, reserve, Tiny.Key(1), MIN_TIMEOUT_SECONDS) == Err(NotSolVault)
  {
    var e := Tiny.TinyTokenEstate();
    Tiny.TinyTokenIsSound();
    GuardedCoreIff(e, Tiny.Key(8), Tiny.Key(1), MIN_TIMEOUT_SECONDS * SECOND);
    TokenClaimIsEstateClaim(e, Tiny.Key(1), MIN_TIMEOUT_SECONDS);
  }

  // ---- status and reminders

  /** With "due soon" set to the first of the configured thresholds, the status
      the API shows is the branch the tracker takes. */
  lemma StatusMatchesTracker(ths: seq<Duration>, v: KeeperVault, now: Time)
    requires ths != [] && T.Descending(ths) && T.Positive(ths)
    ensures StatusOf(v, now, ths[0]).Triggered? <==> v.isClaimed
    ensures StatusOf(v, now, ths[0]).Expired? <==> !v.isClaimed && v.TimeLeft(now) <= 0
    ensures StatusOf(v, now, ths[0]).DueSoon?
       <==> !v.isClaimed && v.TimeLeft(now) > 0 && R.Crossed(ths, v.TimeLeft(now)) != 0
    ensures NeedsAttention(StatusOf(v, now, ths[0])) <==> !v.isClaimed && R.Level(ths, v.TimeLeft(now)).Some?
  {
    R.CrossedIsLeast(ths, v.TimeLeft(now));
    assert ths[0] in ths;
  }

  /** So every reminder carries the status the API would show. */
  lemma ReminderStatusMatches(ths: seq<Duration>, st: Option<R.Epoch>, v: KeeperVault, now: Time)
    requires ths != [] && T.Descending(ths) && T.Positive(ths)
    requires R.DueVault(ths, st, v, now).1.Some?
    ensures R.DueVault(ths, st, v, now).1.value.status == StatusOf(v, now, ths[0])
  {
    StatusMatchesTracker(ths, v, now);
  }

  /** A tracker built from loaded thresholds watches exactly those, in that order. */
  lemma LoadedThresholdsAreKept(ths: seq<Duration>)
    requires T.Descending(ths) && T.Positive(ths)
    ensures T.SortDescending(T.PositiveOnly(ths)) == ths
  {
    T.SortedIsPermutation(ths);
    T.SortedIsUnique(ths, T.SortDescending(ths));
  }
}
