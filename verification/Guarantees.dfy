/** The promises the protocol makes to its users, over every run from an
    unopened address: any balances, any start time, any steps in any order. */
module Guarantees {
  import opened Base
  import opened Sums
  import opened VaultRules
  import opened Instructions
  import opened Estates
  import opened Protocol
  import opened Payouts
  import opened Safety

  ghost predicate Reachable(env: Env, t: Tracked) {
    exists ledger, now, steps :: t == Run(env, Genesis(ledger, now), steps)
  }

  /** Every run keeps the invariant: valid heir table with zeroed tail, reserve
      intact, deadline within 64 bits, and books that balance to the lamport. */
  lemma ReachableInv(env: Env, t: Tracked)
    requires Reachable(env, t)
    ensures Inv(env, t) && Shaped(t.w)
  {
    var ledger, now, steps :| t == Run(env, Genesis(ledger, now), steps);
    RunKeepsInv(env, Genesis(ledger, now), steps);
  }

  predicate Tripped(t: Tracked) {
    t.w.vault.Some? && t.w.vault.value.isClaimed
  }

  /** Exact solvency in every reachable tripped state with an unpaid heir. */
  lemma ReachableSolvency(env: Env, t: Tracked)
    requires Reachable(env, t) && Tripped(t) && t.w.vault.value.Shaped()
    requires UnpaidCount(t.w.vault.value.Active()) > 0
    ensures var v := t.w.vault.value;
            var heirs, pool := v.Active(), v.claimPool;
            && 10_000 * Held(env, t.w)
               == pool * Sum(heirs, UnpaidBps()) + Sum(heirs, Dust(pool)) + 10_000 * t.books.inflow
            && Sum(heirs, Dust(pool)) <= 9_999 * (|heirs| - UnpaidCount(heirs))
            && Sum(heirs, Owed(pool)) <= Held(env, t.w)
  {
    ReachableInv(env, t);
    Solvency(EstateOf(env, t));
  }

  /** What is movable is what came in less what went out, to the lamport. */
  lemma ReachableFlow(env: Env, t: Tracked)
    requires Reachable(env, t) && t.w.vault.Some?
    ensures At(t.w.ledger, env.pda) >= env.reserve
    ensures At(t.w.ledger, env.pda) - env.reserve
         == t.flow.opening + t.flow.deposits + t.flow.gifts - t.flow.withdrawals - t.flow.payouts
  {
    ReachableInv(env, t);
  }

  /** What a completed vault paid out, whatever else happened on the way: each
      heir the floor of their share, the sweeper at least the ceiling and at
      most the floor plus a lamport per other heir, on top of what came in
      before the sweep; in total the pool and that inflow, no more and no less. */
  lemma ReachablePayouts(env: Env, t: Tracked)
    requires Reachable(env, t) && Tripped(t) && Shaped(t.w)
    requires UnpaidCount(t.w.vault.value.Active()) == 0
    ensures t.flow.payouts == t.w.vault.value.claimPool + t.books.inflow
    ensures Held(env, t.w) == t.books.late
    ensures t.books.sweeper.Some? && t.books.sweeper.value < t.w.vault.value.count
    ensures forall i :: 0 <= i < t.w.vault.value.count ==>
              var b, pool := t.w.vault.value.slots[i], t.w.vault.value.claimPool;
              && b.address in t.books.paid
              && var got := t.books.paid[b.address];
                 if i != t.books.sweeper.value then got == pool * b.shareBps / TOTAL_SHARE_BPS
                 else (pool * b.shareBps + 9_999) / TOTAL_SHARE_BPS
                      <= got - t.books.inflow
                      <= pool * b.shareBps / TOTAL_SHARE_BPS + (t.w.vault.value.count - 1)
  {
    ReachableInv(env, t);
    CompletePayouts(EstateOf(env, t), t.books.sweeper.value);
  }

  /** Closing is safe although it never looks at the claim flags: a tripped
      vault that may be closed has paid every heir. */
  lemma CloseIsSafe(env: Env, t: Tracked, signer: Pubkey)
    requires Reachable(env, t) && Tripped(t) && Shaped(t.w) && Apply(env, t.w, Close(signer)).Ok?
    ensures forall i :: 0 <= i < t.w.vault.value.count ==> t.w.vault.value.slots[i].claimed
  {
    ReachableInv(env, t);
    EmptyMeansAllPaid(EstateOf(env, t));
  }

  lemma CloseIffInv(env: Env, t: Tracked, signer: Pubkey)
    requires Inv(env, t) && t.w.vault.Some? && Shaped(t.w) && Total(t.w.ledger) <= U64_MAX
    ensures Apply(env, t.w, Close(signer)).Ok? <==> signer == env.owner && signer != env.pda && Held(env, t.w) == 0
  {
    if signer != env.pda {
      TotalAtLeast(t.w.ledger, env.pda, signer);
    }
  }

  /** Exactly when a reachable vault can be closed; its owner gets the reserve back. */
  lemma CloseIff(env: Env, t: Tracked, signer: Pubkey)
    requires Reachable(env, t) && t.w.vault.Some? && Shaped(t.w) && Total(t.w.ledger) <= U64_MAX
    ensures Apply(env, t.w, Close(signer)).Ok? <==> signer == env.owner && signer != env.pda && Held(env, t.w) == 0
    ensures Apply(env, t.w, Close(signer)).Ok? ==>
              var w' := Apply(env, t.w, Close(signer)).value.0;
              && w'.vault.None? && At(w'.ledger, env.pda) == 0
              && At(w'.ledger, env.owner) == At(t.w.ledger, env.owner) + env.reserve
  {
    ReachableInv(env, t);
    CloseIffInv(env, t, signer);
  }

  lemma ClaimIffInv(env: Env, t: Tracked, who: Pubkey)
    requires Inv(env, t) && t.w.vault.Some? && Shaped(t.w) && Total(t.w.ledger) <= U64_MAX
    ensures Apply(env, t.w, Claim(who)).Ok? <==> who != env.pda && ClaimOn(EstateOf(env, t), who, t.w.now).Ok?
  {
    if who != env.pda {
      TotalAtLeast(t.w.ledger, env.pda, who);
    }
  }

  /** Exactly whose claim goes through in a reachable state, on the ledger. */
  lemma ClaimIff(env: Env, t: Tracked, who: Pubkey)
    requires Reachable(env, t) && t.w.vault.Some? && Shaped(t.w) && Total(t.w.ledger) <= U64_MAX
    ensures Apply(env, t.w, Claim(who)).Ok?
       <==> && who != env.pda
            && t.w.now >= t.w.vault.value.lastCheckin + t.w.vault.value.timeoutSeconds
            && Unpaid(t.w.vault.value.Active(), who)
            && (if UnpaidCount(t.w.vault.value.Active()) == 1 then Held(env, t.w) > 0
                else PoolFor(EstateOf(env, t)) * BpsOf(t.w.vault.value.Active(), who) >= TOTAL_SHARE_BPS)
  {
    ReachableInv(env, t);
    ClaimIffInv(env, t, who);
    ClaimAcceptedIff(EstateOf(env, t), who, t.w.now);
  }

  lemma ShareNeverOverflows(e: Estate, who: Pubkey, now: i64)
    requires Sound(e) && e.v.Deadline().Ok?
    ensures ClaimOn(e, who, now) != Err(MathOverflow)
  {
    var found := IndexOf(e.v.Active(), who);
    if found.Some? {
      SumAtLeast(e.v.Active(), Bps(), found.value);
      ShareOfWhole(PoolFor(e), e.v.slots[found.value].shareBps);
    }
  }

  predicate RefusedForArithmetic(outcome: Outcome) {
    outcome == Err(MathOverflow) || outcome == Err(LamportOverflow)
  }

  lemma ClaimNeverOverflows(env: Env, t: Tracked, who: Pubkey)
    requires Inv(env, t) && t.w.vault.Some? && Shaped(t.w) && Total(t.w.ledger) <= U64_MAX && who != env.pda
    ensures !RefusedForArithmetic(Apply(env, t.w, Claim(who)))
  {
    TotalAtLeast(t.w.ledger, env.pda, who);
    ShareNeverOverflows(EstateOf(env, t), who, t.w.now);
  }

  lemma OwnerMoneyNeverOverflows(env: Env, t: Tracked, s: Step)
    requires Inv(env, t) && t.w.vault.Some? && Shaped(t.w) && Total(t.w.ledger) <= U64_MAX
    requires (s.Deposit? || s.Withdraw? || s.Close?) && s.signer != env.pda
    ensures !RefusedForArithmetic(Apply(env, t.w, s))
  {
    TotalAtLeast(t.w.ledger, env.pda, s.signer);
  }

  /** With a total supply that fits 64 bits, nothing that moves money is ever
      refused for arithmetic, by the program or by the runtime. */
  lemma MoneyNeverOverflows(env: Env, t: Tracked, s: Step)
    requires Reachable(env, t) && Shaped(t.w) && Total(t.w.ledger) <= U64_MAX
    requires s.Deposit? || s.Withdraw? || s.Claim? || s.Close? || s.Transfer?
    ensures !RefusedForArithmetic(Apply(env, t.w, s))
  {
    ReachableInv(env, t);
    if s.Transfer? {
      TransferFits(t.w.ledger, s.signer, s.to, s.amount);
    } else if s.signer != env.pda && t.w.vault.Some? {
      if s.Claim? {
        ClaimNeverOverflows(env, t, s.signer);
      } else {
        OwnerMoneyNeverOverflows(env, t, s);
      }
    }
  }

  lemma TransferFits(ledger: map<Pubkey, u64>, from: Pubkey, to: Pubkey, amount: u64)
    requires Total(ledger) <= U64_MAX
    ensures SystemTransfer(ledger, from, to, amount) != Err(LamportOverflow)
    ensures SystemTransfer(ledger, from, to, amount) != Err(MathOverflow)
  {
    if from != to {
      TotalAtLeast(ledger, from, to);
    }
  }

  /** Every account but the vault's and one wallet's is as it was. */
  ghost predicate OnlyTouches(env: Env, w: World, w': World, who: Pubkey) {
    forall a: Pubkey :: a != env.pda && a != who ==> At(w'.ledger, a) == At(w.ledger, a)
  }

  /** Exactly who may take out what: the owner alone, until the first claim lands,
      any part of what is beyond the reserve; it goes to their wallet. */
  lemma WithdrawIff(env: Env, t: Tracked, who: Pubkey, amount: u64)
    requires Reachable(env, t) && t.w.vault.Some? && Shaped(t.w) && Total(t.w.ledger) <= U64_MAX
    ensures Apply(env, t.w, Withdraw(who, amount)).Ok?
       <==> who == env.owner && who != env.pda && !Tripped(t) && 0 < amount <= Held(env, t.w)
    ensures Apply(env, t.w, Withdraw(who, amount)).Ok? ==>
              var w' := Apply(env, t.w, Withdraw(who, amount)).value.0;
              && Held(env, w') == Held(env, t.w) - amount && At(w'.ledger, who) == At(t.w.ledger, who) + amount
              && OnlyTouches(env, t.w, w', who) && w'.vault == t.w.vault
  {
    ReachableInv(env, t);
    if who != env.pda {
      TotalAtLeast(t.w.ledger, env.pda, who);
      WithdrawSolIff(t.w.vault.value, BalancesOf(env, t.w, who), env.reserve, who, amount);
    }
  }

  /** ... and who may put in what: the owner alone, until then, any part of what
      their wallet holds. */
  lemma DepositIff(env: Env, t: Tracked, who: Pubkey, amount: u64)
    requires Reachable(env, t) && t.w.vault.Some? && Shaped(t.w) && Total(t.w.ledger) <= U64_MAX
    ensures Apply(env, t.w, Deposit(who, amount)).Ok?
       <==> who == env.owner && who != env.pda && !Tripped(t) && 0 < amount <= At(t.w.ledger, who)
    ensures Apply(env, t.w, Deposit(who, amount)).Ok? ==>
              var w' := Apply(env, t.w, Deposit(who, amount)).value.0;
              && Held(env, w') == Held(env, t.w) + amount && At(w'.ledger, who) == At(t.w.ledger, who) - amount
              && OnlyTouches(env, t.w, w', who) && w'.vault == t.w.vault
  {
    ReachableInv(env, t);
    if who != env.pda {
      TotalAtLeast(t.w.ledger, env.pda, who);
      DepositSolIff(t.w.vault.value, BalancesOf(env, t.w, who), who, amount);
    }
  }

  // ---- over whole continuations

  predicate PaysIn(env: Env, t: Tracked, s: Step, who: Pubkey)
    requires Shaped(t.w)
  {
    var outcome := Apply(env, t.w, s);
    outcome.Ok? && outcome.value.1.Paid? && outcome.value.1.heir == who
  }

  /** How often `who` is paid along a run. */
  function TimesPaid(env: Env, t: Tracked, steps: seq<Step>, who: Pubkey): nat
    requires Shaped(t.w)
    decreases |steps|
  {
    if steps == [] then 0
    else
      NextShaped(env, t, steps[0]);
      (if PaysIn(env, t, steps[0], who) then 1 else 0)
      + TimesPaid(env, Next(env, t, steps[0]), steps[1..], who)
  }

  /** The vault is never closed along the run. */
  predicate StaysOpen(env: Env, t: Tracked, steps: seq<Step>)
    requires Shaped(t.w)
    decreases |steps|
  {
    && t.w.vault.Some?
    && (steps != [] ==>
          (NextShaped(env, t, steps[0]);
           StaysOpen(env, Next(env, t, steps[0]), steps[1..])))
  }

  /** The clock never reaches the stored deadline along the run, because every
      check-in lands before it. */
  predicate Punctual(env: Env, t: Tracked, steps: seq<Step>)
    requires Shaped(t.w)
    decreases |steps|
  {
    && (t.w.vault.Some? ==> t.w.now < t.w.vault.value.lastCheckin + t.w.vault.value.timeoutSeconds)
    && (steps != [] ==>
          (NextShaped(env, t, steps[0]);
           Punctual(env, Next(env, t, steps[0]), steps[1..])))
  }

  predicate HasBeenPaid(v: VaultData, who: Pubkey)
    requires v.Shaped()
  {
    IndexOf(v.Active(), who).Some? && v.slots[IndexOf(v.Active(), who).value].claimed
  }

  /** What a claim may not touch, and how flags may move. */
  predicate FrozenSince(v: VaultData, v': VaultData)
    requires v.Shaped() && v'.Shaped()
  {
    && v' == v.(slots := v'.slots)
    && forall i :: 0 <= i < MAX_BENEFICIARIES ==>
         v'.slots[i] == v.slots[i].(claimed := v'.slots[i].claimed) && (v.slots[i].claimed ==> v'.slots[i].claimed)
  }

  lemma ClaimFreezes(e: Estate, who: Pubkey, now: i64)
    requires e.v.Shaped() && e.v.isClaimed && ClaimOn(e, who, now).Ok?
    ensures ClaimOn(e, who, now).value.v.isClaimed
    ensures FrozenSince(e.v, ClaimOn(e, who, now).value.v)
  {
  }

  /** Nothing but a claim or a close touches a tripped vault. */
  lemma TrippedIsLeftAlone(env: Env, t: Tracked, s: Step)
    requires Inv(env, t) && Shaped(t.w) && Tripped(t) && Next(env, t, s).w.vault.Some?
    requires !s.Claim?
    ensures Next(env, t, s).w.vault == t.w.vault
  {
  }

  lemma StepFreezes(env: Env, t: Tracked, s: Step)
    requires Inv(env, t) && Shaped(t.w) && Tripped(t) && Next(env, t, s).w.vault.Some?
    ensures Tripped(Next(env, t, s)) && Next(env, t, s).w.vault.value.Shaped()
    ensures FrozenSince(t.w.vault.value, Next(env, t, s).w.vault.value)
  {
    if !s.Claim? {
      TrippedIsLeftAlone(env, t, s);
    } else if Apply(env, t.w, s).Ok? {
      ClaimIsEstateClaim(env, t, s);
      ClaimFreezes(EstateOf(env, t), s.signer, t.w.now);
    }
  }

  /** Once tripped, frozen until closed: along every continuation the addresses,
      shares, timer and pool stay as they are, paid flags only go up, and the
      vault stays past its deadline. */
  lemma {:induction false} TrippedIsFrozen(env: Env, t: Tracked, steps: seq<Step>)
    requires Inv(env, t) && Shaped(t.w) && Tripped(t) && StaysOpen(env, t, steps)
    ensures var t' := Run(env, t, steps);
            && Tripped(t') && Shaped(t'.w)
            && FrozenSince(t.w.vault.value, t'.w.vault.value)
            && t'.w.vault.value.IsExpired(t'.w.now) == Ok(true)
    decreases |steps|
  {
    if steps != [] {
      var next := Next(env, t, steps[0]);
      NextShaped(env, t, steps[0]);
      NextKeepsInv(env, t, steps[0]);
      StepFreezes(env, t, steps[0]);
      TrippedIsFrozen(env, next, steps[1..]);
    }
  }

  function Flag(v: VaultData, who: Pubkey): nat
    requires v.Shaped()
  {
    if HasBeenPaid(v, who) then 1 else 0
  }

  /** A claim marks the claimant, who was not marked, and nobody else. */
  lemma ClaimRaisesFlag(e: Estate, claimant: Pubkey, now: i64, who: Pubkey)
    requires e.v.Shaped() && ClaimOn(e, claimant, now).Ok?
    ensures Flag(ClaimOn(e, claimant, now).value.v, who) == Flag(e.v, who) + (if who == claimant then 1 else 0)
  {
    SameAddresses(ClaimOn(e, claimant, now).value.v.Active(), e.v.Active(), who);
  }

  lemma OnlyClaimsPay(env: Env, t: Tracked, s: Step, who: Pubkey)
    requires Shaped(t.w) && PaysIn(env, t, s, who)
    ensures s.Claim? && s.signer == who
  {
  }

  lemma UnmarkedHasNoFlag(v: VaultData, who: Pubkey)
    requires v.Shaped() && forall i :: 0 <= i < v.count ==> !v.slots[i].claimed
    ensures Flag(v, who) == 0
  {
  }

  lemma SetTableKeepsFlags(env: Env, t: Tracked, s: Step, who: Pubkey)
    requires Inv(env, t) && Shaped(t.w) && t.w.vault.Some? && Next(env, t, s).w.vault.Some? && s.SetTable?
    ensures Shaped(Next(env, t, s).w)
    ensures Flag(Next(env, t, s).w.vault.value, who) == Flag(t.w.vault.value, who)
  {
    NextShaped(env, t, s);
    if Apply(env, t.w, s).Ok? {
      ArmedIsUntouched(EstateOf(env, t));
      CheckedSlotsGood(s.table, Next(env, t, s).w.vault.value);
      UnmarkedHasNoFlag(t.w.vault.value, who);
      UnmarkedHasNoFlag(Next(env, t, s).w.vault.value, who);
    }
  }

  lemma OthersKeepFlags(env: Env, t: Tracked, s: Step, who: Pubkey)
    requires Inv(env, t) && Shaped(t.w) && t.w.vault.Some? && Next(env, t, s).w.vault.Some? && !s.Claim?
    ensures Shaped(Next(env, t, s).w)
    ensures Flag(Next(env, t, s).w.vault.value, who) == Flag(t.w.vault.value, who)
  {
    NextShaped(env, t, s);
    if s.SetTable? {
      SetTableKeepsFlags(env, t, s, who);
    } else if s.Tick? || s.Transfer? || s.CheckIn? {
      assert Next(env, t, s).w.vault.value.slots == t.w.vault.value.slots;
    }
  }

  lemma StepPays(env: Env, t: Tracked, s: Step, who: Pubkey)
    requires Inv(env, t) && Shaped(t.w) && t.w.vault.Some? && Next(env, t, s).w.vault.Some?
    ensures Shaped(Next(env, t, s).w)
    ensures Flag(Next(env, t, s).w.vault.value, who)
         == Flag(t.w.vault.value, who) + (if PaysIn(env, t, s, who) then 1 else 0)
  {
    if PaysIn(env, t, s, who) {
      OnlyClaimsPay(env, t, s, who);
    }
    if !s.Claim? {
      OthersKeepFlags(env, t, s, who);
    } else if Apply(env, t.w, s).Ok? {
      ClaimIsEstateClaim(env, t, s);
      ClaimRaisesFlag(EstateOf(env, t), s.signer, t.w.now, who);
    }
  }

  /** Nobody is paid twice: as long as the vault stays open, a wallet is paid
      once if its flag went up along the run and not at all otherwise. */
  lemma {:induction false} PaidOnce(env: Env, t: Tracked, steps: seq<Step>, who: Pubkey)
    requires Inv(env, t) && Shaped(t.w) && StaysOpen(env, t, steps)
    ensures Run(env, t, steps).w.vault.Some?
    ensures TimesPaid(env, t, steps, who) == Flag(Run(env, t, steps).w.vault.value, who) - Flag(t.w.vault.value, who)
    decreases |steps|
  {
    if steps != [] {
      NextShaped(env, t, steps[0]);
      NextKeepsInv(env, t, steps[0]);
      StepPays(env, t, steps[0], who);
      PaidOnce(env, Next(env, t, steps[0]), steps[1..], who);
    }
  }

  lemma ClaimsOnlyPastDeadline(env: Env, t: Tracked, s: Step)
    requires Shaped(t.w) && Apply(env, t.w, s).Ok? && Apply(env, t.w, s).value.1.Paid?
    ensures s.Claim? && t.w.vault.Some?
    ensures t.w.vault.value.lastCheckin + t.w.vault.value.timeoutSeconds <= t.w.now
    ensures Unpaid(t.w.vault.value.Active(), s.signer)
  {
  }

  /** A punctual owner is never inherited from. */
  lemma {:induction false} PunctualOwnerKeepsAll(env: Env, t: Tracked, steps: seq<Step>, who: Pubkey)
    requires Inv(env, t) && Shaped(t.w) && Punctual(env, t, steps)
    ensures TimesPaid(env, t, steps, who) == 0
    ensures !Tripped(Run(env, t, steps))
    decreases |steps|
  {
    if steps != [] {
      NextShaped(env, t, steps[0]);
      NextKeepsInv(env, t, steps[0]);
      if Apply(env, t.w, steps[0]).Ok? && Apply(env, t.w, steps[0]).value.1.Paid? {
        ClaimsOnlyPastDeadline(env, t, steps[0]);
      }
      PunctualOwnerKeepsAll(env, Next(env, t, steps[0]), steps[1..], who);
    }
  }

  lemma StepOfTime(env: Env, t: Tracked, s: Step)
    requires Shaped(t.w)
    ensures t.w.now <= Next(env, t, s).w.now
    ensures t.w.vault.Some? && Next(env, t, s).w.vault.Some? && t.w.vault.value.lastCheckin <= t.w.now ==>
              && Next(env, t, s).w.vault.value.timeoutSeconds == t.w.vault.value.timeoutSeconds
              && Next(env, t, s).w.vault.value.lastCheckin >= t.w.vault.value.lastCheckin
  {
  }

  lemma {:induction false} ClockOnlyAdvances(env: Env, t: Tracked, steps: seq<Step>)
    requires Shaped(t.w)
    ensures t.w.now <= Run(env, t, steps).w.now
    decreases |steps|
  {
    if steps != [] {
      NextShaped(env, t, steps[0]);
      StepOfTime(env, t, steps[0]);
      ClockOnlyAdvances(env, Next(env, t, steps[0]), steps[1..]);
    }
  }

  /** A run that ends within one timeout of a check-in is punctual throughout. */
  lemma {:induction false} WithinTimeoutIsPunctual(env: Env, t: Tracked, steps: seq<Step>, since: i64)
    requires Inv(env, t) && Shaped(t.w) && StaysOpen(env, t, steps)
    requires since <= t.w.vault.value.lastCheckin
    requires Run(env, t, steps).w.now < since + t.w.vault.value.timeoutSeconds
    ensures Punctual(env, t, steps)
    decreases |steps|
  {
    ClockOnlyAdvances(env, t, steps);
    if steps != [] {
      NextShaped(env, t, steps[0]);
      NextKeepsInv(env, t, steps[0]);
      StepOfTime(env, t, steps[0]);
      WithinTimeoutIsPunctual(env, Next(env, t, steps[0]), steps[1..], since);
    }
  }

  /** A check-in buys a full timeout: whatever happens next, as long as the vault
      stays open nobody is paid and it does not trip until that long after it. */
  lemma CheckInBuysTime(env: Env, t: Tracked, signer: Pubkey, steps: seq<Step>, who: Pubkey)
    requires Inv(env, t) && Shaped(t.w) && t.w.vault.Some? && Apply(env, t.w, CheckIn(signer)).Ok?
    requires Shaped(Next(env, t, CheckIn(signer)).w) && StaysOpen(env, Next(env, t, CheckIn(signer)), steps)
    requires Run(env, Next(env, t, CheckIn(signer)), steps).w.now < t.w.now + t.w.vault.value.timeoutSeconds
    ensures signer == env.owner
    ensures TimesPaid(env, Next(env, t, CheckIn(signer)), steps, who) == 0
    ensures !Tripped(Run(env, Next(env, t, CheckIn(signer)), steps))
  {
    var t' := Next(env, t, CheckIn(signer));
    NextKeepsInv(env, t, CheckIn(signer));
    WithinTimeoutIsPunctual(env, t', steps, t.w.now);
    PunctualOwnerKeepsAll(env, t', steps, who);
  }

  /** Three ways of saying the switch has tripped. */
  lemma TrippedIff(env: Env, t: Tracked)
    requires Reachable(env, t) && t.w.vault.Some? && Shaped(t.w)
    ensures var v := t.w.vault.value;
            && (v.isClaimed <==> v.claimPool > 0)
            && (v.isClaimed <==> SomeonePaid(v.Active()))
  {
    ReachableInv(env, t);
    if !t.w.vault.value.isClaimed {
      ArmedIsUntouched(EstateOf(env, t));
    }
  }

  // ---- the heirs empty the vault

  function ClaimsBy(order: seq<Pubkey>): seq<Step> {
    seq(|order|, k requires 0 <= k < |order| => Claim(order[k]))
  }

  function Queued(order: seq<Pubkey>, now: i64): seq<(Pubkey, i64)> {
    seq(|order|, k requires 0 <= k < |order| => (order[k], now))
  }

  lemma DrainStep(env: Env, t: Tracked, order: seq<Pubkey>)
    requires Inv(env, t) && t.w.vault.Some? && Shaped(t.w) && Total(t.w.ledger) <= U64_MAX
    requires order != [] && order[0] != env.pda && ClaimOn(EstateOf(env, t), order[0], t.w.now).Ok?
    ensures var t' := Next(env, t, Claim(order[0]));
            && Inv(env, t') && t'.w.vault.Some? && Shaped(t'.w) && Total(t'.w.ledger) <= U64_MAX
            && EstateOf(env, t') == ClaimOn(EstateOf(env, t), order[0], t.w.now).value
            && t'.w.now == t.w.now
  {
    var s := Claim(order[0]);
    ClaimIffInv(env, t, order[0]);
    NextShaped(env, t, s);
    NextKeepsInv(env, t, s);
    StepConserves(env, t.w, s);
    ClaimIsEstateClaim(env, t, s);
  }

  predicate Drained(env: Env, t: Tracked) {
    && Inv(env, t) && t.w.vault.Some?
    && Held(env, t.w) == 0
    && AllPaid(EstateOf(env, t))
  }

  /** A refused claim changes nothing; so an heir passed over in a run of
      claims that does not name them again stays unpaid. */
  lemma {:induction false} PassedOverStaysUnpaid(env: Env, t: Tracked, order: seq<Pubkey>, who: Pubkey)
    requires Inv(env, t) && t.w.vault.Some? && Shaped(t.w)
    requires Unpaid(t.w.vault.value.Active(), who) && who !in order
    ensures !Drained(env, Run(env, t, ClaimsBy(order)))
    decreases |order|
  {
    if order == [] {
      SomeUnpaid(t.w.vault.value.Active(), IndexOf(t.w.vault.value.Active(), who).value);
    } else {
      var s := Claim(order[0]);
      assert ClaimsBy(order)[0] == s && ClaimsBy(order)[1..] == ClaimsBy(order[1..]);
      NextShaped(env, t, s);
      NextKeepsInv(env, t, s);
      if Apply(env, t.w, s).Ok? {
        ClaimIsEstateClaim(env, t, s);
        ClaimLeavesOthers(EstateOf(env, t), order[0], t.w.now, who);
      }
      PassedOverStaysUnpaid(env, Next(env, t, s), order[1..], who);
    }
  }

  lemma FirstOfQueue(order: seq<Pubkey>, now: i64)
    requires order != []
    ensures Queued(order, now)[0] == (order[0], now) && Queued(order, now)[1..] == Queued(order[1..], now)
    ensures ClaimsBy(order)[0] == Claim(order[0]) && ClaimsBy(order)[1..] == ClaimsBy(order[1..])
  {
  }

  /** There is something to share, everyone listed can sign, and no share but the
      last one's rounds to nothing. */
  predicate MayDrain(e: Estate, pda: Pubkey, order: seq<Pubkey>, now: i64)
    requires e.v.Shaped()
  {
    PoolFor(e) > 0 && pda !in order && OnlyLastMayRound(e, Queued(order, now))
  }

  lemma FirstClaimIff(env: Env, t: Tracked, order: seq<Pubkey>)
    requires Inv(env, t) && t.w.vault.Some? && Shaped(t.w) && Total(t.w.ledger) <= U64_MAX
    requires order != [] && Queue(EstateOf(env, t), Queued(order, t.w.now))
    ensures MayDrain(EstateOf(env, t), env.pda, order, t.w.now) ==> Apply(env, t.w, Claim(order[0])).Ok?
    ensures |order| == 1 && Apply(env, t.w, Claim(order[0])).Ok? ==> MayDrain(EstateOf(env, t), env.pda, order, t.w.now)
    ensures Apply(env, t.w, Claim(order[0])).Ok?
       ==> order[0] != env.pda && ClaimOn(EstateOf(env, t), order[0], t.w.now).Ok?
  {
    FirstOfQueue(order, t.w.now);
    HeadIsPaidIff(EstateOf(env, t), Queued(order, t.w.now));
    ClaimIffInv(env, t, order[0]);
  }

  lemma FirstPaidAdvances(e: Estate, pda: Pubkey, order: seq<Pubkey>, now: i64)
    requires Sound(e) && order != [] && Queue(e, Queued(order, now))
    requires order[0] != pda && ClaimOn(e, order[0], now).Ok?
    ensures var e' := ClaimOn(e, order[0], now).value;
            && Queue(e', Queued(order[1..], now))
            && (MayDrain(e', pda, order[1..], now) <==> MayDrain(e, pda, order, now))
            && (|order| == 1 ==> e'.held == 0 && AllPaid(e'))
  {
    var queue := Queued(order, now);
    FirstOfQueue(order, now);
    HeadPaidAdvances(e, queue);
    InSplits(order, pda);
  }

  lemma InSplits<T>(s: seq<T>, x: T)
    requires s != []
    ensures x in s <==> s[0] == x || x in s[1..]
  {
    assert s == [s[0]] + s[1..];
  }

  lemma FirstRefused(env: Env, t: Tracked, order: seq<Pubkey>)
    requires Inv(env, t) && t.w.vault.Some? && Shaped(t.w)
    requires order != [] && Queue(EstateOf(env, t), Queued(order, t.w.now))
    ensures !Drained(env, Run(env, t, ClaimsBy(order[1..])))
  {
    var queue := Queued(order, t.w.now);
    FirstOfQueue(order, t.w.now);
    forall k | 0 < k < |order| ensures order[k] != order[0] {
      assert queue[0].0 != queue[k].0;
    }
    PassedOverStaysUnpaid(env, t, order[1..], order[0]);
  }

  /** The heirs need nobody. Past the deadline the claims of all the unpaid
      heirs, one each in a given order, pay everyone and empty the vault to
      exactly its reserve iff there is something to share, every one of them can
      sign, and no share but the last one's rounds to nothing. */
  lemma {:induction false} HeirsDrainVault(env: Env, t: Tracked, order: seq<Pubkey>)
    requires Inv(env, t) && t.w.vault.Some? && Shaped(t.w) && Total(t.w.ledger) <= U64_MAX
    requires order != [] && Queue(EstateOf(env, t), Queued(order, t.w.now))
    ensures Drained(env, Run(env, t, ClaimsBy(order))) <==> MayDrain(EstateOf(env, t), env.pda, order, t.w.now)
    decreases |order|
  {
    FirstOfQueue(order, t.w.now);
    FirstClaimIff(env, t, order);
    RunFirst(env, t, ClaimsBy(order));
    if Apply(env, t.w, Claim(order[0])).Ok? {
      DrainStep(env, t, order);
      FirstPaidAdvances(EstateOf(env, t), env.pda, order, t.w.now);
      if |order| > 1 {
        HeirsDrainVault(env, Next(env, t, Claim(order[0])), order[1..]);
      } else {
        assert ClaimsBy(order[1..]) == [];
      }
    } else {
      FirstRefused(env, t, order);
    }
  }
}
