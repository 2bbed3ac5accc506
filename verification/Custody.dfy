/** Whose hands move the money and the timer, over every run. */
module Custody {
  import opened Base
  import opened Sums
  import opened VaultRules
  import opened Instructions
  import opened Estates
  import opened Protocol
  import opened Safety
  import opened Guarantees

  // ---- money

  /** What one step takes out of the open vault: an owner's withdrawal, or what an
      heir is paid. */
  function TakenBy(env: Env, t: Tracked, s: Step): nat
    requires Shaped(t.w)
  {
    match Apply(env, t.w, s)
    case Ok((_, Withdrawn(amount))) => if s.Withdraw? && s.signer == env.owner then amount else 0
    case Ok((_, Paid(_, amount))) => amount
    case _ => 0
  }

  /** What one step puts in: an owner's deposit, or a transfer from anyone. */
  function PutBy(env: Env, t: Tracked, s: Step): nat
    requires Shaped(t.w)
  {
    match Apply(env, t.w, s)
    case Ok((_, Deposited(amount))) => if s.Deposit? && s.signer == env.owner then amount else 0
    case Ok((_, Sent(to, amount))) => if to == env.pda then amount else 0
    case _ => 0
  }

  lemma ClaimMovesHeld(env: Env, t: Tracked, s: Step)
    requires Inv(env, t) && Shaped(t.w) && t.w.vault.Some? && s.Claim? && Apply(env, t.w, s).Ok?
    ensures Held(env, Next(env, t, s).w) + TakenBy(env, t, s) == Held(env, t.w) && PutBy(env, t, s) == 0
  {
    ClaimIsEstateClaim(env, t, s);
  }

  lemma OwnerMoneyMovesHeld(env: Env, t: Tracked, s: Step)
    requires Inv(env, t) && Shaped(t.w) && t.w.vault.Some? && (s.Deposit? || s.Withdraw?) && Apply(env, t.w, s).Ok?
    ensures s.signer == env.owner && !Tripped(t)
    ensures Held(env, Next(env, t, s).w) + TakenBy(env, t, s) == Held(env, t.w) + PutBy(env, t, s)
  {
  }

  lemma TransferMovesHeld(env: Env, t: Tracked, s: Step)
    requires Inv(env, t) && Shaped(t.w) && t.w.vault.Some? && s.Transfer? && Apply(env, t.w, s).Ok?
    ensures Held(env, Next(env, t, s).w) == Held(env, t.w) + PutBy(env, t, s) && TakenBy(env, t, s) == 0
  {
    TransferMoves(t.w.ledger, s.signer, s.to, s.amount);
  }

  /** A transfer moves the amount from one account to the other, touching no third. */
  lemma TransferMoves(ledger: map<Pubkey, u64>, from: Pubkey, to: Pubkey, amount: u64)
    requires SystemTransfer(ledger, from, to, amount).Ok?
    ensures var ledger' := SystemTransfer(ledger, from, to, amount).value;
            && amount <= At(ledger, from)
            && At(ledger', to) == At(ledger, to) + (if from == to then 0 else amount)
            && At(ledger', from) == At(ledger, from) - (if from == to then 0 else amount)
            && forall a: Pubkey :: a != from && a != to ==> At(ledger', a) == At(ledger, a)
  {
  }

  lemma RestMovesNothing(env: Env, t: Tracked, s: Step)
    requires Inv(env, t) && Shaped(t.w) && t.w.vault.Some? && Next(env, t, s).w.vault.Some?
    requires Apply(env, t.w, s).Err? || s.CheckIn? || s.SetTable? || s.Tick? || s.Open?
    ensures Held(env, Next(env, t, s).w) == Held(env, t.w) && TakenBy(env, t, s) == 0 && PutBy(env, t, s) == 0
  {
  }

  lemma StepBalances(env: Env, t: Tracked, s: Step)
    requires Inv(env, t) && Shaped(t.w) && t.w.vault.Some? && Next(env, t, s).w.vault.Some?
    ensures Held(env, Next(env, t, s).w) + TakenBy(env, t, s) == Held(env, t.w) + PutBy(env, t, s)
  {
    if Apply(env, t.w, s).Err? {
      RestMovesNothing(env, t, s);
    } else {
      match s
      case Claim(_) => ClaimMovesHeld(env, t, s);
      case Deposit(_, _) => OwnerMoneyMovesHeld(env, t, s);
      case Withdraw(_, _) => OwnerMoneyMovesHeld(env, t, s);
      case Transfer(_, _, _) => TransferMovesHeld(env, t, s);
      case Close(_) => assert false;
      case _ => RestMovesNothing(env, t, s);
    }
  }

  lemma OnlyTwoTake(env: Env, t: Tracked, s: Step)
    requires Shaped(t.w) && TakenBy(env, t, s) > 0
    ensures Apply(env, t.w, s).Ok? && (s.Claim? || (s.Withdraw? && s.signer == env.owner))
  {
  }

  lemma WithdrawnIntoWallet(env: Env, t: Tracked, s: Step)
    requires Inv(env, t) && Shaped(t.w) && t.w.vault.Some? && s.Withdraw? && Apply(env, t.w, s).Ok?
    ensures At(Next(env, t, s).w.ledger, s.signer)
         == At(t.w.ledger, s.signer) + (Held(env, t.w) - Held(env, Next(env, t, s).w))
  {
  }

  lemma PaidIntoWallet(env: Env, t: Tracked, s: Step)
    requires Inv(env, t) && Shaped(t.w) && t.w.vault.Some? && s.Claim? && Apply(env, t.w, s).Ok?
    ensures At(Next(env, t, s).w.ledger, s.signer)
         == At(t.w.ledger, s.signer) + (Held(env, t.w) - Held(env, Next(env, t, s).w))
  {
    ClaimIsEstateClaim(env, t, s);
  }

  lemma ClaimByHeirOnly(env: Env, t: Tracked, s: Step)
    requires Inv(env, t) && Shaped(t.w) && t.w.vault.Some? && s.Claim? && Apply(env, t.w, s).Ok?
    ensures Unpaid(t.w.vault.value.Active(), s.signer)
    ensures t.w.vault.value.lastCheckin + t.w.vault.value.timeoutSeconds <= t.w.now
  {
    ClaimIsEstateClaim(env, t, s);
    ClaimsOnlyPastDeadline(env, t, s);
  }

  /** The owner withdraws before the first claim, or an unpaid heir claims past the
      deadline, and what the vault loses the signer's wallet gains. */
  predicate MovedByRight(env: Env, t: Tracked, s: Step)
    requires Shaped(t.w) && t.w.vault.Some?
  {
    var v := t.w.vault.value;
    && (if s.Withdraw? then s.signer == env.owner && !Tripped(t)
        else s.Claim? && Unpaid(v.Active(), s.signer) && v.lastCheckin + v.timeoutSeconds <= t.w.now)
    && At(Next(env, t, s).w.ledger, s.signer)
       == At(t.w.ledger, s.signer) + (Held(env, t.w) - Held(env, Next(env, t, s).w))
  }

  /** What an open vault holds falls only by its owner's withdrawal before the
      first claim, or by the claim of an unpaid heir past the deadline; and what
      leaves it goes to the one who signed. */
  lemma HeldFallsOnlyTo(env: Env, t: Tracked, s: Step)
    requires Inv(env, t) && Shaped(t.w) && t.w.vault.Some? && Next(env, t, s).w.vault.Some?
    ensures Held(env, Next(env, t, s).w) < Held(env, t.w) ==> MovedByRight(env, t, s)
  {
    StepBalances(env, t, s);
    if TakenBy(env, t, s) > 0 {
      OnlyTwoTake(env, t, s);
      if s.Claim? {
        ClaimByHeirOnly(env, t, s);
        PaidIntoWallet(env, t, s);
      } else {
        OwnerMoneyMovesHeld(env, t, s);
        WithdrawnIntoWallet(env, t, s);
      }
    }
  }

  function TakenOut(env: Env, t: Tracked, steps: seq<Step>): nat
    requires Shaped(t.w)
    decreases |steps|
  {
    if steps == [] then 0
    else
      NextShaped(env, t, steps[0]);
      TakenBy(env, t, steps[0]) + TakenOut(env, Next(env, t, steps[0]), steps[1..])
  }

  function PutIn(env: Env, t: Tracked, steps: seq<Step>): nat
    requires Shaped(t.w)
    decreases |steps|
  {
    if steps == [] then 0
    else
      NextShaped(env, t, steps[0]);
      PutBy(env, t, steps[0]) + PutIn(env, Next(env, t, steps[0]), steps[1..])
  }

  /** Custody. Over any run of an open vault, by anyone, what it holds changes by
      exactly what its owner and others put in, less what its owner withdrew and
      its heirs were paid. */
  lemma {:induction false} RunBalances(env: Env, t: Tracked, steps: seq<Step>)
    requires Inv(env, t) && Shaped(t.w) && StaysOpen(env, t, steps)
    ensures Held(env, Run(env, t, steps).w) + TakenOut(env, t, steps) == Held(env, t.w) + PutIn(env, t, steps)
    decreases |steps|
  {
    if steps != [] {
      RunFirst(env, t, steps);
      NextKeepsInv(env, t, steps[0]);
      StepBalances(env, t, steps[0]);
      RunBalances(env, Next(env, t, steps[0]), steps[1..]);
    }
  }

  // ---- opening

  /** Exactly who may open the vault, and what it costs: its owner, with the
      vault's own id, a valid table and a timeout in range, able to top the
      account up to its reserve; and that much leaves their wallet. */
  lemma OpenIff(env: Env, t: Tracked, who: Pubkey, id: u64, timeout: i64, table: seq<BeneficiaryInput>)
    requires Shaped(t.w) && Total(t.w.ledger) <= U64_MAX
    ensures var needed := if At(t.w.ledger, env.pda) < env.reserve then env.reserve - At(t.w.ledger, env.pda) else 0;
            && (Apply(env, t.w, Open(who, id, timeout, table)).Ok?
                <==> && t.w.vault.None? && who == env.owner && who != env.pda && id == env.vaultId
                     && MIN_TIMEOUT_SECONDS <= timeout <= MAX_TIMEOUT_SECONDS && FitsI64(t.w.now + timeout)
                     && ValidTable(Heirs(table)) && needed <= At(t.w.ledger, who))
            && (Apply(env, t.w, Open(who, id, timeout, table)).Ok? ==>
                  var w' := Apply(env, t.w, Open(who, id, timeout, table)).value.0;
                  && w'.vault.Some? && w'.now == t.w.now
                  && At(w'.ledger, who) == At(t.w.ledger, who) - needed
                  && At(w'.ledger, env.pda) == At(t.w.ledger, env.pda) + needed
                  && OnlyTouches(env, t.w, w', who))
  {
    if who != env.pda {
      TotalAtLeast(t.w.ledger, env.pda, who);
      InitializeIff(who, id, None, timeout, table, t.w.now, env.bump);
    }
  }

  // ---- owner edits

  /** Exactly who may replace the table, and with what: the owner alone, before the
      first claim, with a valid one; the heirs are then those, and no money moves. */
  lemma SetTableIff(env: Env, t: Tracked, who: Pubkey, table: seq<BeneficiaryInput>)
    requires Reachable(env, t) && t.w.vault.Some? && Shaped(t.w)
    ensures Apply(env, t.w, SetTable(who, table)).Ok?
       <==> who == env.owner && who != env.pda && !Tripped(t) && ValidTable(Heirs(table))
    ensures Apply(env, t.w, SetTable(who, table)).Ok? ==>
              var w' := Apply(env, t.w, SetTable(who, table)).value.0;
              && w'.vault.Some? && w'.vault.value.Shaped() && w'.vault.value.Active() == Heirs(table)
              && SameTerms(t.w.vault.value, w'.vault.value)
              && w'.vault.value.lastCheckin == t.w.vault.value.lastCheckin
              && w'.ledger == t.w.ledger && w'.now == t.w.now
  {
    ReachableInv(env, t);
    SetBeneficiariesIff(t.w.vault.value, who, table);
  }

  /** Exactly who may check in, and what it does: the owner alone, before the first
      claim; the last check-in is then now, and nothing else moves. */
  lemma LedgerCheckInIff(env: Env, t: Tracked, who: Pubkey)
    requires Reachable(env, t) && t.w.vault.Some? && Shaped(t.w)
    ensures Apply(env, t.w, CheckIn(who)).Ok?
       <==> && who == env.owner && who != env.pda && !Tripped(t)
            && FitsI64(t.w.now + t.w.vault.value.timeoutSeconds)
    ensures Apply(env, t.w, CheckIn(who)).Ok? ==>
              Apply(env, t.w, CheckIn(who)).value.0
              == t.w.(vault := Some(t.w.vault.value.(lastCheckin := t.w.now)))
  {
    ReachableInv(env, t);
    CheckInIff(t.w.vault.value, who, t.w.now);
  }

  // ---- the timer

  /** When the owner was last heard of at the end of a run: at its latest accepted
      check-in, or at `since` when there was none. */
  function LastHeard(env: Env, t: Tracked, steps: seq<Step>, since: i64): i64
    requires Shaped(t.w)
    decreases |steps|
  {
    if steps == [] then since
    else
      NextShaped(env, t, steps[0]);
      LastHeard(env, Next(env, t, steps[0]), steps[1..],
                if steps[0].CheckIn? && Apply(env, t.w, steps[0]).Ok? then t.w.now else since)
  }

  /** The identity and the timeout an open vault was given. */
  predicate SameTerms(v: VaultData, v': VaultData) {
    && v'.owner == v.owner && v'.vaultId == v.vaultId && v'.mint == v.mint && v'.bump == v.bump
    && v'.timeoutSeconds == v.timeoutSeconds
  }

  lemma StepKeepsTerms(env: Env, t: Tracked, s: Step)
    requires Inv(env, t) && Shaped(t.w) && t.w.vault.Some? && Next(env, t, s).w.vault.Some?
    ensures SameTerms(t.w.vault.value, Next(env, t, s).w.vault.value)
    ensures Next(env, t, s).w.vault.value.lastCheckin
         == if s.CheckIn? && Apply(env, t.w, s).Ok? then t.w.now else t.w.vault.value.lastCheckin
  {
    if Apply(env, t.w, s).Ok? {
      if s.CheckIn? {
        CheckInIff(t.w.vault.value, s.signer, t.w.now);
      } else if s.SetTable? {
        SetBeneficiariesIff(t.w.vault.value, s.signer, s.table);
      } else if s.Claim? {
        ClaimIsEstateClaim(env, t, s);
        ClaimPays(t.w.vault.value, s.signer, t.w.now, Held(env, t.w));
      }
    }
  }

  /** While a vault stays open its terms never change, and its last check-in is
      when the owner was last heard of. */
  lemma {:induction false} RunKeepsTerms(env: Env, t: Tracked, steps: seq<Step>)
    requires Inv(env, t) && Shaped(t.w) && StaysOpen(env, t, steps)
    ensures Run(env, t, steps).w.vault.Some?
    ensures SameTerms(t.w.vault.value, Run(env, t, steps).w.vault.value)
    ensures Run(env, t, steps).w.vault.value.lastCheckin == LastHeard(env, t, steps, t.w.vault.value.lastCheckin)
    decreases |steps|
  {
    if steps != [] {
      RunFirst(env, t, steps);
      NextKeepsInv(env, t, steps[0]);
      StepKeepsTerms(env, t, steps[0]);
      RunKeepsTerms(env, Next(env, t, steps[0]), steps[1..]);
    }
  }

  lemma OpenedTerms(env: Env, t: Tracked, s: Step)
    requires Inv(env, t) && Shaped(t.w) && s.Open? && Apply(env, t.w, s).Ok?
    ensures Inv(env, Next(env, t, s)) && Shaped(Next(env, t, s).w) && Next(env, t, s).w.vault.Some?
    ensures var v := Next(env, t, s).w.vault.value;
            && v.timeoutSeconds == s.timeout && v.lastCheckin == t.w.now
            && v.owner == env.owner && v.vaultId == env.vaultId && v.bump == env.bump && v.mint.None?
  {
    InitializeIff(s.signer, s.vaultId, None, s.timeout, s.table, t.w.now, env.bump);
    NextKeepsInv(env, t, s);
    NextShaped(env, t, s);
  }

  /** The promise the timer makes. From the opening of a vault on, whatever happens
      while it stays open, its deadline is exactly one timeout, the one it was
      opened with, after its owner was last heard of. */
  lemma DeadlineFollowsOwner(env: Env, t: Tracked, s: Step, steps: seq<Step>)
    requires Inv(env, t) && Shaped(t.w) && s.Open? && Apply(env, t.w, s).Ok?
    requires Shaped(Next(env, t, s).w) && StaysOpen(env, Next(env, t, s), steps)
    ensures Run(env, Next(env, t, s), steps).w.vault.Some?
    ensures Run(env, Next(env, t, s), steps).w.vault.value.Deadline()
         == Ok(LastHeard(env, Next(env, t, s), steps, t.w.now) + s.timeout)
  {
    OpenedTerms(env, t, s);
    RunKeepsTerms(env, Next(env, t, s), steps);
    RunKeepsInv(env, Next(env, t, s), steps);
  }

  lemma CheckInFromNow(env: Env, t: Tracked, signer: Pubkey)
    requires Inv(env, t) && Shaped(t.w) && t.w.vault.Some? && Apply(env, t.w, CheckIn(signer)).Ok?
    ensures signer == env.owner && Next(env, t, CheckIn(signer)).w.vault.Some?
    ensures Next(env, t, CheckIn(signer)).w.vault.value.Deadline() == Ok(t.w.now + t.w.vault.value.timeoutSeconds)
  {
    CheckInIff(t.w.vault.value, signer, t.w.now);
  }

  /** In particular, an accepted check-in leaves exactly one timeout from its moment. */
  lemma CheckInSetsDeadline(env: Env, t: Tracked, s: Step, steps: seq<Step>, signer: Pubkey)
    requires Inv(env, t) && Shaped(t.w) && s.Open? && Apply(env, t.w, s).Ok?
    requires Shaped(Next(env, t, s).w) && StaysOpen(env, Next(env, t, s), steps)
    requires Apply(env, Run(env, Next(env, t, s), steps).w, CheckIn(signer)).Ok?
    ensures var t' := Run(env, Next(env, t, s), steps);
            && signer == env.owner
            && Next(env, t', CheckIn(signer)).w.vault.Some?
            && Next(env, t', CheckIn(signer)).w.vault.value.Deadline() == Ok(t'.w.now + s.timeout)
  {
    OpenedTerms(env, t, s);
    RunKeepsTerms(env, Next(env, t, s), steps);
    RunKeepsInv(env, Next(env, t, s), steps);
    CheckInFromNow(env, Run(env, Next(env, t, s), steps), signer);
  }
}
