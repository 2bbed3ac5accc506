/** What holds after every run of the protocol. */
module Safety {
  import opened Base
  import opened Sums
  import opened VaultRules
  import opened Instructions
  import opened Estates
  import opened Protocol

  // ---- the ledger

  lemma SettleTotal(ledger: map<Pubkey, u64>, pda: Pubkey, who: Pubkey, b: Balances)
    requires who != pda
    requires b.vault + b.wallet == At(ledger, pda) + At(ledger, who)
    ensures Total(Settle(ledger, pda, who, b)) == Total(ledger)
    ensures At(Settle(ledger, pda, who, b), pda) == b.vault && At(Settle(ledger, pda, who, b), who) == b.wallet
  {
    TotalUpdate(ledger, pda, b.vault);
    TotalUpdate(ledger[pda := b.vault], who, b.wallet);
  }

  lemma TransferTotal(ledger: map<Pubkey, u64>, from: Pubkey, to: Pubkey, amount: u64)
    requires SystemTransfer(ledger, from, to, amount).Ok?
    ensures Total(SystemTransfer(ledger, from, to, amount).value) == Total(ledger)
  {
    TotalUpdate(ledger, from, At(ledger, from) - amount);
    var debited := ledger[from := At(ledger, from) - amount];
    TotalUpdate(debited, to, At(debited, to) + amount);
  }

  /** No instruction, transfer or refusal makes or loses a lamport. */
  lemma StepConserves(env: Env, w: World, s: Step)
    requires Shaped(w) && Apply(env, w, s).Ok?
    ensures Total(Apply(env, w, s).value.0.ledger) == Total(w.ledger)
  {
    if s.Transfer? {
      TransferTotal(w.ledger, s.signer, s.to, s.amount);
    } else if !s.Tick? {
      var w' := Apply(env, w, s).value.0;
      if !s.CheckIn? && !s.SetTable? {
        var b' := Balances(At(w'.ledger, env.pda), At(w'.ledger, s.signer));
        assert w'.ledger == Settle(w.ledger, env.pda, s.signer, b');
        SettleTotal(w.ledger, env.pda, s.signer, b');
      }
    }
  }

  lemma {:induction false} RunConserves(env: Env, t: Tracked, steps: seq<Step>)
    requires Shaped(t.w)
    ensures Total(Run(env, t, steps).w.ledger) == Total(t.w.ledger)
    decreases |steps|
  {
    if steps != [] {
      if Apply(env, t.w, steps[0]).Ok? {
        StepConserves(env, t.w, steps[0]);
      }
      NextShaped(env, t, steps[0]);
      RunConserves(env, Next(env, t, steps[0]), steps[1..]);
    }
  }

  // ---- every step keeps the invariant

  lemma UntouchedIsSound(v: VaultData, held: u64)
    requires GoodSlots(v) && !v.isClaimed && v.claimPool == 0
    requires forall i :: 0 <= i < v.count ==> !v.slots[i].claimed
    ensures Sound(Estate(v, held, EMPTY_BOOKS))
    ensures Sum(v.Active(), PaidTo(EMPTY_BOOKS.paid)) == 0
  {
    SumZero(v.Active(), PaidTo(EMPTY_BOOKS.paid));
    SomeUnpaid(v.Active(), 0);
  }

  /** Before the first claim the books are blank and no heir is marked. */
  lemma ArmedIsUntouched(e: Estate)
    requires Sound(e) && !e.v.isClaimed
    ensures e.books == EMPTY_BOOKS && e.v.claimPool == 0 && GoodSlots(e.v)
    ensures forall i :: 0 <= i < e.v.count ==> !e.v.slots[i].claimed
    ensures Sum(e.v.Active(), PaidTo(e.books.paid)) == 0
  {
    forall i | 0 <= i < e.v.count ensures !e.v.slots[i].claimed {
      assert e.v.Active()[i] == e.v.slots[i];
    }
    SumZero(e.v.Active(), PaidTo(e.books.paid));
  }

  /** A freshly opened or still armed vault, booked as such, is in order. */
  predicate Armed(env: Env, t: Tracked)
    requires t.w.vault.Some?
  {
    var v := t.w.vault.value;
    && GoodSlots(v) && !v.isClaimed && v.claimPool == 0
    && (forall i :: 0 <= i < v.count ==> !v.slots[i].claimed)
    && v.IsSol() && v.owner == env.owner && GoodTimer(v, t.w.now)
    && At(t.w.ledger, env.pda) >= env.reserve
    && t.books == EMPTY_BOOKS && t.flow.payouts == 0
    && Held(env, t.w) + t.flow.withdrawals == t.flow.opening + t.flow.deposits + t.flow.gifts
  }

  lemma ArmedIsInv(env: Env, t: Tracked)
    requires t.w.vault.Some? && Armed(env, t)
    ensures Inv(env, t)
  {
    UntouchedIsSound(t.w.vault.value, Held(env, t.w));
  }

  lemma InvIsArmed(env: Env, t: Tracked)
    requires Inv(env, t) && t.w.vault.Some? && !t.w.vault.value.isClaimed
    ensures Armed(env, t)
  {
    ArmedIsUntouched(EstateOf(env, t));
  }

  lemma OpenKeepsInv(env: Env, t: Tracked, s: Step)
    requires Inv(env, t) && Shaped(t.w) && s.Open? && Apply(env, t.w, s).Ok?
    ensures Inv(env, Next(env, t, s))
  {
    CheckedSlotsGood(s.table, Apply(env, t.w, s).value.0.vault.value);
    ArmedIsInv(env, Next(env, t, s));
  }

  lemma OwnerMoneyKeepsInv(env: Env, t: Tracked, s: Step)
    requires Inv(env, t) && Shaped(t.w) && t.w.vault.Some? && Apply(env, t.w, s).Ok?
    requires s.Deposit? || s.Withdraw?
    ensures Inv(env, Next(env, t, s))
  {
    InvIsArmed(env, t);
    ArmedIsInv(env, Next(env, t, s));
  }

  lemma CheckInKeepsInv(env: Env, t: Tracked, s: Step)
    requires Inv(env, t) && Shaped(t.w) && t.w.vault.Some? && Apply(env, t.w, s).Ok? && s.CheckIn?
    ensures Inv(env, Next(env, t, s))
  {
    InvIsArmed(env, t);
    ArmedIsInv(env, Next(env, t, s));
  }

  lemma SetTableKeepsInv(env: Env, t: Tracked, s: Step)
    requires Inv(env, t) && Shaped(t.w) && t.w.vault.Some? && Apply(env, t.w, s).Ok? && s.SetTable?
    ensures Inv(env, Next(env, t, s))
  {
    InvIsArmed(env, t);
    CheckedSlotsGood(s.table, Apply(env, t.w, s).value.0.vault.value);
    ArmedIsInv(env, Next(env, t, s));
  }

  /** The estate moves as by a claim of `who`, and what leaves it is booked as paid. */
  predicate EstateClaimed(env: Env, t: Tracked, t': Tracked, who: Pubkey)
    requires Shaped(t.w) && t.w.vault.Some? && t'.w.vault.Some?
  {
    && ClaimOn(EstateOf(env, t), who, t.w.now) == Ok(EstateOf(env, t'))
    && t'.w.now == t.w.now
    && At(t'.w.ledger, env.pda) >= env.reserve
    && Held(env, t'.w) <= Held(env, t.w)
    && t'.flow == t.flow.(payouts := t.flow.payouts + (Held(env, t.w) - Held(env, t'.w)))
  }

  /** A claim on the ledger is a claim on the estate, for the amount that leaves it. */
  lemma ClaimIsEstateClaim(env: Env, t: Tracked, s: Step)
    requires Inv(env, t) && Shaped(t.w) && t.w.vault.Some? && s.Claim? && Apply(env, t.w, s).Ok?
    ensures Next(env, t, s).w.vault.Some?
    ensures EstateClaimed(env, t, Next(env, t, s), s.signer)
    ensures Apply(env, t.w, s).value.1 == Paid(s.signer, Held(env, t.w) - Held(env, Next(env, t, s).w))
  {
  }

  lemma ClaimedBalancesFlow(env: Env, t: Tracked, t': Tracked, who: Pubkey)
    requires Inv(env, t) && Shaped(t.w) && t.w.vault.Some? && t'.w.vault.Some?
    requires EstateClaimed(env, t, t', who)
    ensures t'.w.vault.value.Shaped() && FlowBalances(env, t')
  {
    ClaimBooksPayment(EstateOf(env, t), who, t.w.now);
  }

  lemma ClaimedKeepsInv(env: Env, t: Tracked, t': Tracked, who: Pubkey)
    requires Inv(env, t) && Shaped(t.w) && t.w.vault.Some? && t'.w.vault.Some?
    requires EstateClaimed(env, t, t', who)
    ensures Inv(env, t')
  {
    ClaimedBalancesFlow(env, t, t', who);
    ClaimKeepsSound(EstateOf(env, t), who, t.w.now);
  }

  lemma ClaimKeepsInv(env: Env, t: Tracked, s: Step)
    requires Inv(env, t) && Shaped(t.w) && t.w.vault.Some? && s.Claim? && Apply(env, t.w, s).Ok?
    ensures Inv(env, Next(env, t, s))
  {
    ClaimIsEstateClaim(env, t, s);
    ClaimedKeepsInv(env, t, Next(env, t, s), s.signer);
  }

  /** A gift is an inflow to the estate. */
  lemma GiftIsEstateInflow(env: Env, t: Tracked, s: Step)
    requires Inv(env, t) && Shaped(t.w) && t.w.vault.Some? && Apply(env, t.w, s).Ok?
    requires s.Transfer? && s.to == env.pda
    ensures Held(env, t.w) + s.amount <= U64_MAX
    ensures EstateOf(env, Next(env, t, s)) == InflowOn(EstateOf(env, t), s.amount)
  {
  }

  lemma InflowKeepsInv(env: Env, t: Tracked, t': Tracked, amount: nat)
    requires Inv(env, t) && Shaped(t.w) && t.w.vault.Some? && t'.w.vault.Some?
    requires Held(env, t.w) + amount <= U64_MAX && t'.w.now == t.w.now && At(t'.w.ledger, env.pda) >= env.reserve
    requires EstateOf(env, t') == InflowOn(EstateOf(env, t), amount)
    requires t'.flow == t.flow.(gifts := t.flow.gifts + amount)
    ensures Inv(env, t')
  {
    InflowKeepsSound(EstateOf(env, t), amount);
  }

  lemma GiftKeepsInv(env: Env, t: Tracked, s: Step)
    requires Inv(env, t) && Shaped(t.w) && t.w.vault.Some? && Apply(env, t.w, s).Ok?
    requires s.Transfer? && s.to == env.pda
    ensures Inv(env, Next(env, t, s))
  {
    GiftIsEstateInflow(env, t, s);
    InflowKeepsInv(env, t, Next(env, t, s), s.amount);
  }

  /** A transfer between wallets leaves the vault's side of the world alone. */
  lemma OtherTransferKeepsInv(env: Env, t: Tracked, s: Step)
    requires Inv(env, t) && Shaped(t.w) && t.w.vault.Some? && Apply(env, t.w, s).Ok?
    requires s.Transfer? && s.to != env.pda
    ensures Inv(env, Next(env, t, s))
  {
    assert EstateOf(env, Next(env, t, s)) == EstateOf(env, t);
  }

  lemma NextKeepsInv(env: Env, t: Tracked, s: Step)
    requires Inv(env, t) && Shaped(t.w)
    ensures Inv(env, Next(env, t, s))
  {
    if Apply(env, t.w, s).Ok? {
      if s.Open? {
        OpenKeepsInv(env, t, s);
      } else if t.w.vault.Some? {
        match s
        case Claim(_) => ClaimKeepsInv(env, t, s);
        case Transfer(_, to, _) =>
          if to == env.pda {
            GiftKeepsInv(env, t, s);
          } else {
            OtherTransferKeepsInv(env, t, s);
          }
        case Tick(_) =>
        case Close(_) =>
        case Deposit(_, _) => OwnerMoneyKeepsInv(env, t, s);
        case Withdraw(_, _) => OwnerMoneyKeepsInv(env, t, s);
        case CheckIn(_) => CheckInKeepsInv(env, t, s);
        case SetTable(_, _) => SetTableKeepsInv(env, t, s);
      }
    }
  }

  lemma {:induction false} RunKeepsInv(env: Env, t: Tracked, steps: seq<Step>)
    requires Inv(env, t) && Shaped(t.w)
    ensures Inv(env, Run(env, t, steps))
    decreases |steps|
  {
    if steps != [] {
      NextKeepsInv(env, t, steps[0]);
      NextShaped(env, t, steps[0]);
      RunKeepsInv(env, Next(env, t, steps[0]), steps[1..]);
    }
  }
}
