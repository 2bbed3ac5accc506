/** Which tripped vaults can ever be closed: the estate-level answer of
    `Stranding`, carried to the ledger and to every run of the protocol. */
module Closing {
  import opened Base
  import opened Sums
  import opened VaultRules
  import opened Estates
  import opened Payouts
  import opened Stranding
  import opened Protocol
  import opened Safety
  import opened Guarantees

  // ---- a tripped vault's run is a run of its estate

  /** No attempt in the run is made in the name of `pda`, who cannot sign. */
  predicate NoneBy(events: seq<Event>, pda: Pubkey) {
    forall k :: 0 <= k < |events| && events[k].Attempt? ==> events[k].who != pda
  }

  lemma {:induction false} RunOnAppend(e: Estate, first: seq<Event>, second: seq<Event>)
    requires e.v.Shaped()
    ensures RunOn(e, first + second) == RunOn(RunOn(e, first), second)
    decreases |first|
  {
    if first == [] {
      assert first + second == second;
    } else {
      assert (first + second)[1..] == first[1..] + second;
      RunOnAppend(StepOn(e, first[0]), first[1..], second);
    }
  }

  /** What a step that leaves a tripped vault open does to its estate. */
  function EventOf(env: Env, t: Tracked, s: Step): seq<Event>
    requires Shaped(t.w)
  {
    if Apply(env, t.w, s).Err? then []
    else if s.Claim? then [Attempt(s.signer, t.w.now)]
    else if s.Transfer? && s.to == env.pda then [Arrives(s.amount)]
    else []
  }

  lemma RestLeavesEstate(env: Env, t: Tracked, s: Step)
    requires Inv(env, t) && Shaped(t.w) && Tripped(t) && Next(env, t, s).w.vault.Some?
    requires Apply(env, t.w, s).Ok? && !s.Claim? && !(s.Transfer? && s.to == env.pda)
    ensures EstateOf(env, Next(env, t, s)) == EstateOf(env, t)
  {
    TrippedIsLeftAlone(env, t, s);
  }

  lemma RunOnOne(e: Estate, event: Event)
    requires e.v.Shaped()
    ensures RunOn(e, [event]) == StepOn(e, event)
  {
    assert RunOn(e, [event]) == RunOn(StepOn(e, event), []);
  }

  lemma TrippedStepIsEstateStep(env: Env, t: Tracked, s: Step)
    requires Inv(env, t) && Shaped(t.w) && Tripped(t) && Next(env, t, s).w.vault.Some?
    ensures Tripped(Next(env, t, s)) && Shaped(Next(env, t, s).w)
    ensures NoneBy(EventOf(env, t, s), env.pda)
    ensures EstateOf(env, Next(env, t, s)) == RunOn(EstateOf(env, t), EventOf(env, t, s))
  {
    StepFreezes(env, t, s);
    if Apply(env, t.w, s).Ok? {
      if s.Claim? {
        ClaimIsEstateClaim(env, t, s);
        RunOnOne(EstateOf(env, t), Attempt(s.signer, t.w.now));
      } else if s.Transfer? && s.to == env.pda {
        GiftIsEstateInflow(env, t, s);
        RunOnOne(EstateOf(env, t), Arrives(s.amount));
      } else {
        RestLeavesEstate(env, t, s);
      }
    }
  }

  /** Refinement: as long as it stays open, whatever happens around a tripped
      vault — any instruction by anyone, transfers, time — its estate sees only
      claims by wallets that can sign, and arrivals. */
  lemma {:induction false} TrippedRunIsEstateRun(env: Env, t: Tracked, steps: seq<Step>) returns (events: seq<Event>)
    requires Inv(env, t) && Shaped(t.w) && Tripped(t) && StaysOpen(env, t, steps)
    ensures Tripped(Run(env, t, steps)) && NoneBy(events, env.pda)
    ensures EstateOf(env, Run(env, t, steps)) == RunOn(EstateOf(env, t), events)
    decreases |steps|
  {
    if steps == [] {
      events := [];
    } else {
      NextShaped(env, t, steps[0]);
      NextKeepsInv(env, t, steps[0]);
      TrippedStepIsEstateStep(env, t, steps[0]);
      var rest := TrippedRunIsEstateRun(env, Next(env, t, steps[0]), steps[1..]);
      events := EventOf(env, t, steps[0]) + rest;
      RunOnAppend(EstateOf(env, t), EventOf(env, t, steps[0]), rest);
    }
  }

  // ---- what blocks a vault

  /** The heir in slot `i` is unpaid and is the vault address itself. */
  predicate CannotSign(e: Estate, pda: Pubkey, i: nat)
    requires e.v.Shaped()
  {
    i < e.v.count && !e.v.slots[i].claimed && e.v.slots[i].address == pda
  }

  /** Coins nobody can move: left over after everyone was paid, or owed to heirs
      who will never be paid. */
  predicate Blocked(e: Estate, pda: Pubkey)
    requires e.v.Shaped()
  {
    if AllPaid(e) then e.held > 0
    else TwoHopeless(e) || exists i :: 0 <= i < e.v.count && CannotSign(e, pda, i)
  }

  lemma BlockedHolds(e: Estate, pda: Pubkey)
    requires Sound(e) && e.v.isClaimed && Blocked(e, pda)
    ensures e.held > 0
  {
    if !AllPaid(e) {
      TrippedHolds(e);
    }
  }

  lemma AllPaidRefuses(e: Estate, who: Pubkey, now: i64)
    requires Sound(e) && AllPaid(e)
    ensures ClaimOn(e, who, now).Err?
  {
    ClaimAcceptedIff(e, who, now);
    AllPaidIff(e.v.Active());
  }

  lemma BlockedStep(e: Estate, event: Event, pda: Pubkey)
    requires Sound(e) && e.v.isClaimed && Blocked(e, pda)
    requires event.Attempt? ==> event.who != pda
    ensures StepOn(e, event).v.isClaimed && Blocked(StepOn(e, event), pda)
  {
    if AllPaid(e) {
      if event.Attempt? {
        AllPaidRefuses(e, event.who, event.now);
      }
    } else if TwoHopeless(e) {
      var i, j :| 0 <= i < j < e.v.count && Hopeless(e, i) && Hopeless(e, j);
      StepKeepsHopeless(e, event, i, j);
      SomeUnpaid(StepOn(e, event).v.Active(), i);
    } else {
      var i :| 0 <= i < e.v.count && CannotSign(e, pda, i);
      if event.Attempt? && ClaimOn(e, event.who, event.now).Ok? {
        ClaimMarksOne(e, event.who, event.now, i);
      }
      assert CannotSign(StepOn(e, event), pda, i);
      SomeUnpaid(StepOn(e, event).v.Active(), i);
    }
  }

  lemma BlockedEvents(e: Estate, events: seq<Event>, pda: Pubkey)
    requires Sound(e) && e.v.isClaimed && Blocked(e, pda) && NoneBy(events, pda) && |events| <= 1
    ensures RunOn(e, events).v.isClaimed && Blocked(RunOn(e, events), pda)
  {
    if events != [] {
      BlockedStep(e, events[0], pda);
      assert RunOn(e, events) == RunOn(StepOn(e, events[0]), []);
    }
  }

  /** A vault with something over its reserve is not closed by any step. */
  lemma NotClosedNow(env: Env, t: Tracked, s: Step)
    requires Shaped(t.w) && t.w.vault.Some? && Held(env, t.w) > 0
    ensures Next(env, t, s).w.vault.Some?
  {
  }

  /** A blocked vault is never closed: whatever steps follow, by anyone, with
      any funds arriving and any time passing, it stays open and keeps coins. */
  lemma {:induction false} BlockedNeverCloses(env: Env, t: Tracked, steps: seq<Step>)
    requires Inv(env, t) && Shaped(t.w) && Tripped(t) && Blocked(EstateOf(env, t), env.pda)
    ensures StaysOpen(env, t, steps)
    ensures Tripped(Run(env, t, steps)) && Blocked(EstateOf(env, Run(env, t, steps)), env.pda)
    ensures Held(env, Run(env, t, steps).w) > 0
    decreases |steps|
  {
    BlockedHolds(EstateOf(env, t), env.pda);
    if steps != [] {
      NextShaped(env, t, steps[0]);
      NextKeepsInv(env, t, steps[0]);
      NotClosedNow(env, t, steps[0]);
      TrippedStepIsEstateStep(env, t, steps[0]);
      BlockedEvents(EstateOf(env, t), EventOf(env, t, steps[0]), env.pda);
      BlockedNeverCloses(env, Next(env, t, steps[0]), steps[1..]);
    }
  }

  /** Stranded on the ledger. A tripped vault with two unpaid heirs whose shares
      of the pool round to nothing is never closed, never runs empty, and never
      pays either of them, along any run whatever. */
  lemma StrandedOnLedger(env: Env, t: Tracked, steps: seq<Step>, i: nat, j: nat)
    requires Inv(env, t) && Shaped(t.w) && Tripped(t)
    requires i != j && Hopeless(EstateOf(env, t), i) && Hopeless(EstateOf(env, t), j)
    ensures StaysOpen(env, t, steps)
    ensures Run(env, t, steps).w.vault.Some? && Held(env, Run(env, t, steps).w) > 0
    ensures TimesPaid(env, t, steps, t.w.vault.value.slots[i].address) == 0
    ensures TimesPaid(env, t, steps, t.w.vault.value.slots[j].address) == 0
  {
    var e := EstateOf(env, t);
    SomeUnpaid(e.v.Active(), i);
    assert TwoHopeless(e) by {
      assert Hopeless(e, if i < j then i else j) && Hopeless(e, if i < j then j else i);
    }
    BlockedNeverCloses(env, t, steps);
    var events := TrippedRunIsEstateRun(env, t, steps);
    StrandedForGood(e, events, i, j);
    UnpaidMeansNeverPaid(env, t, steps, events, i);
    UnpaidMeansNeverPaid(env, t, steps, events, j);
  }

  lemma UnpaidMeansNeverPaid(env: Env, t: Tracked, steps: seq<Step>, events: seq<Event>, i: nat)
    requires Inv(env, t) && Shaped(t.w) && t.w.vault.Some? && StaysOpen(env, t, steps)
    requires Run(env, t, steps).w.vault.Some?
    requires EstateOf(env, Run(env, t, steps)) == RunOn(EstateOf(env, t), events)
    requires i < t.w.vault.value.count && i < Run(env, t, steps).w.vault.value.count
    requires !Run(env, t, steps).w.vault.value.slots[i].claimed
    ensures TimesPaid(env, t, steps, t.w.vault.value.slots[i].address) == 0
  {
    var v := Run(env, t, steps).w.vault.value;
    RunKeepsSound(EstateOf(env, t), events);
    IndexOfOwn(v.Active(), i);
    PaidOnce(env, t, steps, v.slots[i].address);
  }

  // ---- a vault that is not blocked can be closed

  predicate Closes(env: Env, t: Tracked, steps: seq<Step>)
    requires Shaped(t.w)
  {
    Run(env, t, steps).w.vault.None?
  }

  /** One more heir is paid on the ledger, and the vault is still not blocked. */
  lemma PayNext(env: Env, t: Tracked) returns (who: Pubkey)
    requires Inv(env, t) && Shaped(t.w) && Tripped(t) && Total(t.w.ledger) <= U64_MAX
    requires !Blocked(EstateOf(env, t), env.pda) && !AllPaid(EstateOf(env, t))
    ensures var t' := Next(env, t, Claim(who));
            && Inv(env, t') && Shaped(t'.w) && Tripped(t') && Total(t'.w.ledger) <= U64_MAX
            && !Blocked(EstateOf(env, t'), env.pda)
            && UnpaidCount(t'.w.vault.value.Active()) < UnpaidCount(t.w.vault.value.Active())
  {
    var e := EstateOf(env, t);
    var i := SomeoneCanBePaid(e, t.w.now);
    who := e.v.slots[i].address;
    ClaimAcceptedIff(e, who, t.w.now);
    IndexOfOwn(e.v.Active(), i);
    assert CannotSign(e, who, i);
    DrainStep(env, t, [who]);
    PayingKeepsHope(e, who, t.w.now);
    PayingUnblocks(e, who, t.w.now, env.pda);
  }

  lemma PayingUnblocks(e: Estate, who: Pubkey, now: i64, pda: Pubkey)
    requires Sound(e) && e.v.isClaimed && ClaimOn(e, who, now).Ok? && !AllPaid(e) && !Blocked(e, pda)
    ensures !Blocked(ClaimOn(e, who, now).value, pda)
  {
    var e' := ClaimOn(e, who, now).value;
    PayingKeepsHope(e, who, now);
    if AllPaid(e') {
      LastClaimEmpties(e, who, now);
    } else {
      forall i | 0 <= i < e.v.count ensures !CannotSign(e', pda, i) {
        ClaimMarksOne(e, who, now, i);
        assert !CannotSign(e, pda, i);
      }
    }
  }

  /** A run that pays the remaining heirs and closes the vault, found greedily. */
  lemma ClosingRun(env: Env, t: Tracked) returns (steps: seq<Step>)
    requires Inv(env, t) && Shaped(t.w) && Tripped(t) && Total(t.w.ledger) <= U64_MAX
    requires env.owner != env.pda && !Blocked(EstateOf(env, t), env.pda)
    ensures Closes(env, t, steps)
    decreases UnpaidCount(t.w.vault.value.Active())
  {
    if AllPaid(EstateOf(env, t)) {
      steps := [Close(env.owner)];
      CloseIffInv(env, t, env.owner);
      assert Run(env, t, steps) == Run(env, Next(env, t, steps[0]), []);
    } else {
      var who := PayNext(env, t);
      var rest := ClosingRun(env, Next(env, t, Claim(who)));
      steps := [Claim(who)] + rest;
      assert steps[1..] == rest;
    }
  }

  ghost predicate Closable(env: Env, t: Tracked)
    requires Shaped(t.w)
  {
    exists steps :: Closes(env, t, steps)
  }

  /** The promise and its limit. A tripped vault can still be closed some day
      iff it is not blocked: everyone is paid and nothing arrived too late, or
      else every unpaid heir can sign and at most one of their shares of the
      pool rounds to nothing. */
  lemma ClosableIff(env: Env, t: Tracked)
    requires Inv(env, t) && Shaped(t.w) && Tripped(t) && Total(t.w.ledger) <= U64_MAX && env.owner != env.pda
    ensures Closable(env, t) <==> !Blocked(EstateOf(env, t), env.pda)
  {
    if Blocked(EstateOf(env, t), env.pda) {
      forall steps ensures !Closes(env, t, steps) {
        BlockedNeverCloses(env, t, steps);
      }
    } else {
      var steps := ClosingRun(env, t);
    }
  }

  // ---- what can still spoil it

  /** A vault becomes blocked only by funds that arrive after everyone is paid. */
  lemma OnlyLateFundsBlock(e: Estate, event: Event, pda: Pubkey)
    requires Sound(e) && e.v.isClaimed && !Blocked(e, pda)
    ensures Blocked(StepOn(e, event), pda) <==> AllPaid(e) && event.Arrives? && event.amount > 0
                                                && e.held + event.amount <= U64_MAX
  {
    match event
    case Attempt(who, now) =>
      if AllPaid(e) {
        AllPaidRefuses(e, who, now);
      } else if ClaimOn(e, who, now).Ok? {
        PayingUnblocks(e, who, now, pda);
      }
    case Arrives(amount) =>
      if e.held + amount <= U64_MAX && !AllPaid(e) {
        ArrivalBlocksNobody(e, amount, pda);
      }
  }

  lemma ArrivalBlocksNobody(e: Estate, amount: nat, pda: Pubkey)
    requires Sound(e) && e.v.isClaimed && !AllPaid(e) && !Blocked(e, pda) && e.held + amount <= U64_MAX
    ensures !Blocked(InflowOn(e, amount), pda)
  {
    var e' := InflowOn(e, amount);
    assert forall i :: CannotSign(e', pda, i) <==> CannotSign(e, pda, i);
    assert forall i :: Hopeless(e', i) <==> Hopeless(e, i);
  }

  /** A transfer into a vault that has paid everyone. */
  predicate LateGift(env: Env, t: Tracked, s: Step)
    requires Shaped(t.w) && t.w.vault.Some?
  {
    && AllPaid(EstateOf(env, t)) && Apply(env, t.w, s).Ok?
    && s.Transfer? && s.to == env.pda && s.amount > 0
  }

  predicate NoLateGift(env: Env, t: Tracked, steps: seq<Step>)
    requires Shaped(t.w)
    decreases |steps|
  {
    steps != [] ==>
      && (t.w.vault.Some? ==> !LateGift(env, t, steps[0]))
      && (NextShaped(env, t, steps[0]);
          NoLateGift(env, Next(env, t, steps[0]), steps[1..]))
  }

  lemma OnlyLateGiftBlocks(env: Env, t: Tracked, s: Step)
    requires Inv(env, t) && Shaped(t.w) && Tripped(t) && Next(env, t, s).w.vault.Some?
    requires !Blocked(EstateOf(env, t), env.pda)
    ensures Tripped(Next(env, t, s)) && Shaped(Next(env, t, s).w)
    ensures Blocked(EstateOf(env, Next(env, t, s)), env.pda) <==> LateGift(env, t, s)
  {
    TrippedStepIsEstateStep(env, t, s);
    var events := EventOf(env, t, s);
    if events != [] {
      OnlyLateFundsBlock(EstateOf(env, t), events[0], env.pda);
      RunOnOne(EstateOf(env, t), events[0]);
      if s.Transfer? {
        GiftIsEstateInflow(env, t, s);
      }
    }
  }

  lemma {:induction false} UnblockedIff(env: Env, t: Tracked, steps: seq<Step>)
    requires Inv(env, t) && Shaped(t.w) && Tripped(t) && StaysOpen(env, t, steps)
    requires !Blocked(EstateOf(env, t), env.pda)
    ensures Tripped(Run(env, t, steps))
    ensures Blocked(EstateOf(env, Run(env, t, steps)), env.pda) <==> !NoLateGift(env, t, steps)
    decreases |steps|
  {
    if steps != [] {
      var t' := Next(env, t, steps[0]);
      RunFirst(env, t, steps);
      NextKeepsInv(env, t, steps[0]);
      OnlyLateGiftBlocks(env, t, steps[0]);
      if Blocked(EstateOf(env, t'), env.pda) {
        BlockedNeverCloses(env, t', steps[1..]);
      } else {
        UnblockedIff(env, t', steps[1..]);
      }
    }
  }

  /** Nothing else spoils it. A tripped vault that can be closed can still be
      closed after any continuation that leaves it open, unless along the way
      someone sent it funds after everyone was paid; and then never again. */
  lemma StaysClosableIff(env: Env, t: Tracked, steps: seq<Step>)
    requires Inv(env, t) && Shaped(t.w) && Tripped(t) && Total(t.w.ledger) <= U64_MAX && env.owner != env.pda
    requires Closable(env, t) && StaysOpen(env, t, steps)
    ensures Closable(env, Run(env, t, steps)) <==> NoLateGift(env, t, steps)
  {
    ClosableIff(env, t);
    UnblockedIff(env, t, steps);
    RunKeepsInv(env, t, steps);
    RunConserves(env, t, steps);
    ClosableIff(env, Run(env, t, steps));
  }
}
