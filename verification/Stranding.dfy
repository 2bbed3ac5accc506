/** Which vaults can be emptied by their heirs, and which keep coins for good. */
module Stranding {
  import opened Base
  import opened VaultRules
  import opened Estates
  import opened Payouts

  /** An unpaid heir whose share of the pool rounds to nothing. */
  predicate Hopeless(e: Estate, i: nat)
    requires e.v.Shaped()
  {
    i < e.v.count && !e.v.slots[i].claimed && PoolFor(e) * e.v.slots[i].shareBps < TOTAL_SHARE_BPS
  }

  predicate TwoHopeless(e: Estate)
    requires e.v.Shaped()
  {
    exists i, j :: 0 <= i < j < e.v.count && Hopeless(e, i) && Hopeless(e, j)
  }

  // ---- two hopeless heirs block each other

  lemma IndexOfOwn(heirs: seq<Beneficiary>, i: nat)
    requires i < |heirs| && Distinct(heirs)
    ensures IndexOf(heirs, heirs[i].address) == Some(i)
  {
  }

  lemma TwoUnpaid(heirs: seq<Beneficiary>, i: nat, j: nat)
    requires i < |heirs| && j < |heirs| && i != j && !heirs[i].claimed && !heirs[j].claimed
    ensures UnpaidCount(heirs) >= 2
  {
    MarkPaidTable(heirs, i);
    SomeUnpaid(MarkPaid(heirs, i), j);
  }

  /** Neither of two hopeless heirs is ever the one whose claim goes through. */
  lemma HopelessIsRefused(e: Estate, i: nat, j: nat, now: i64)
    requires Sound(e) && i != j && Hopeless(e, i) && Hopeless(e, j)
    ensures ClaimOn(e, e.v.slots[i].address, now).Err?
  {
    var heirs := e.v.Active();
    IndexOfOwn(heirs, i);
    TwoUnpaid(heirs, i, j);
    ClaimAcceptedIff(e, heirs[i].address, now);
  }

  /** An heir whose share rounds to nothing must wait for everyone else: their
      claim goes through iff the deadline has passed, all the others are paid
      and there is something to sweep. */
  lemma HopelessIsPaidLast(e: Estate, i: nat, now: i64)
    requires Sound(e) && Hopeless(e, i)
    ensures ClaimOn(e, e.v.slots[i].address, now).Ok?
       <==> e.v.IsExpired(now) == Ok(true) && UnpaidCount(e.v.Active()) == 1 && e.held > 0
  {
    IndexOfOwn(e.v.Active(), i);
    ClaimAcceptedIff(e, e.v.slots[i].address, now);
  }

  /** Another heir's claim moves no one else's flag and no pool. */
  lemma ClaimMarksOne(e: Estate, who: Pubkey, now: i64, i: nat)
    requires Sound(e) && i < e.v.count && ClaimOn(e, who, now).Ok?
    ensures var e' := ClaimOn(e, who, now).value;
            && e'.v.count == e.v.count && PoolFor(e') == PoolFor(e) && e'.v.isClaimed
            && e'.v.slots[i] == if who == e.v.slots[i].address then e.v.slots[i].(claimed := true) else e.v.slots[i]
  {
    ClaimKeepsSound(e, who, now);
    IndexOfOwn(e.v.Active(), i);
  }

  lemma StepKeepsHopeless(e: Estate, event: Event, i: nat, j: nat)
    requires Sound(e) && i != j && Hopeless(e, i) && Hopeless(e, j)
    requires e.v.isClaimed || event.Attempt?
    ensures Hopeless(StepOn(e, event), i) && Hopeless(StepOn(e, event), j)
    ensures e.v.isClaimed ==> StepOn(e, event).v.isClaimed
  {
    if event.Attempt? && ClaimOn(e, event.who, event.now).Ok? {
      HopelessIsRefused(e, i, j, event.now);
      HopelessIsRefused(e, j, i, event.now);
      ClaimMarksOne(e, event.who, event.now, i);
      ClaimMarksOne(e, event.who, event.now, j);
    }
  }

  /** Stranded for good. Once the pool is frozen, two heirs whose shares of it
      round to nothing stay unpaid whatever claims are made and whatever funds
      arrive, and the vault never runs empty. Before that, the same holds as
      long as nothing arrives. */
  lemma {:induction false} StrandedForGood(e: Estate, events: seq<Event>, i: nat, j: nat)
    requires Sound(e) && i != j && Hopeless(e, i) && Hopeless(e, j)
    requires e.v.isClaimed || Quiet(events)
    ensures Hopeless(RunOn(e, events), i) && Hopeless(RunOn(e, events), j)
    ensures e.v.isClaimed ==> RunOn(e, events).v.isClaimed && RunOn(e, events).held > 0
    decreases |events|
  {
    if events == [] {
      if e.v.isClaimed {
        SomeUnpaid(e.v.Active(), i);
        TrippedHolds(e);
      }
    } else {
      StepKeepsSound(e, events[0]);
      StepKeepsHopeless(e, events[0], i, j);
      StrandedForGood(StepOn(e, events[0]), events[1..], i, j);
    }
  }

  // ---- everyone else is paid in the end

  /** With a pool and at most one hopeless heir there is somebody to pay next,
      and paying them keeps it so. */
  lemma SomeoneCanBePaid(e: Estate, now: i64) returns (i: nat)
    requires Sound(e) && e.v.IsExpired(now) == Ok(true) && PoolFor(e) > 0
    requires !TwoHopeless(e) && !AllPaid(e)
    ensures i < e.v.count && ClaimOn(e, e.v.slots[i].address, now).Ok?
  {
    var heirs := e.v.Active();
    AllPaidIff(heirs);
    i :| 0 <= i < e.v.count && !heirs[i].claimed;
    if Hopeless(e, i) && UnpaidCount(heirs) > 1 {
      var k := i;
      MarkPaidTable(heirs, k);
      AllPaidIff(MarkPaid(heirs, k));
      i :| 0 <= i < e.v.count && !MarkPaid(heirs, k)[i].claimed;
      assert Hopeless(e, i) ==> TwoHopeless(e);
    }
    IndexOfOwn(heirs, i);
    ClaimAcceptedIff(e, heirs[i].address, now);
  }

  lemma PayingKeepsHope(e: Estate, who: Pubkey, now: i64)
    requires Sound(e) && ClaimOn(e, who, now).Ok?
    ensures var e' := ClaimOn(e, who, now).value;
            && Sound(e') && PoolFor(e') == PoolFor(e) && e'.v.IsExpired(now) == Ok(true)
            && UnpaidCount(e'.v.Active()) == UnpaidCount(e.v.Active()) - 1
            && (TwoHopeless(e') ==> TwoHopeless(e))
  {
    var e' := ClaimOn(e, who, now).value;
    ClaimKeepsSound(e, who, now);
    ClaimKeepsTimer(e, who, now, now);
    forall i | 0 <= i < e.v.count ensures Hopeless(e', i) ==> Hopeless(e, i) {
      ClaimMarksOne(e, who, now, i);
    }
  }

  predicate PaysAll(e: Estate, events: seq<Event>)
    requires e.v.Shaped()
  {
    AllPaid(RunOn(e, events))
  }

  /** A run of claims that pays everyone, found greedily. */
  lemma EmptyingRun(e: Estate, now: i64) returns (events: seq<Event>)
    requires Sound(e) && e.v.IsExpired(now) == Ok(true) && PoolFor(e) > 0 && !TwoHopeless(e)
    ensures Quiet(events) && PaysAll(e, events)
    decreases UnpaidCount(e.v.Active())
  {
    if AllPaid(e) {
      events := [];
    } else {
      var i := SomeoneCanBePaid(e, now);
      PayingKeepsHope(e, e.v.slots[i].address, now);
      var rest := EmptyingRun(ClaimOn(e, e.v.slots[i].address, now).value, now);
      events := [Attempt(e.v.slots[i].address, now)] + rest;
      assert events[1..] == rest;
    }
  }

  /** Without a pool, or with a deadline past 64 bits, no claim is ever accepted. */
  lemma {:induction false} NothingToClaim(e: Estate, events: seq<Event>)
    requires Sound(e) && Quiet(events) && (PoolFor(e) == 0 || e.v.Deadline().Err?)
    ensures RunOn(e, events) == e
    decreases |events|
  {
    if events != [] {
      ClaimAcceptedIff(e, events[0].who, events[0].now);
      NothingToClaim(e, events[1..]);
    }
  }

  /** Some run of claims, with nothing arriving, pays everyone. */
  ghost predicate Emptiable(e: Estate)
    requires e.v.Shaped()
  {
    exists events :: Quiet(events) && PaysAll(e, events)
  }

  /** Every such run leaves nothing behind. */
  ghost predicate LeavesNothing(e: Estate)
    requires e.v.Shaped()
  {
    forall events :: Quiet(events) && PaysAll(e, events) ==> RunOn(e, events).held == 0
  }

  /** Which vaults can be emptied. Claims alone can pay everyone iff there is a
      pool and at most one unpaid heir's share of it rounds to nothing; and when
      claims have paid everyone, nothing is left. */
  lemma EmptiableIff(e: Estate)
    requires Sound(e) && !AllPaid(e)
    ensures Emptiable(e) <==> PoolFor(e) > 0 && e.v.Deadline().Ok? && !TwoHopeless(e)
    ensures LeavesNothing(e)
  {
    forall events | Quiet(events) && PaysAll(e, events)
      ensures RunOn(e, events).held == 0 && PoolFor(e) > 0 && e.v.Deadline().Ok? && !TwoHopeless(e)
    {
      RunKeepsSound(e, events);
      QuietRun(e, events);
      if PoolFor(e) == 0 || e.v.Deadline().Err? {
        NothingToClaim(e, events);
      } else if TwoHopeless(e) {
        HopelessNeverAllPaid(e, events);
      }
    }
    if PoolFor(e) > 0 && e.v.Deadline().Ok? && !TwoHopeless(e) {
      var events := EmptyingRun(e, e.v.Deadline().value);
    }
  }

  lemma HopelessNeverAllPaid(e: Estate, events: seq<Event>)
    requires Sound(e) && TwoHopeless(e) && (e.v.isClaimed || Quiet(events))
    ensures !PaysAll(e, events)
  {
    var i, j :| 0 <= i < j < e.v.count && Hopeless(e, i) && Hopeless(e, j);
    StrandedForGood(e, events, i, j);
    SomeUnpaid(RunOn(e, events).v.Active(), i);
  }

  /** Once tripped, not even funds from outside change that. */
  lemma TrippedEmptiableIff(e: Estate)
    requires Sound(e) && e.v.isClaimed && e.v.Deadline().Ok?
    ensures (exists events :: PaysAll(e, events)) <==> !TwoHopeless(e)
  {
    if TwoHopeless(e) {
      forall events: seq<Event> ensures !PaysAll(e, events) {
        HopelessNeverAllPaid(e, events);
      }
    } else {
      var events := EmptyingRun(e, e.v.Deadline().value);
    }
  }
}
