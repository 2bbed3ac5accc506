/** Whole runs of claims: any interleaving of attempts, refusals and incoming
    funds, for a SOL vault or a token vault alike. */
module Payouts {
  import opened Base
  import opened VaultRules
  import opened Estates
  import I = Instructions

  datatype Event =
    | Attempt(who: Pubkey, now: i64)  // a refused attempt changes nothing
    | Arrives(amount: nat)

  function StepOn(e: Estate, event: Event): (r: Estate)
    requires e.v.Shaped()
    ensures r.v.Shaped()
  {
    match event
    case Attempt(who, now) => (match ClaimOn(e, who, now) case Ok(e') => e' case Err(_) => e)
    case Arrives(amount) => if e.held + amount <= U64_MAX then InflowOn(e, amount) else e
  }

  function RunOn(e: Estate, events: seq<Event>): (r: Estate)
    requires e.v.Shaped()
    ensures r.v.Shaped()
    decreases |events|
  {
    if events == [] then e else RunOn(StepOn(e, events[0]), events[1..])
  }

  predicate Quiet(events: seq<Event>) {
    forall i :: 0 <= i < |events| ==> events[i].Attempt?
  }

  /** Same heirs with the same shares in the same slots. */
  predicate SameHeirs(v: VaultData, v': VaultData)
    requires v.Shaped() && v'.Shaped()
  {
    && v.count == v'.count
    && (forall i :: 0 <= i < v.count ==>
          v.slots[i].address == v'.slots[i].address && v.slots[i].shareBps == v'.slots[i].shareBps)
  }

  lemma {:induction false} RunKeepsSound(e: Estate, events: seq<Event>)
    requires Sound(e)
    ensures Sound(RunOn(e, events)) && SameHeirs(e.v, RunOn(e, events).v)
    decreases |events|
  {
    if events != [] {
      StepKeepsSound(e, events[0]);
      RunKeepsSound(StepOn(e, events[0]), events[1..]);
    }
  }

  lemma ClaimKeepsHeirs(e: Estate, who: Pubkey, now: i64)
    requires e.v.Shaped() && ClaimOn(e, who, now).Ok?
    ensures var e' := ClaimOn(e, who, now).value;
            SameHeirs(e.v, e'.v) && e'.books.inflow == e.books.inflow && e'.books.late == e.books.late
  {
  }

  lemma StepKeepsSound(e: Estate, event: Event)
    requires Sound(e)
    ensures Sound(StepOn(e, event)) && SameHeirs(e.v, StepOn(e, event).v)
    ensures event.Attempt? ==> PoolFor(StepOn(e, event)) == PoolFor(e)
    ensures event.Attempt? ==> StepOn(e, event).books.inflow == e.books.inflow
    ensures event.Attempt? ==> StepOn(e, event).books.late == e.books.late
  {
    match event
    case Attempt(who, now) =>
      if ClaimOn(e, who, now).Ok? {
        ClaimKeepsSound(e, who, now);
        ClaimKeepsHeirs(e, who, now);
      }
    case Arrives(amount) =>
      if e.held + amount <= U64_MAX {
        InflowKeepsSound(e, amount);
      }
  }

  lemma {:induction false} QuietRun(e: Estate, events: seq<Event>)
    requires Sound(e) && Quiet(events)
    ensures PoolFor(RunOn(e, events)) == PoolFor(e)
    ensures RunOn(e, events).books.inflow == e.books.inflow && RunOn(e, events).books.late == e.books.late
    decreases |events|
  {
    if events != [] {
      StepKeepsSound(e, events[0]);
      QuietRun(StepOn(e, events[0]), events[1..]);
    }
  }

  predicate AllPaid(e: Estate)
    requires e.v.Shaped()
  {
    UnpaidCount(e.v.Active()) == 0
  }

  lemma AllPaidIsTripped(e: Estate)
    requires Sound(e) && AllPaid(e)
    ensures e.v.isClaimed
  {
    AllPaidIff(e.v.Active());
    assert e.v.Active()[0].claimed;
  }

  /** Every heir of a completed estate got their floor, plus at most one coin
      per other heir and what came in along the way. */
  lemma PayoutRange(e: Estate, i: nat)
    requires Sound(e) && AllPaid(e) && i < e.v.count
    ensures var heirs, paid := e.v.Active(), e.books.paid;
            && heirs[i].address in paid
            && 0 <= paid[heirs[i].address] - PoolFor(e) * heirs[i].shareBps / TOTAL_SHARE_BPS
                 <= |heirs| - 1 + e.books.inflow
  {
    AllPaidIsTripped(e);
    CompletePayouts(e, e.books.sweeper.value);
  }

  /** Order independence. From the same estate, two runs without inflow that
      each pay everyone — in any order, with any refused attempts in between —
      pay each heir the same up to one coin per other heir, and leave nothing. */
  lemma OrderIndependence(e: Estate, first: seq<Event>, second: seq<Event>)
    requires Sound(e) && e.books.inflow == 0 && e.books.late == 0
    requires Quiet(first) && Quiet(second)
    requires AllPaid(RunOn(e, first)) && AllPaid(RunOn(e, second))
    ensures RunOn(e, first).held == 0 && RunOn(e, second).held == 0
    ensures forall i :: 0 <= i < e.v.count ==>
              var a, n := e.v.slots[i].address, e.v.count;
              var p, q := RunOn(e, first).books.paid, RunOn(e, second).books.paid;
              && a in p && a in q
              && -(n - 1) <= p[a] - q[a] <= n - 1
  {
    var one, two := RunOn(e, first), RunOn(e, second);
    RunKeepsSound(e, first);
    RunKeepsSound(e, second);
    QuietRun(e, first);
    QuietRun(e, second);
    forall i | 0 <= i < e.v.count
      ensures var a, n := e.v.slots[i].address, e.v.count;
              && a in one.books.paid && a in two.books.paid
              && -(n - 1) <= one.books.paid[a] - two.books.paid[a] <= n - 1
    {
      PayoutRange(one, i);
      PayoutRange(two, i);
    }
  }

  // ---- draining a vault

  /** Claims by the listed heirs at the listed times, all of which must succeed. */
  function ClaimAll(e: Estate, order: seq<(Pubkey, i64)>): (r: Result<Estate, DmsError>)
    requires e.v.Shaped()
    ensures r.Ok? ==> r.value.v.Shaped()
    decreases |order|
  {
    if order == [] then Ok(e)
    else
      var e' :- ClaimOn(e, order[0].0, order[0].1);
      ClaimAll(e', order[1..])
  }

  /** The unpaid heirs, each once, each at a time past the deadline. */
  predicate Queue(e: Estate, order: seq<(Pubkey, i64)>)
    requires e.v.Shaped()
  {
    && |order| == UnpaidCount(e.v.Active())
    && (forall k :: 0 <= k < |order| ==>
          Unpaid(e.v.Active(), order[k].0) && e.v.IsExpired(order[k].1) == Ok(true))
    && (forall j, k :: 0 <= j < k < |order| ==> order[j].0 != order[k].0)
  }

  predicate RoundsToNothing(e: Estate, who: Pubkey)
    requires e.v.Shaped()
  {
    PoolFor(e) * BpsOf(e.v.Active(), who) < TOTAL_SHARE_BPS
  }

  lemma MarkLeavesOthers(heirs: seq<Beneficiary>, i: nat, other: Pubkey)
    requires i < |heirs| && heirs[i].address != other
    ensures Unpaid(MarkPaid(heirs, i), other) <==> Unpaid(heirs, other)
    ensures BpsOf(MarkPaid(heirs, i), other) == BpsOf(heirs, other)
  {
    SameAddresses(MarkPaid(heirs, i), heirs, other);
  }

  lemma ClaimLeavesOthers(e: Estate, who: Pubkey, now: i64, other: Pubkey)
    requires Sound(e) && ClaimOn(e, who, now).Ok? && other != who
    ensures var e' := ClaimOn(e, who, now).value;
            && (Unpaid(e'.v.Active(), other) <==> Unpaid(e.v.Active(), other))
            && (RoundsToNothing(e', other) <==> RoundsToNothing(e, other))
  {
    var i := IndexOf(e.v.Active(), who).value;
    assert ClaimOn(e, who, now).value.v.Active() == MarkPaid(e.v.Active(), i);
    MarkLeavesOthers(e.v.Active(), i, other);
    ClaimKeepsPool(e, who, now);
  }

  lemma ClaimKeepsTimer(e: Estate, who: Pubkey, now: i64, at: i64)
    requires Sound(e) && ClaimOn(e, who, now).Ok?
    ensures var e' := ClaimOn(e, who, now).value;
            && e'.v.IsExpired(at) == e.v.IsExpired(at)
            && UnpaidCount(e'.v.Active()) == UnpaidCount(e.v.Active()) - 1
  {
    var i := IndexOf(e.v.Active(), who).value;
    MarkPaidGoodSlots(e.v, ClaimOn(e, who, now).value.v, i);
    MarkPaidTable(e.v.Active(), i);
  }

  lemma QueueTail(e: Estate, order: seq<(Pubkey, i64)>)
    requires Sound(e) && Queue(e, order) && order != [] && ClaimOn(e, order[0].0, order[0].1).Ok?
    ensures Queue(ClaimOn(e, order[0].0, order[0].1).value, order[1..])
  {
    var (who, now) := order[0];
    var rest := order[1..];
    var e' := ClaimOn(e, who, now).value;
    forall k | 0 <= k < |rest|
      ensures Unpaid(e'.v.Active(), rest[k].0) && e'.v.IsExpired(rest[k].1) == Ok(true)
    {
      assert rest[k] == order[k + 1];
      ClaimLeavesOthers(e, who, now, rest[k].0);
      ClaimKeepsTimer(e, who, now, rest[k].1);
    }
    ClaimKeepsTimer(e, who, now, now);
  }

  /** Of a queue, at most the last heir's share rounds to nothing. */
  predicate OnlyLastMayRound(e: Estate, order: seq<(Pubkey, i64)>)
    requires e.v.Shaped()
  {
    forall k :: 0 <= k < |order| - 1 ==> !RoundsToNothing(e, order[k].0)
  }

  lemma QueueTailRounds(e: Estate, order: seq<(Pubkey, i64)>)
    requires Sound(e) && Queue(e, order) && order != [] && ClaimOn(e, order[0].0, order[0].1).Ok?
    requires |order| == 1 || !RoundsToNothing(e, order[0].0)
    ensures OnlyLastMayRound(ClaimOn(e, order[0].0, order[0].1).value, order[1..]) <==> OnlyLastMayRound(e, order)
  {
    var (who, now) := order[0];
    var e', rest := ClaimOn(e, who, now).value, order[1..];
    forall k | 0 <= k < |rest| ensures RoundsToNothing(e', rest[k].0) <==> RoundsToNothing(e, order[k + 1].0) {
      ClaimLeavesOthers(e, who, now, order[k + 1].0);
    }
    assert forall k :: 0 < k < |order| ==> order[k] == rest[k - 1];
  }

  lemma LastClaimEmpties(e: Estate, who: Pubkey, now: i64)
    requires Sound(e) && UnpaidCount(e.v.Active()) == 1 && ClaimOn(e, who, now).Ok?
    ensures ClaimOn(e, who, now).value.held == 0 && AllPaid(ClaimOn(e, who, now).value)
  {
    var i := IndexOf(e.v.Active(), who).value;
    MarkPaidGoodSlots(e.v, ClaimOn(e, who, now).value.v, i);
    MarkPaidTable(e.v.Active(), i);
  }

  /** The head of a queue is paid iff there is a pool and either nobody is
      behind them or their share does not round to nothing. */
  lemma HeadIsPaidIff(e: Estate, order: seq<(Pubkey, i64)>)
    requires Sound(e) && Queue(e, order) && order != []
    ensures ClaimOn(e, order[0].0, order[0].1).Ok?
       <==> PoolFor(e) > 0 && (|order| == 1 || !RoundsToNothing(e, order[0].0))
  {
    ClaimAcceptedIff(e, order[0].0, order[0].1);
  }

  /** Once the head is paid, the rest are a queue that may drain iff the whole may. */
  lemma HeadPaidAdvances(e: Estate, order: seq<(Pubkey, i64)>)
    requires Sound(e) && Queue(e, order) && order != [] && ClaimOn(e, order[0].0, order[0].1).Ok?
    ensures var e' := ClaimOn(e, order[0].0, order[0].1).value;
            && Sound(e') && PoolFor(e') == PoolFor(e) && Queue(e', order[1..])
            && (OnlyLastMayRound(e', order[1..]) <==> OnlyLastMayRound(e, order))
            && (|order| == 1 ==> e'.held == 0 && AllPaid(e'))
  {
    var (who, now) := order[0];
    HeadIsPaidIff(e, order);
    ClaimKeepsSound(e, who, now);
    QueueTail(e, order);
    QueueTailRounds(e, order);
    if |order| == 1 {
      LastClaimEmpties(e, who, now);
    }
  }

  /** Draining in one order, exactly: a queue of all the unpaid heirs, each
      claiming once, goes through iff there is a pool and no share but the
      last one's rounds to nothing; then the vault is empty with everyone paid. */
  lemma {:induction false} DrainIff(e: Estate, order: seq<(Pubkey, i64)>)
    requires Sound(e) && Queue(e, order) && order != []
    ensures ClaimAll(e, order).Ok? <==> PoolFor(e) > 0 && OnlyLastMayRound(e, order)
    ensures ClaimAll(e, order).Ok? ==> ClaimAll(e, order).value.held == 0 && AllPaid(ClaimAll(e, order).value)
    decreases |order|
  {
    HeadIsPaidIff(e, order);
    if ClaimOn(e, order[0].0, order[0].1).Ok? {
      HeadPaidAdvances(e, order);
      if |order| > 1 {
        DrainIff(ClaimOn(e, order[0].0, order[0].1).value, order[1..]);
      }
    }
  }

  /** A token vault's claim is a claim on its estate, with the token balance as
      what is held; so everything here holds for tokens too. */
  lemma TokenClaimIsEstateClaim(e: Estate, who: Pubkey, now: i64)
    requires e.v.Shaped() && !e.v.IsSol()
    ensures I.ClaimSpl(e.v, e.held, who, now).Ok? <==> ClaimOn(e, who, now).Ok?
    ensures ClaimOn(e, who, now).Ok? ==>
              I.ClaimSpl(e.v, e.held, who, now).value
              == (ClaimOn(e, who, now).value.v, e.held - ClaimOn(e, who, now).value.held)
  {
  }

  /** At one instant past the deadline, a tripped vault accepts nobody's claim
      iff two or more heirs are unpaid and every one of their shares rounds to
      nothing. (`Stranding` says which vaults end up there.) */
  lemma StuckIff(e: Estate, now: i64)
    requires Sound(e) && e.v.isClaimed && UnpaidCount(e.v.Active()) > 0
    requires e.v.IsExpired(now) == Ok(true)
    ensures (forall who :: ClaimOn(e, who, now).Err?)
       <==> && UnpaidCount(e.v.Active()) >= 2
            && forall who :: Unpaid(e.v.Active(), who) ==> RoundsToNothing(e, who)
  {
    forall who ensures ClaimOn(e, who, now).Ok?
                  <==> && Unpaid(e.v.Active(), who)
                       && (UnpaidCount(e.v.Active()) == 1 || !RoundsToNothing(e, who))
    {
      ClaimAcceptedIff(e, who, now);
    }
    var heirs := e.v.Active();
    AllPaidIff(heirs);
    var i :| 0 <= i < |heirs| && !heirs[i].claimed;
    assert Unpaid(heirs, heirs[i].address);
  }
}
