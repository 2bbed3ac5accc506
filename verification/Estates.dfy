/** The money side of an inheritance, for either asset: a vault, what it holds
    beyond its reserve, and books kept since the first claim. */
module Estates {
  import opened Base
  import opened Sums
  import opened VaultRules

  /** History since the switch tripped. `inflow` came in while an heir was
      still unpaid, `late` after the last one swept; `sweeper` is that one's slot. */
  datatype Books = Books(inflow: nat, late: nat, paid: map<Pubkey, nat>, sweeper: Option<nat>)

  const EMPTY_BOOKS := Books(0, 0, map[], None)

  datatype Estate = Estate(v: VaultData, held: u64, books: Books)

  // ---- weights

  /** What the books say an heir was paid. */
  function PaidTo(paid: map<Pubkey, nat>): Beneficiary -> nat {
    (b: Beneficiary) => if b.claimed && b.address in paid then paid[b.address] else 0
  }

  /** Ten-thousandths lost to rounding when this heir was paid. */
  function Dust(pool: u64): Beneficiary -> nat {
    (b: Beneficiary) => if b.claimed then pool * b.shareBps % TOTAL_SHARE_BPS else 0
  }

  /** The floored share this heir is still owed. */
  function Owed(pool: u64): Beneficiary -> nat {
    (b: Beneficiary) => if b.claimed then 0 else pool * b.shareBps / TOTAL_SHARE_BPS
  }

  // ---- steps

  /** A successful claim, with the books brought up to date. */
  function ClaimOn(e: Estate, who: Pubkey, now: i64): (r: Result<Estate, DmsError>)
    requires e.v.Shaped()
    ensures r.Ok? ==> r.value.v.Shaped()
  {
    var (v, amount) :- ClaimCore(e.v, who, now, e.held);
    Ok(Estate(v, e.held - amount, BooksAfterClaim(e.v.Active(), e.books, IndexOf(e.v.Active(), who).value, amount)))
  }

  function BooksAfterClaim(heirs: seq<Beneficiary>, books: Books, i: nat, amount: nat): Books
    requires i < |heirs|
  {
    books.(paid := books.paid[heirs[i].address := amount],
           sweeper := if UnpaidCount(heirs) == 1 then Some(i) else books.sweeper)
  }

  function BooksAfterInflow(e: Estate, amount: nat): Books
    requires e.v.Shaped()
  {
    if !e.v.isClaimed then e.books
    else if UnpaidCount(e.v.Active()) == 0 then e.books.(late := e.books.late + amount)
    else e.books.(inflow := e.books.inflow + amount)
  }

  function InflowOn(e: Estate, amount: nat): Estate
    requires e.v.Shaped()
    requires e.held + amount <= U64_MAX
  {
    Estate(e.v, e.held + amount, BooksAfterInflow(e, amount))
  }

  // ---- the invariant

  /** Floored shares of a pool, as a function of the basis points. */
  function Floor(pool: u64): u16 -> nat {
    (bps: u16) => pool * bps / TOTAL_SHARE_BPS
  }

  /** The books balance against the pool: every coin is held or was paid out,
      exactly the paid heirs are marked, and every paid heir but the sweeper
      got their `share`. */
  predicate Balanced(heirs: seq<Beneficiary>, pool: nat, share: u16 -> nat, held: nat, books: Books) {
    && (forall i :: 0 <= i < |heirs| ==> (heirs[i].claimed <==> heirs[i].address in books.paid))
    && (forall i :: 0 <= i < |heirs| && heirs[i].claimed && books.sweeper != Some(i) ==>
          books.paid[heirs[i].address] == share(heirs[i].shareBps))
    && pool + books.inflow + books.late == held + Sum(heirs, PaidTo(books.paid))
    && (if UnpaidCount(heirs) > 0
        then books.sweeper.None? && books.late == 0
        else books.sweeper.Some? && books.sweeper.value < |heirs| && held == books.late)
  }

  /** The pool a claim made now would be measured against. */
  function PoolFor(e: Estate): u64 {
    if e.v.isClaimed then e.v.claimPool else e.held
  }

  predicate SomeonePaid(heirs: seq<Beneficiary>) {
    exists i :: 0 <= i < |heirs| && heirs[i].claimed
  }

  /** What every step keeps: a good table whose books balance; before the first
      claim nothing is booked, after it there is a pool and somebody was paid. */
  predicate Sound(e: Estate) {
    && GoodSlots(e.v)
    && Balanced(e.v.Active(), PoolFor(e), Floor(PoolFor(e)), e.held, e.books)
    && (if e.v.isClaimed then e.v.claimPool > 0 && SomeonePaid(e.v.Active())
        else e.v.claimPool == 0 && e.books == EMPTY_BOOKS)
  }

  // ---- marking one heir

  lemma MarkPaidTable(heirs: seq<Beneficiary>, i: nat)
    requires i < |heirs|
    ensures ValidTable(heirs) ==> ValidTable(MarkPaid(heirs, i))
    ensures !heirs[i].claimed ==> UnpaidCount(MarkPaid(heirs, i)) == UnpaidCount(heirs) - 1
  {
    var marked := heirs[i].(claimed := true);
    SumUpdate(heirs, Bps(), i, marked);
    SumUpdate(heirs, UnpaidOne(), i, marked);
  }

  lemma SameAddresses(s: seq<Beneficiary>, t: seq<Beneficiary>, a: Pubkey)
    requires |s| == |t| && forall i :: 0 <= i < |s| ==> s[i].address == t[i].address
    ensures IndexOf(s, a) == IndexOf(t, a)
  {
  }

  lemma MarkPaidBooked(heirs: seq<Beneficiary>, i: nat, paid: map<Pubkey, nat>, amount: nat)
    requires i < |heirs| && Distinct(heirs) && !heirs[i].claimed
    ensures Sum(MarkPaid(heirs, i), PaidTo(paid[heirs[i].address := amount])) == Sum(heirs, PaidTo(paid)) + amount
  {
    var paid' := paid[heirs[i].address := amount];
    SumSame(heirs, PaidTo(paid), PaidTo(paid'));
    SumUpdate(heirs, PaidTo(paid'), i, heirs[i].(claimed := true));
  }

  lemma SomeUnpaid(heirs: seq<Beneficiary>, i: nat)
    requires i < |heirs| && !heirs[i].claimed
    ensures UnpaidCount(heirs) >= 1
  {
    SumAtLeast(heirs, UnpaidOne(), i);
  }

  // ---- every step keeps the invariant

  /** Booking one more payment keeps the books balanced, whatever the share rule. */
  lemma BookingKeepsBalance(heirs: seq<Beneficiary>, i: nat, pool: nat, share: u16 -> nat,
                            held: nat, books: Books, amount: nat)
    requires i < |heirs| && Distinct(heirs) && !heirs[i].claimed
    requires Balanced(heirs, pool, share, held, books)
    requires amount == if UnpaidCount(heirs) == 1 then held else share(heirs[i].shareBps)
    requires amount <= held
    ensures Balanced(MarkPaid(heirs, i), pool, share, held - amount,
                     BooksAfterClaim(heirs, books, i, amount))
  {
    MarkPaidTable(heirs, i);
    MarkPaidBooked(heirs, i, books.paid, amount);
    SomeUnpaid(heirs, i);
  }

  lemma MarkPaidGoodSlots(v: VaultData, v': VaultData, i: nat)
    requires GoodSlots(v) && i < v.count
    requires v'.slots == MarkPaid(v.slots, i) && v'.count == v.count
    ensures GoodSlots(v') && v'.Active() == MarkPaid(v.Active(), i)
  {
    assert v'.Active() == MarkPaid(v.Active(), i);
    MarkPaidTable(v.Active(), i);
  }

  lemma BookingKeepsSound(e: Estate, i: nat, v': VaultData, amount: nat)
    requires Sound(e) && i < e.v.count && !e.v.slots[i].claimed && PoolFor(e) > 0
    requires v'.slots == MarkPaid(e.v.slots, i) && v'.count == e.v.count
    requires v'.isClaimed && v'.claimPool == PoolFor(e)
    requires amount == if UnpaidCount(e.v.Active()) == 1 then e.held else Floor(PoolFor(e))(e.v.slots[i].shareBps)
    requires amount <= e.held
    ensures v'.Shaped()
    ensures Sound(Estate(v', e.held - amount,
                         BooksAfterClaim(e.v.Active(), e.books, i, amount)))
  {
    MarkPaidGoodSlots(e.v, v', i);
    assert v'.Active()[i].claimed;
    BookingKeepsBalance(e.v.Active(), i, PoolFor(e), Floor(PoolFor(e)), e.held, e.books, amount);
  }

  lemma ClaimKeepsSound(e: Estate, who: Pubkey, now: i64)
    requires Sound(e) && ClaimOn(e, who, now).Ok?
    ensures Sound(ClaimOn(e, who, now).value)
    ensures PoolFor(ClaimOn(e, who, now).value) == PoolFor(e)
  {
    var e' := ClaimOn(e, who, now).value;
    BookingKeepsSound(e, IndexOf(e.v.Active(), who).value, e'.v, e.held - e'.held);
  }

  /** A claim moves no pool: the first one freezes what is held, the rest find it frozen. */
  lemma ClaimKeepsPool(e: Estate, who: Pubkey, now: i64)
    requires e.v.Shaped() && ClaimOn(e, who, now).Ok?
    ensures PoolFor(ClaimOn(e, who, now).value) == PoolFor(e)
  {
  }

  /** What a claim takes out is what it books as paid. */
  lemma ClaimBooksPayment(e: Estate, who: Pubkey, now: i64)
    requires GoodSlots(e.v) && ClaimOn(e, who, now).Ok?
    ensures var e' := ClaimOn(e, who, now).value;
            && GoodSlots(e'.v) && e'.held <= e.held
            && Sum(e'.v.Active(), PaidTo(e'.books.paid)) == Sum(e.v.Active(), PaidTo(e.books.paid)) + (e.held - e'.held)
  {
    var e', i := ClaimOn(e, who, now).value, IndexOf(e.v.Active(), who).value;
    MarkPaidGoodSlots(e.v, e'.v, i);
    MarkPaidBooked(e.v.Active(), i, e.books.paid, e.held - e'.held);
  }

  lemma InflowKeepsSound(e: Estate, amount: nat)
    requires Sound(e) && e.held + amount <= U64_MAX
    ensures Sound(InflowOn(e, amount))
  {
  }

  // ---- solvency

  /** Rounding, summed over a partly paid table. */
  lemma {:induction false} FlooredShares(heirs: seq<Beneficiary>, pool: u64, paid: map<Pubkey, nat>)
    requires forall i :: 0 <= i < |heirs| && heirs[i].claimed ==>
               heirs[i].address in paid && paid[heirs[i].address] == Floor(pool)(heirs[i].shareBps)
    ensures pool * Sum(heirs, Bps())
         == 10_000 * Sum(heirs, PaidTo(paid)) + Sum(heirs, Dust(pool)) + pool * Sum(heirs, UnpaidBps())
    ensures Sum(heirs, Dust(pool)) <= 9_999 * (|heirs| - UnpaidCount(heirs))
    ensures 10_000 * Sum(heirs, Owed(pool)) <= pool * Sum(heirs, UnpaidBps())
  {
    if heirs != [] {
      var rest, b := heirs[..|heirs| - 1], heirs[|heirs| - 1];
      FlooredShares(rest, pool, paid);
      assert pool * (Sum(rest, Bps()) + b.shareBps) == pool * Sum(rest, Bps()) + pool * b.shareBps;
      assert pool * (Sum(rest, UnpaidBps()) + b.shareBps) == pool * Sum(rest, UnpaidBps()) + pool * b.shareBps;
    }
  }

  /** Exact solvency, over any table whose books balance under floored shares. */
  lemma BalancedIsSolvent(heirs: seq<Beneficiary>, pool: u64, held: nat, books: Books)
    requires Balanced(heirs, pool, Floor(pool), held, books) && UnpaidCount(heirs) > 0
    requires Sum(heirs, Bps()) == TOTAL_SHARE_BPS
    ensures 10_000 * held == pool * Sum(heirs, UnpaidBps()) + Sum(heirs, Dust(pool)) + 10_000 * books.inflow
    ensures Sum(heirs, Dust(pool)) <= 9_999 * (|heirs| - UnpaidCount(heirs))
    ensures Sum(heirs, Owed(pool)) <= held
  {
    FlooredShares(heirs, pool, books.paid);
  }

  /** Exact solvency. While anyone is unpaid, what is held is the unpaid share
      of the pool, plus the dust of the payments made, plus what came in since;
      so all the floored shares still owed are covered at once. */
  lemma Solvency(e: Estate)
    requires Sound(e) && UnpaidCount(e.v.Active()) > 0
    ensures var heirs, pool := e.v.Active(), PoolFor(e);
            && 10_000 * e.held == pool * Sum(heirs, UnpaidBps()) + Sum(heirs, Dust(pool)) + 10_000 * e.books.inflow
            && Sum(heirs, Dust(pool)) <= 9_999 * (|heirs| - UnpaidCount(heirs))
            && Sum(heirs, Owed(pool)) <= e.held
  {
    BalancedIsSolvent(e.v.Active(), PoolFor(e), e.held, e.books);
  }

  lemma ProductPositive(x: nat, y: nat)
    requires x > 0 && y > 0
    ensures x * y > 0
  {
  }

  /** A tripped vault with nothing left over its reserve has paid everyone. */
  lemma EmptyMeansAllPaid(e: Estate)
    requires Sound(e) && e.v.isClaimed && e.held == 0
    ensures forall i :: 0 <= i < e.v.count ==> e.v.slots[i].claimed
  {
    var heirs := e.v.Active();
    forall i | 0 <= i < e.v.count ensures e.v.slots[i].claimed {
      if !heirs[i].claimed {
        SomeUnpaid(heirs, i);
        Solvency(e);
        SumAtLeast(heirs, UnpaidBps(), i);
        ProductPositive(e.v.claimPool, Sum(heirs, UnpaidBps()));
      }
    }
  }

  lemma AllPaidIff(heirs: seq<Beneficiary>)
    ensures UnpaidCount(heirs) == 0 <==> forall i :: 0 <= i < |heirs| ==> heirs[i].claimed
  {
    SumZero(heirs, UnpaidOne());
  }

  // ---- progress

  predicate Unpaid(heirs: seq<Beneficiary>, who: Pubkey) {
    IndexOf(heirs, who).Some? && !heirs[IndexOf(heirs, who).value].claimed
  }

  function BpsOf(heirs: seq<Beneficiary>, who: Pubkey): u16 {
    match IndexOf(heirs, who)
    case Some(i) => heirs[i].shareBps
    case None => 0
  }

  /** A tripped vault with an unpaid heir is not empty. */
  lemma TrippedHolds(e: Estate)
    requires Sound(e) && e.v.isClaimed && UnpaidCount(e.v.Active()) > 0
    ensures e.held > 0
  {
    if e.held == 0 {
      EmptyMeansAllPaid(e);
      AllPaidIff(e.v.Active());
    }
  }

  /** An unpaid heir's share of the pool exists and is covered by what is held. */
  lemma ShareIsCovered(e: Estate, i: nat)
    requires Sound(e) && i < e.v.count && !e.v.slots[i].claimed
    ensures ShareOf(PoolFor(e), e.v.slots[i].shareBps).Ok?
    ensures ShareOf(PoolFor(e), e.v.slots[i].shareBps).value <= e.held
  {
    var heirs := e.v.Active();
    SumAtLeast(heirs, Bps(), i);
    ShareOfWhole(PoolFor(e), heirs[i].shareBps);
    if e.v.isClaimed {
      SomeUnpaid(heirs, i);
      Solvency(e);
      SumAtLeast(heirs, Owed(PoolFor(e)), i);
    }
  }

  /** Exactly when a claim goes through: past the deadline, by an unpaid heir
      whose share of the pool does not round to nothing — or who is the last
      one, as long as there is anything to sweep. */
  lemma ClaimAcceptedIff(e: Estate, who: Pubkey, now: i64)
    requires Sound(e)
    ensures ClaimOn(e, who, now).Ok?
       <==> && e.v.IsExpired(now) == Ok(true)
            && Unpaid(e.v.Active(), who)
            && (if UnpaidCount(e.v.Active()) == 1 then e.held > 0
                else PoolFor(e) * BpsOf(e.v.Active(), who) >= TOTAL_SHARE_BPS)
    ensures e.v.isClaimed && UnpaidCount(e.v.Active()) > 0 ==> e.held > 0
  {
    if e.v.isClaimed && UnpaidCount(e.v.Active()) > 0 {
      TrippedHolds(e);
    }
    if Unpaid(e.v.Active(), who) {
      ShareIsCovered(e, IndexOf(e.v.Active(), who).value);
    }
  }

  // ---- what a completed estate paid out

  /** What the sweeper got, from the table as it stood before the sweep. */
  lemma SweepIsShareAndDust(heirs: seq<Beneficiary>, w: nat, pool: u64, books: Books)
    requires w < |heirs| && Distinct(heirs) && Sum(heirs, Bps()) == TOTAL_SHARE_BPS
    requires forall i :: 0 <= i < |heirs| ==> heirs[i].claimed && heirs[i].address in books.paid
    requires forall i :: 0 <= i < |heirs| && i != w ==>
               books.paid[heirs[i].address] == Floor(pool)(heirs[i].shareBps)
    requires Sum(heirs, PaidTo(books.paid)) == pool + books.inflow
    ensures 0 <= 10_000 * (books.paid[heirs[w].address] - books.inflow) - pool * heirs[w].shareBps
              <= 9_999 * (|heirs| - 1)
  {
    var before := heirs[w].(claimed := false);
    var table := heirs[w := before];
    FlooredShares(table, pool, books.paid);
    SumUpdate(heirs, PaidTo(books.paid), w, before);
    SumUpdate(heirs, Bps(), w, before);
    SumUpdate(heirs, UnpaidBps(), w, before);
    SumUpdate(heirs, UnpaidOne(), w, before);
    SumZero(heirs, UnpaidBps());
    SumZero(heirs, UnpaidOne());
    assert UnpaidCount(table) == 1 && Sum(table, UnpaidBps()) == heirs[w].shareBps;
    assert Sum(table, Bps()) == TOTAL_SHARE_BPS;
    SweepArithmetic(pool, pool * heirs[w].shareBps, Sum(table, PaidTo(books.paid)), Sum(table, Dust(pool)),
                    books.paid[heirs[w].address], books.inflow);
  }

  lemma SweepArithmetic(pool: nat, cut: nat, others: nat, dust: nat, last: nat, inflow: nat)
    requires pool * 10_000 == 10_000 * others + dust + cut
    requires others + last == pool + inflow
    ensures 10_000 * (last - inflow) - cut == dust
  {
  }

  /** Once everyone is paid: all but the sweeper got exactly their floor, the
      sweeper got at least the ceiling of theirs and at most the floor plus one
      coin per other heir (on top of what came in meanwhile), and together they
      got the pool plus that inflow. */
  lemma CompletePayouts(e: Estate, w: nat)
    requires Sound(e) && e.v.isClaimed && UnpaidCount(e.v.Active()) == 0 && e.books.sweeper == Some(w)
    ensures var heirs, pool, paid := e.v.Active(), e.v.claimPool, e.books.paid;
            && w < |heirs|
            && (forall i :: 0 <= i < |heirs| ==> heirs[i].address in paid)
            && (forall i :: 0 <= i < |heirs| && i != w ==>
                  paid[heirs[i].address] == pool * heirs[i].shareBps / TOTAL_SHARE_BPS)
            && (pool * heirs[w].shareBps + 9_999) / TOTAL_SHARE_BPS + e.books.inflow <= paid[heirs[w].address]
            && paid[heirs[w].address] <= pool * heirs[w].shareBps / TOTAL_SHARE_BPS + (|heirs| - 1) + e.books.inflow
            && Sum(heirs, PaidTo(paid)) == pool + e.books.inflow
            && e.held == e.books.late
  {
    var heirs := e.v.Active();
    AllPaidIff(heirs);
    SweepIsShareAndDust(heirs, w, e.v.claimPool, e.books);
  }
}
