/** The rules of one vault, on values: who is listed, when the switch trips,
    what an heir is owed. `Program.Vault` mutates its fields to match these. */
module VaultRules {
  import opened Base
  import opened Sums

  const MAX_BENEFICIARIES := 5
  const TOTAL_SHARE_BPS := 10_000
  const MIN_TIMEOUT_SECONDS := 60
  const MAX_TIMEOUT_SECONDS := 10 * 365 * 24 * 60 * 60

  datatype DmsError =
    | Unauthorized
    | TimeoutNotReached
    | AlreadyClaimed
    | InvalidShares
    | TooManyBeneficiaries
    | MathOverflow
    | InvalidTimeout
    | NoBeneficiaries
    | DuplicateBeneficiary
    | InvalidBeneficiary
    | InvalidAmount
    | NotSolVault
    | NotSplVault
    | VaultTriggered
    | InsufficientFunds
    | VaultNotEmpty
    | RuntimeRefusal  // raised by the runtime or the System Program, not by the vault program
    | LamportOverflow  // theirs too: a balance would pass 64 bits

  datatype Beneficiary = Beneficiary(address: Pubkey, shareBps: u16, claimed: bool)

  datatype BeneficiaryInput = BeneficiaryInput(address: Pubkey, shareBps: u16)

  function EmptySlot(): Beneficiary {
    Beneficiary(DefaultKey(), 0, false)
  }

  datatype ClaimTicket = ClaimTicket(shareBps: u16, isLast: bool)

  /** The stored fields of a vault account. `slots` is the whole fixed-size
      table; only the first `count` slots are meaningful. */
  datatype VaultData = VaultData(
    owner: Pubkey,
    vaultId: u64,
    mint: Option<Pubkey>,
    lastCheckin: i64,
    timeoutSeconds: i64,
    slots: seq<Beneficiary>,
    count: u8,
    isClaimed: bool,
    claimPool: u64,
    bump: u8)
  {
    /** What the account type itself guarantees; a count past the table panics. */
    predicate Shaped() {
      |slots| == MAX_BENEFICIARIES && count <= MAX_BENEFICIARIES
    }

    function Active(): seq<Beneficiary>
      requires Shaped()
    {
      slots[..count]
    }

    predicate IsSol() {
      mint.None?
    }

    function Deadline(): Result<i64, DmsError> {
      if FitsI64(lastCheckin + timeoutSeconds) then Ok(lastCheckin + timeoutSeconds) else Err(MathOverflow)
    }

    function IsExpired(now: i64): Result<bool, DmsError> {
      var deadline :- Deadline();
      Ok(now >= deadline)
    }
  }

  // ---- weights summed over heir tables

  function Bps(): Beneficiary -> nat {
    (b: Beneficiary) => b.shareBps
  }

  function UnpaidBps(): Beneficiary -> nat {
    (b: Beneficiary) => if b.claimed then 0 else b.shareBps
  }

  function UnpaidOne(): Beneficiary -> nat {
    (b: Beneficiary) => if b.claimed then 0 else 1
  }

  function UnpaidCount(heirs: seq<Beneficiary>): nat {
    Sum(heirs, UnpaidOne())
  }

  // ---- heir tables

  /** Position of the first heir with this address. */
  function IndexOf(heirs: seq<Beneficiary>, address: Pubkey): (r: Option<nat>)
    ensures r.None? <==> forall i :: 0 <= i < |heirs| ==> heirs[i].address != address
    ensures r.Some? ==> r.value < |heirs| && heirs[r.value].address == address
    ensures r.Some? ==> forall i :: 0 <= i < r.value ==> heirs[i].address != address
  {
    if heirs == [] then None
    else
      match IndexOf(heirs[..|heirs| - 1], address)
      case Some(i) => Some(i)
      case None => if heirs[|heirs| - 1].address == address then Some(|heirs| - 1) else None
  }

  predicate Distinct(heirs: seq<Beneficiary>) {
    forall i, j :: 0 <= i < j < |heirs| ==> heirs[i].address != heirs[j].address
  }

  /** What an heir table promises: one to five heirs, real and distinct
      addresses, no empty share, shares adding up to exactly the whole. */
  predicate ValidTable(heirs: seq<Beneficiary>) {
    && 1 <= |heirs| <= MAX_BENEFICIARIES
    && (forall i :: 0 <= i < |heirs| ==> heirs[i].address != DefaultKey() && heirs[i].shareBps > 0)
    && Distinct(heirs)
    && Sum(heirs, Bps()) == TOTAL_SHARE_BPS
  }

  /** The first complaint raised at slot `i`, once the slots before it passed. */
  function SlotFault(heirs: seq<Beneficiary>, i: nat): Option<DmsError>
    requires i < |heirs|
  {
    if heirs[i].address == DefaultKey() then Some(InvalidBeneficiary)
    else if heirs[i].shareBps == 0 then Some(InvalidShares)
    else if exists j :: 0 <= j < i && heirs[j].address == heirs[i].address then Some(DuplicateBeneficiary)
    else if Sum(heirs[..i + 1], Bps()) > U16_MAX then Some(MathOverflow)
    else None
  }

  function FirstFault(heirs: seq<Beneficiary>, i: nat): Option<DmsError>
    requires i <= |heirs|
    decreases |heirs| - i
  {
    if i == |heirs| then None
    else if SlotFault(heirs, i).Some? then SlotFault(heirs, i)
    else FirstFault(heirs, i + 1)
  }

  function TableCheck(heirs: seq<Beneficiary>): Result<(), DmsError> {
    if |heirs| == 0 then Err(NoBeneficiaries)
    else if |heirs| > MAX_BENEFICIARIES then Err(TooManyBeneficiaries)
    else match FirstFault(heirs, 0)
      case Some(e) => Err(e)
      case None => if Sum(heirs, Bps()) == TOTAL_SHARE_BPS then Ok(()) else Err(InvalidShares)
  }

  lemma {:induction false} NoFaultIff(heirs: seq<Beneficiary>, i: nat)
    requires i <= |heirs|
    ensures FirstFault(heirs, i).None? <==> forall k :: i <= k < |heirs| ==> SlotFault(heirs, k).None?
    decreases |heirs| - i
  {
    if i < |heirs| {
      NoFaultIff(heirs, i + 1);
    }
  }

  lemma {:induction false} PrefixSumMonotone<T>(s: seq<T>, f: T -> nat, i: nat)
    requires i <= |s|
    ensures Sum(s[..i], f) <= Sum(s, f)
  {
    if i < |s| {
      PrefixSumMonotone(s[..|s| - 1], f, i);
      assert s[..|s| - 1][..i] == s[..i];
    } else {
      assert s[..i] == s;
    }
  }

  /** The check accepts exactly the valid tables: its 16-bit running total
      never turns one away, and no overflow slips a bad total through. */
  lemma TableCheckIff(heirs: seq<Beneficiary>)
    ensures TableCheck(heirs).Ok? <==> ValidTable(heirs)
  {
    if 1 <= |heirs| <= MAX_BENEFICIARIES {
      NoFaultIff(heirs, 0);
      if FirstFault(heirs, 0).None? {
        forall i, j | 0 <= i < j < |heirs| ensures heirs[i].address != heirs[j].address {
          assert SlotFault(heirs, j).None?;
        }
        forall i | 0 <= i < |heirs| ensures heirs[i].address != DefaultKey() && heirs[i].shareBps > 0 {
          assert SlotFault(heirs, i).None?;
        }
      } else if ValidTable(heirs) {
        forall i | 0 <= i < |heirs| ensures SlotFault(heirs, i).None? {
          PrefixSumMonotone(heirs, Bps(), i + 1);
        }
      }
    }
  }

  /** The first `i` heirs raise no complaint: real and distinct addresses, no
      empty share, a total that fits 16 bits. */
  predicate GoodUpTo(heirs: seq<Beneficiary>, i: nat)
    requires i <= |heirs|
  {
    && (forall k :: 0 <= k < i ==> heirs[k].address != DefaultKey() && heirs[k].shareBps > 0)
    && (forall j, k :: 0 <= j < k < i ==> heirs[j].address != heirs[k].address)
    && Sum(heirs[..i], Bps()) <= U16_MAX
  }

  lemma {:induction false} GoodUpToHasNoFault(heirs: seq<Beneficiary>, i: nat)
    requires i <= |heirs| && GoodUpTo(heirs, i)
    ensures FirstFault(heirs, 0) == FirstFault(heirs, i)
  {
    if i > 0 {
      assert heirs[..i][..i - 1] == heirs[..i - 1];
      GoodUpToHasNoFault(heirs, i - 1);
      assert SlotFault(heirs, i - 1).None?;
    }
  }

  predicate Repeats(heirs: seq<Beneficiary>, i: nat)
    requires i < |heirs|
  {
    exists j :: 0 <= j < i && heirs[j].address == heirs[i].address
  }

  /** Why a table is turned away for its first bad slot: the default address, an
      empty share, a repeated address, or a total past 16 bits. */
  lemma FirstBadSlotDecides(heirs: seq<Beneficiary>, i: nat)
    requires 1 <= |heirs| <= MAX_BENEFICIARIES && i < |heirs|
    requires GoodUpTo(heirs, i) && !GoodUpTo(heirs, i + 1)
    ensures heirs[i].address == DefaultKey() ==> TableCheck(heirs) == Err(InvalidBeneficiary)
    ensures heirs[i].address != DefaultKey() && heirs[i].shareBps == 0 ==> TableCheck(heirs) == Err(InvalidShares)
    ensures heirs[i].address != DefaultKey() && heirs[i].shareBps > 0 ==>
              TableCheck(heirs) == Err(if Repeats(heirs, i) then DuplicateBeneficiary else MathOverflow)
  {
    GoodUpToHasNoFault(heirs, i);
  }

  /** ... and when no slot is bad: it is empty, too long, or adds up to something
      other than the whole. */
  lemma WholeTableRefusals(heirs: seq<Beneficiary>)
    ensures |heirs| == 0 ==> TableCheck(heirs) == Err(NoBeneficiaries)
    ensures |heirs| > MAX_BENEFICIARIES ==> TableCheck(heirs) == Err(TooManyBeneficiaries)
    ensures 1 <= |heirs| <= MAX_BENEFICIARIES && GoodUpTo(heirs, |heirs|) && Sum(heirs, Bps()) != TOTAL_SHARE_BPS
        ==> TableCheck(heirs) == Err(InvalidShares)
  {
    if GoodUpTo(heirs, |heirs|) {
      GoodUpToHasNoFault(heirs, |heirs|);
    }
  }

  /** A whole stored table: valid in its active part, zeroed after it. */
  predicate GoodSlots(v: VaultData) {
    && v.Shaped()
    && ValidTable(v.Active())
    && forall i :: v.count <= i < MAX_BENEFICIARIES ==> v.slots[i] == EmptySlot()
  }

  // ---- claims

  /** `pool * bps / 10_000`; the product fits 128 bits, the quotient may not fit 64. */
  function ShareOf(pool: u64, bps: u16): Result<u64, DmsError> {
    var amount := pool * bps / TOTAL_SHARE_BPS;
    if amount <= U64_MAX then Ok(amount) else Err(MathOverflow)
  }

  /** A share of at most the whole is never refused and never exceeds the pool. */
  lemma ShareOfWhole(pool: u64, bps: u16)
    requires bps <= TOTAL_SHARE_BPS
    ensures ShareOf(pool, bps) == Ok(pool * bps / TOTAL_SHARE_BPS) && ShareOf(pool, bps).value <= pool
  {
    assert pool * bps <= pool * TOTAL_SHARE_BPS;
  }

  function MarkPaid(slots: seq<Beneficiary>, i: nat): seq<Beneficiary>
    requires i < |slots|
  {
    slots[i := slots[i].(claimed := true)]
  }

  function AuthorizeClaim(v: VaultData, claimant: Pubkey, now: i64, pool: u64)
    : (r: Result<(VaultData, ClaimTicket), DmsError>)
    requires v.Shaped()
    ensures r.Ok? ==> r.value.0.Shaped()
  {
    var expired :- v.IsExpired(now);
    if !expired then Err(TimeoutNotReached)
    else
      match IndexOf(v.Active(), claimant)
      case None => Err(Unauthorized)
      case Some(i) =>
        if v.slots[i].claimed then Err(AlreadyClaimed)
        else
          var frozen := if v.isClaimed then v else v.(isClaimed := true, claimPool := pool);
          Ok((frozen.(slots := MarkPaid(v.slots, i)),
              ClaimTicket(v.slots[i].shareBps, UnpaidCount(v.Active()) == 1)))
  }

  /** The part of a claim both asset kinds share: book the heir, then pay a
      non-last one their floored share and the last one everything held. */
  function ClaimCore(v: VaultData, claimant: Pubkey, now: i64, available: u64)
    : (r: Result<(VaultData, u64), DmsError>)
    requires v.Shaped()
    ensures r.Ok? ==> r.value.0.Shaped() && 0 < r.value.1 <= available
  {
    var (booked, ticket) :- AuthorizeClaim(v, claimant, now, available);
    var amount :- if ticket.isLast then Ok(available) else ShareOf(booked.claimPool, ticket.shareBps);
    if 0 < amount <= available then Ok((booked, amount)) else Err(InsufficientFunds)
  }

  /** What one claim does: it freezes the pool if nothing has, marks the claimant
      alone, and pays the last heir everything available and any other the
      floored share of the pool. */
  lemma ClaimPays(v: VaultData, claimant: Pubkey, now: i64, available: u64)
    requires v.Shaped() && ClaimCore(v, claimant, now, available).Ok?
    ensures var (v', amount) := ClaimCore(v, claimant, now, available).value;
            var pool := if v.isClaimed then v.claimPool else available;
            && (exists i :: 0 <= i < v.count && v.slots[i].address == claimant && !v.slots[i].claimed
                  && v' == v.(isClaimed := true, claimPool := pool, slots := v.slots[i := v.slots[i].(claimed := true)])
                  && amount == if UnpaidCount(v.Active()) == 1 then available
                               else pool * v.slots[i].shareBps / TOTAL_SHARE_BPS)
            && 0 < amount <= available
  {
    var i := IndexOf(v.Active(), claimant).value;
    assert v.slots[i] == v.Active()[i];
  }

  /** Why a claim is not authorized, in the order looked at: the deadline passes 64
      bits, it is not reached, the claimant is not listed, or is paid already. */
  lemma AuthorizeRefusals(v: VaultData, claimant: Pubkey, now: i64, pool: u64)
    requires v.Shaped()
    ensures AuthorizeClaim(v, claimant, now, pool) == Err(MathOverflow) <==> !FitsI64(v.lastCheckin + v.timeoutSeconds)
    ensures AuthorizeClaim(v, claimant, now, pool) == Err(TimeoutNotReached)
       <==> FitsI64(v.lastCheckin + v.timeoutSeconds) && now < v.lastCheckin + v.timeoutSeconds
    ensures AuthorizeClaim(v, claimant, now, pool) == Err(Unauthorized)
       <==> && FitsI64(v.lastCheckin + v.timeoutSeconds) && v.lastCheckin + v.timeoutSeconds <= now
            && forall i :: 0 <= i < v.count ==> v.slots[i].address != claimant
    ensures AuthorizeClaim(v, claimant, now, pool) == Err(AlreadyClaimed)
       <==> && FitsI64(v.lastCheckin + v.timeoutSeconds) && v.lastCheckin + v.timeoutSeconds <= now
            && exists i :: 0 <= i < v.count && FirstListed(v, claimant, i) && v.slots[i].claimed
    ensures AuthorizeClaim(v, claimant, now, pool).Ok?
       <==> && FitsI64(v.lastCheckin + v.timeoutSeconds) && v.lastCheckin + v.timeoutSeconds <= now
            && exists i :: 0 <= i < v.count && FirstListed(v, claimant, i) && !v.slots[i].claimed
  {
    match IndexOf(v.Active(), claimant)
    case Some(i) =>
      assert FirstListed(v, claimant, i);
      assert forall k :: 0 <= k < v.count && FirstListed(v, claimant, k) ==> k == i;
    case None =>
      assert forall k :: 0 <= k < v.count ==> v.slots[k] == v.Active()[k];
  }

  /** Slot `i` is the first in use with this address. */
  predicate FirstListed(v: VaultData, who: Pubkey, i: nat)
    requires v.Shaped()
  {
    i < v.count && v.slots[i].address == who && forall k :: 0 <= k < i ==> v.slots[k].address != who
  }

  /** An authorized claim, of any vault whatever, goes through iff what it would pay
      is something and is there; if not, it is refused for the funds. */
  lemma AuthorizedClaimIff(v: VaultData, claimant: Pubkey, now: i64, available: u64, i: nat)
    requires v.Shaped() && AuthorizeClaim(v, claimant, now, available).Ok?
    requires i < v.count && FirstListed(v, claimant, i) && v.slots[i].shareBps <= TOTAL_SHARE_BPS
    ensures var due := if UnpaidCount(v.Active()) == 1 then available
                       else (if v.isClaimed then v.claimPool else available) * v.slots[i].shareBps / TOTAL_SHARE_BPS;
            && (0 < due <= available <==> ClaimCore(v, claimant, now, available).Ok?)
            && (due == 0 || due > available <==> ClaimCore(v, claimant, now, available) == Err(InsufficientFunds))
  {
    assert IndexOf(v.Active(), claimant) == Some(i);
    ShareOfWhole(if v.isClaimed then v.claimPool else available, v.slots[i].shareBps);
  }
}
