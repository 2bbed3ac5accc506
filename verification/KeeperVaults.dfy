/** A vault as the keeper sees it, on Go's clock. */
module KeeperVaults {
  import opened Base
  import opened VaultRules

  /** An instant, in nanoseconds since the Unix epoch. */
  type Time = int

  /** `time.Duration`: signed 64-bit nanoseconds. */
  type Duration = i64

  const SECOND := 1_000_000_000

  /** `Time.Sub` saturates instead of wrapping. */
  function Saturate(x: int): Duration {
    if x > I64_MAX then I64_MAX else if x < I64_MIN then I64_MIN else x
  }

  /** Two's-complement truncation, as Go's 64-bit multiplication does. */
  function Wrap64(x: int): i64 {
    (x + 0x8000_0000_0000_0000) % 0x1_0000_0000_0000_0000 - 0x8000_0000_0000_0000
  }

  datatype KeeperVault = KeeperVault(
    address: Pubkey,
    owner: Pubkey,
    vaultId: u64,
    mint: Option<Pubkey>,
    lastCheckIn: Time,
    timeout: Duration,
    beneficiaries: seq<Beneficiary>,
    isClaimed: bool,
    claimPool: u64,
    bump: u8)
  {
    function Deadline(): Time {
      lastCheckIn + timeout
    }

    function TimeLeft(now: Time): Duration {
      Saturate(Deadline() - now)
    }

    /** Position of the first heir with this address, or -1. */
    method Index(address: Pubkey) returns (r: int)
      ensures r == match IndexOf(beneficiaries, address) case Some(i) => i case None => -1
    {
      for i := 0 to |beneficiaries|
        invariant forall k :: 0 <= k < i ==> beneficiaries[k].address != address
      {
        if beneficiaries[i].address == address {
          return i;
        }
      }
      return -1;
    }
  }

  datatype Status = Active | DueSoon | Expired | Triggered

  function StatusOf(v: KeeperVault, now: Time, dueSoon: Duration): Status {
    if v.isClaimed then Triggered
    else if v.Deadline() <= now then Expired
    else if v.TimeLeft(now) <= dueSoon then DueSoon
    else Active
  }

  predicate NeedsAttention(s: Status) {
    s.DueSoon? || s.Expired?
  }

  /** The time left is the distance to the deadline, cut off where 64 bits end. */
  lemma TimeLeftIsExact(v: KeeperVault, now: Time)
    ensures FitsI64(v.lastCheckIn + v.timeout - now) ==> v.TimeLeft(now) == v.lastCheckIn + v.timeout - now
    ensures v.lastCheckIn + v.timeout - now > I64_MAX ==> v.TimeLeft(now) == I64_MAX
    ensures v.lastCheckIn + v.timeout - now < I64_MIN ==> v.TimeLeft(now) == I64_MIN
  {
  }

  /** Not further away than `d`, as far as 64 bits can tell. */
  predicate Within(distance: int, d: Duration) {
    distance <= d || d == I64_MAX
  }

  /** Each status, exactly, by the clock. */
  lemma StatusIff(v: KeeperVault, now: Time, dueSoon: Duration)
    requires dueSoon > 0
    ensures StatusOf(v, now, dueSoon).Triggered? <==> v.isClaimed
    ensures StatusOf(v, now, dueSoon).Expired? <==> !v.isClaimed && v.lastCheckIn + v.timeout <= now
    ensures StatusOf(v, now, dueSoon).DueSoon?
       <==> !v.isClaimed && now < v.lastCheckIn + v.timeout && Within(v.lastCheckIn + v.timeout - now, dueSoon)
    ensures StatusOf(v, now, dueSoon).Active?
       <==> !v.isClaimed && now < v.lastCheckIn + v.timeout && !Within(v.lastCheckIn + v.timeout - now, dueSoon)
  {
  }
}
