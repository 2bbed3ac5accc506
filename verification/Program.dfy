/** The program as it runs: accounts and the vault as objects that the
    handlers mutate in place, each handler proved against `Instructions`. */
module Program {
  import opened Base
  import opened Sums
  import opened VaultRules
  import I = Instructions

  class AccountInfo {
    const key: Pubkey
    var lamports: u64

    constructor (key: Pubkey, lamports: u64)
      ensures this.key == key && this.lamports == lamports
    {
      this.key, this.lamports := key, lamports;
    }
  }

  /** Both balances are read before either is written: with one and the same
      account on both sides the debit is lost, which is why no caller passes it. */
  method MoveLamports(from: AccountInfo, to: AccountInfo, amount: u64) returns (r: Result<(), DmsError>)
    modifies from, to
    ensures old(from.lamports) < amount ==> r == Err(InsufficientFunds)
    ensures old(from.lamports) >= amount && old(to.lamports) + amount > U64_MAX ==> r == Err(MathOverflow)
    ensures old(from.lamports) >= amount && old(to.lamports) + amount <= U64_MAX ==> r == Ok(())
    ensures r.Err? ==> from.lamports == old(from.lamports) && to.lamports == old(to.lamports)
    ensures r.Ok? ==> to.lamports == old(to.lamports) + amount
    ensures r.Ok? && from != to ==> from.lamports == old(from.lamports) - amount
  {
    if from.lamports < amount {
      return Err(InsufficientFunds);
    }
    var debited := from.lamports - amount;
    if to.lamports + amount > U64_MAX {
      return Err(MathOverflow);
    }
    var credited := to.lamports + amount;
    from.lamports := debited;
    to.lamports := credited;
    return Ok(());
  }

  class Vault {
    var owner: Pubkey
    var vaultId: u64
    var mint: Option<Pubkey>
    var lastCheckin: i64
    var timeoutSeconds: i64
    var beneficiaries: array<Beneficiary>
    var beneficiaryCount: u8
    var isClaimed: bool
    var claimPool: u64
    var bump: u8

    predicate Valid()
      reads this
    {
      beneficiaries.Length == MAX_BENEFICIARIES && beneficiaryCount <= MAX_BENEFICIARIES
    }

    /** The stored fields as one value. */
    function Data(): (v: VaultData)
      reads this, beneficiaries
      ensures Valid() ==> v.Shaped()
    {
      VaultData(owner, vaultId, mint, lastCheckin, timeoutSeconds, beneficiaries[..],
                beneficiaryCount, isClaimed, claimPool, bump)
    }

    /** A zeroed account, as the runtime allocates it. */
    constructor ()
      ensures Valid() && fresh(beneficiaries)
    {
      owner, vaultId, mint, lastCheckin, timeoutSeconds := DefaultKey(), 0, None, 0, 0;
      beneficiaries := new Beneficiary[MAX_BENEFICIARIES](_ => EmptySlot());
      beneficiaryCount, isClaimed, claimPool, bump := 0, false, 0, 0;
    }

    /** A deserialised account. */
    constructor From(v: VaultData)
      requires v.Shaped()
      ensures Valid() && fresh(beneficiaries) && Data() == v
    {
      owner, vaultId, mint, lastCheckin, timeoutSeconds :=
        v.owner, v.vaultId, v.mint, v.lastCheckin, v.timeoutSeconds;
      beneficiaries := new Beneficiary[MAX_BENEFICIARIES](i requires 0 <= i < MAX_BENEFICIARIES => v.slots[i]);
      beneficiaryCount, isClaimed, claimPool, bump := v.count, v.isClaimed, v.claimPool, v.bump;
      new;
      assert beneficiaries[..] == v.slots;
    }

    /** Books the claimant and says what they are owed; a refusal changes nothing. */
    method AuthorizeClaim(claimant: Pubkey, now: i64, pool: u64) returns (r: Result<ClaimTicket, DmsError>)
      requires Valid()
      modifies this`isClaimed, this`claimPool, beneficiaries
      ensures Valid()
      ensures match VaultRules.AuthorizeClaim(old(Data()), claimant, now, pool)
              case Ok((booked, ticket)) => r == Ok(ticket) && Data() == booked
              case Err(e) => r == Err(e) && Data() == old(Data())
    {
      var expired :- Data().IsExpired(now);
      if !expired {
        return Err(TimeoutNotReached);
      }
      var found := IndexOf(beneficiaries[..beneficiaryCount], claimant);
      if found.None? {
        return Err(Unauthorized);
      }
      var index := found.value;
      if beneficiaries[index].claimed {
        return Err(AlreadyClaimed);
      }
      if !isClaimed {
        isClaimed := true;
        claimPool := pool;
      }
      var isLast := UnpaidCount(beneficiaries[..beneficiaryCount]) == 1;
      var bps := beneficiaries[index].shareBps;
      beneficiaries[index] := beneficiaries[index].(claimed := true);
      assert beneficiaries[..] == MarkPaid(old(beneficiaries[..]), index);
      return Ok(ClaimTicket(bps, isLast));
    }
  }

  /** Walks the table once, keeping a 16-bit running total. */
  method ValidateSlots(slots: seq<Beneficiary>) returns (r: Result<(), DmsError>)
    ensures r == TableCheck(slots)
    ensures r.Ok? <==> ValidTable(slots)
  {
    TableCheckIff(slots);
    if |slots| == 0 {
      return Err(NoBeneficiaries);
    }
    if |slots| > MAX_BENEFICIARIES {
      return Err(TooManyBeneficiaries);
    }
    var total: u16 := 0;
    for i := 0 to |slots|
      invariant total == Sum(slots[..i], Bps())
      invariant FirstFault(slots, 0) == FirstFault(slots, i)
    {
      SumPrefix(slots, Bps(), i);
      if slots[i].address == DefaultKey() {
        return Err(InvalidBeneficiary);
      }
      if slots[i].shareBps == 0 {
        return Err(InvalidShares);
      }
      if exists j :: 0 <= j < i && slots[j].address == slots[i].address {
        return Err(DuplicateBeneficiary);
      }
      if total + slots[i].shareBps > U16_MAX {
        return Err(MathOverflow);
      }
      total := total + slots[i].shareBps;
    }
    assert slots[..|slots|] == slots;
    if total != TOTAL_SHARE_BPS {
      return Err(InvalidShares);
    }
    return Ok(());
  }

  /** Copies the inputs over a zeroed table and validates the part in use. */
  method FillSlots(inputs: seq<BeneficiaryInput>) returns (r: Result<(), DmsError>, slots: array<Beneficiary>)
    ensures fresh(slots) && slots.Length == MAX_BENEFICIARIES
    ensures match I.CheckedSlots(inputs)
            case Ok(filled) => r == Ok(()) && slots[..] == filled
            case Err(e) => r == Err(e)
  {
    slots := new Beneficiary[MAX_BENEFICIARIES](_ => EmptySlot());
    if |inputs| > MAX_BENEFICIARIES {
      return Err(TooManyBeneficiaries), slots;
    }
    for i := 0 to |inputs|
      invariant forall k :: 0 <= k < MAX_BENEFICIARIES ==>
                  slots[k] == if k < i then Beneficiary(inputs[k].address, inputs[k].shareBps, false) else EmptySlot()
    {
      slots[i] := Beneficiary(inputs[i].address, inputs[i].shareBps, false);
    }
    assert slots[..] == I.Slots(inputs);
    r := ValidateSlots(slots[..|inputs|]);
  }

  method HandleInitializeVault(vault: Vault, owner: Pubkey, mint: Option<Pubkey>, vaultId: u64,
                               timeout: i64, inputs: seq<BeneficiaryInput>, now: i64, bump: u8)
    returns (r: Result<(), DmsError>)
    requires vault.Valid()
    modifies vault
    ensures vault.Valid()
    ensures match I.Initialize(owner, vaultId, mint, timeout, inputs, now, bump)
            case Ok(v) => r == Ok(()) && vault.Data() == v && fresh(vault.beneficiaries)
            case Err(e) => r == Err(e)
  {
    if !(MIN_TIMEOUT_SECONDS <= timeout <= MAX_TIMEOUT_SECONDS) {
      return Err(InvalidTimeout);
    }
    var filled, slots := FillSlots(inputs);
    var _ :- filled;
    vault.owner := owner;
    vault.vaultId := vaultId;
    vault.mint := mint;
    vault.lastCheckin := now;
    vault.timeoutSeconds := timeout;
    vault.beneficiaries := slots;
    vault.beneficiaryCount := |inputs|;
    vault.isClaimed := false;
    vault.claimPool := 0;
    vault.bump := bump;
    var _ :- vault.Data().Deadline();
    return Ok(());
  }

  method HandleSetBeneficiaries(vault: Vault, signer: Pubkey, inputs: seq<BeneficiaryInput>)
    returns (r: Result<(), DmsError>)
    requires vault.Valid()
    modifies vault
    ensures vault.Valid()
    ensures match I.SetBeneficiaries(old(vault.Data()), signer, inputs)
            case Ok(v) => r == Ok(()) && vault.Data() == v && fresh(vault.beneficiaries)
            case Err(e) => r == Err(e)
  {
    var _ :- I.OwnerGate(vault.Data(), signer);
    var filled, slots := FillSlots(inputs);
    var _ :- filled;
    vault.beneficiaries := slots;
    vault.beneficiaryCount := |inputs|;
    return Ok(());
  }

  method HandleCheckIn(vault: Vault, signer: Pubkey, now: i64) returns (r: Result<(), DmsError>)
    requires vault.Valid()
    modifies vault`lastCheckin
    ensures vault.Valid()
    ensures match I.CheckIn(old(vault.Data()), signer, now)
            case Ok(v) => r == Ok(()) && vault.Data() == v
            case Err(e) => r == Err(e)
  {
    var _ :- I.OwnerGate(vault.Data(), signer);
    vault.lastCheckin := now;
    var _ :- vault.Data().Deadline();
    return Ok(());
  }

  function Balances(vaultInfo: AccountInfo, wallet: AccountInfo): I.Balances
    reads vaultInfo, wallet
  {
    I.Balances(vaultInfo.lamports, wallet.lamports)
  }

  /** A transfer the System Program makes between two distinct accounts. */
  method SystemTransfer(from: AccountInfo, to: AccountInfo, amount: u64) returns (r: Result<(), DmsError>)
    requires from != to
    modifies from, to
    ensures match I.MoveIn(old(Balances(to, from)), amount)
            case Ok(b) => r == Ok(()) && Balances(to, from) == b
            case Err(e) => r == Err(e) && Balances(to, from) == old(Balances(to, from))
  {
    if from.lamports < amount {
      return Err(RuntimeRefusal);
    }
    if to.lamports + amount > U64_MAX {
      return Err(LamportOverflow);
    }
    from.lamports := from.lamports - amount;
    to.lamports := to.lamports + amount;
    return Ok(());
  }

  method HandleDepositSol(vault: Vault, vaultInfo: AccountInfo, owner: AccountInfo, amount: u64)
    returns (r: Result<(), DmsError>)
    requires vault.Valid() && vaultInfo != owner
    modifies vaultInfo, owner
    ensures match I.DepositSol(vault.Data(), old(Balances(vaultInfo, owner)), owner.key, amount)
            case Ok(b) => r == Ok(()) && Balances(vaultInfo, owner) == b
            case Err(e) => r == Err(e)
  {
    var _ :- I.SolOwnerGate(vault.Data(), owner.key);
    if amount == 0 {
      return Err(InvalidAmount);
    }
    r := SystemTransfer(owner, vaultInfo, amount);
  }

  method HandleWithdrawSol(vault: Vault, vaultInfo: AccountInfo, owner: AccountInfo, reserve: u64, amount: u64)
    returns (r: Result<(), DmsError>)
    requires vault.Valid() && vaultInfo != owner
    modifies vaultInfo, owner
    ensures match I.WithdrawSol(vault.Data(), old(Balances(vaultInfo, owner)), reserve, owner.key, amount)
            case Ok(b) => r == Ok(()) && Balances(vaultInfo, owner) == b
            case Err(e) => r == Err(e)
  {
    var _ :- I.SolOwnerGate(vault.Data(), owner.key);
    if amount == 0 {
      return Err(InvalidAmount);
    }
    var available := I.Withdrawable(vaultInfo.lamports, reserve);
    if amount > available {
      return Err(InsufficientFunds);
    }
    r := MoveLamports(vaultInfo, owner, amount);
  }

  /** Books the claim before the funds checks: a refusal after that point leaves
      the vault object dirty, for the runtime to throw away. */
  method HandleClaimSol(vault: Vault, vaultInfo: AccountInfo, beneficiary: AccountInfo, reserve: u64, now: i64)
    returns (r: Result<u64, DmsError>)
    requires vault.Valid() && vaultInfo != beneficiary
    modifies vault`isClaimed, vault`claimPool, vault.beneficiaries, vaultInfo, beneficiary
    ensures vault.Valid()
    ensures match I.ClaimSol(old(vault.Data()), old(Balances(vaultInfo, beneficiary)), reserve, beneficiary.key, now)
            case Ok((v, b, amount)) => r == Ok(amount) && vault.Data() == v && Balances(vaultInfo, beneficiary) == b
            case Err(e) => r == Err(e)
  {
    if !vault.Data().IsSol() {
      return Err(NotSolVault);
    }
    var available := I.Withdrawable(vaultInfo.lamports, reserve);
    var authorized := vault.AuthorizeClaim(beneficiary.key, now, available);
    var ticket :- authorized;
    var amount := available;
    if !ticket.isLast {
      var share :- ShareOf(vault.claimPool, ticket.shareBps);
      amount := share;
    }
    if amount == 0 {
      return Err(InsufficientFunds);
    }
    if amount > available {
      return Err(InsufficientFunds);
    }
    var moved := MoveLamports(vaultInfo, beneficiary, amount);
    var _ :- moved;
    return Ok(amount);
  }

  /** The token side of a claim, up to the amount handed to the token program. */
  method HandleClaimSpl(vault: Vault, claimant: Pubkey, tokens: u64, now: i64)
    returns (r: Result<u64, DmsError>)
    requires vault.Valid()
    modifies vault`isClaimed, vault`claimPool, vault.beneficiaries
    ensures vault.Valid()
    ensures match I.ClaimSpl(old(vault.Data()), tokens, claimant, now)
            case Ok((v, amount)) => r == Ok(amount) && vault.Data() == v
            case Err(e) => r == Err(e)
  {
    if vault.Data().IsSol() {
      return Err(NotSplVault);
    }
    var authorized := vault.AuthorizeClaim(claimant, now, tokens);
    var ticket :- authorized;
    var amount := tokens;
    if !ticket.isLast {
      var share :- ShareOf(vault.claimPool, ticket.shareBps);
      amount := share;
    }
    if amount == 0 || amount > tokens {
      return Err(InsufficientFunds);
    }
    return Ok(amount);
  }

  method HandleCloseSol(vault: Vault, vaultInfo: AccountInfo, owner: AccountInfo, reserve: u64)
    returns (r: Result<(), DmsError>)
    requires vault.Valid() && vaultInfo != owner && vault.Data().IsSol()
    modifies vaultInfo, owner
    ensures match I.CloseSol(vault.Data(), old(Balances(vaultInfo, owner)), reserve, owner.key)
            case Ok(b) => r == Ok(()) && Balances(vaultInfo, owner) == b
            case Err(e) => r == Err(e)
  {
    if vault.owner != owner.key {
      return Err(Unauthorized);
    }
    if I.Withdrawable(vaultInfo.lamports, reserve) != 0 {
      return Err(VaultNotEmpty);
    }
    if owner.lamports + vaultInfo.lamports > U64_MAX {
      return Err(LamportOverflow);
    }
    owner.lamports := owner.lamports + vaultInfo.lamports;
    vaultInfo.lamports := 0;
    return Ok(());
  }
}
