/** What each instruction of the program promises, on values: the account
    constraints in the order they are checked, then the handler. A refusal
    carries no new state, because the runtime discards the transaction. */
module Instructions {
  import opened Base
  import opened VaultRules

  /** Lamports of the vault account and of the signing wallet. */
  datatype Balances = Balances(vault: u64, wallet: u64)

  /** `move_lamports` from the vault to the wallet, two distinct accounts. */
  function MoveOut(b: Balances, amount: u64): Result<Balances, DmsError> {
    if b.vault < amount then Err(InsufficientFunds)
    else if b.wallet + amount > U64_MAX then Err(MathOverflow)
    else Ok(Balances(b.vault - amount, b.wallet + amount))
  }

  /** A System Program transfer from the wallet to the vault. */
  function MoveIn(b: Balances, amount: u64): Result<Balances, DmsError> {
    if b.wallet < amount then Err(RuntimeRefusal)
    else if b.vault + amount > U64_MAX then Err(LamportOverflow)
    else Ok(Balances(b.vault + amount, b.wallet - amount))
  }

  /** Lamports beyond the rent-exempt reserve, never negative. */
  function Withdrawable(lamports: u64, reserve: u64): u64 {
    if lamports <= reserve then 0 else lamports - reserve
  }

  /** Owner-only, on a vault nobody has claimed from. */
  function OwnerGate(v: VaultData, signer: Pubkey): Result<(), DmsError> {
    if v.owner != signer then Err(Unauthorized)
    else if v.isClaimed then Err(VaultTriggered)
    else Ok(())
  }

  /** Owner-only, native SOL only, on a vault nobody has claimed from. */
  function SolOwnerGate(v: VaultData, signer: Pubkey): Result<(), DmsError> {
    if v.owner != signer then Err(Unauthorized)
    else if !v.IsSol() then Err(NotSolVault)
    else if v.isClaimed then Err(VaultTriggered)
    else Ok(())
  }

  /** The slot array a list of inputs fills: unclaimed heirs, then zeroed slots. */
  function Slots(inputs: seq<BeneficiaryInput>): seq<Beneficiary>
    requires |inputs| <= MAX_BENEFICIARIES
  {
    seq(MAX_BENEFICIARIES, i requires 0 <= i < MAX_BENEFICIARIES =>
      if i < |inputs| then Beneficiary(inputs[i].address, inputs[i].shareBps, false) else EmptySlot())
  }

  function CheckedSlots(inputs: seq<BeneficiaryInput>): (r: Result<seq<Beneficiary>, DmsError>)
    ensures r.Ok? ==> |inputs| <= MAX_BENEFICIARIES && r.value == Slots(inputs)
  {
    if |inputs| > MAX_BENEFICIARIES then Err(TooManyBeneficiaries)
    else
      var _ :- TableCheck(Slots(inputs)[..|inputs|]);
      Ok(Slots(inputs))
  }

  function Initialize(owner: Pubkey, vaultId: u64, mint: Option<Pubkey>, timeout: i64,
                      inputs: seq<BeneficiaryInput>, now: i64, bump: u8)
    : Result<VaultData, DmsError>
  {
    if !(MIN_TIMEOUT_SECONDS <= timeout <= MAX_TIMEOUT_SECONDS) then Err(InvalidTimeout)
    else
      var slots :- CheckedSlots(inputs);
      var v := VaultData(owner, vaultId, mint, now, timeout, slots, |inputs|, false, 0, bump);
      var _ :- v.Deadline();  // the closing log line computes it, and its overflow fails the call
      Ok(v)
  }

  function SetBeneficiaries(v: VaultData, signer: Pubkey, inputs: seq<BeneficiaryInput>)
    : Result<VaultData, DmsError>
  {
    var _ :- OwnerGate(v, signer);
    var slots :- CheckedSlots(inputs);
    Ok(v.(slots := slots, count := |inputs|))
  }

  function CheckIn(v: VaultData, signer: Pubkey, now: i64): Result<VaultData, DmsError> {
    var _ :- OwnerGate(v, signer);
    var checkedIn := v.(lastCheckin := now);
    var _ :- checkedIn.Deadline();
    Ok(checkedIn)
  }

  function DepositSol(v: VaultData, b: Balances, signer: Pubkey, amount: u64): Result<Balances, DmsError> {
    var _ :- SolOwnerGate(v, signer);
    if amount == 0 then Err(InvalidAmount) else MoveIn(b, amount)
  }

  function WithdrawSol(v: VaultData, b: Balances, reserve: u64, signer: Pubkey, amount: u64)
    : Result<Balances, DmsError>
  {
    var _ :- SolOwnerGate(v, signer);
    if amount == 0 then Err(InvalidAmount)
    else if amount > Withdrawable(b.vault, reserve) then Err(InsufficientFunds)
    else MoveOut(b, amount)
  }

  function ClaimSol(v: VaultData, b: Balances, reserve: u64, signer: Pubkey, now: i64)
    : (r: Result<(VaultData, Balances, u64), DmsError>)
    requires v.Shaped()
    ensures r.Ok? ==> r.value.0.Shaped()
  {
    if !v.IsSol() then Err(NotSolVault)
    else
      var (v', amount) :- ClaimCore(v, signer, now, Withdrawable(b.vault, reserve));
      var b' :- MoveOut(b, amount);
      Ok((v', b', amount))
  }

  /** The claim of a token vault, over the token balance it holds. */
  function ClaimSpl(v: VaultData, tokens: u64, signer: Pubkey, now: i64)
    : (r: Result<(VaultData, u64), DmsError>)
    requires v.Shaped()
    ensures r.Ok? ==> r.value.0.Shaped()
  {
    if v.IsSol() then Err(NotSplVault) else ClaimCore(v, signer, now, tokens)
  }

  /** Closing a native SOL vault: everything it holds goes to the owner. */
  function CloseSol(v: VaultData, b: Balances, reserve: u64, signer: Pubkey): Result<Balances, DmsError>
    requires v.IsSol()
  {
    if v.owner != signer then Err(Unauthorized)
    else if Withdrawable(b.vault, reserve) != 0 then Err(VaultNotEmpty)
    else if b.wallet + b.vault > U64_MAX then Err(LamportOverflow)
    else Ok(Balances(0, b.wallet + b.vault))
  }

  // ---- exactly when each instruction is accepted, and what it leaves

  /** The heirs a list of inputs names, none of them paid. */
  function Heirs(inputs: seq<BeneficiaryInput>): seq<Beneficiary> {
    seq(|inputs|, i requires 0 <= i < |inputs| => Beneficiary(inputs[i].address, inputs[i].shareBps, false))
  }

  lemma CheckedSlotsIff(inputs: seq<BeneficiaryInput>)
    ensures CheckedSlots(inputs).Ok? <==> ValidTable(Heirs(inputs))
    ensures CheckedSlots(inputs).Ok? ==> CheckedSlots(inputs).value[..|inputs|] == Heirs(inputs)
  {
    if |inputs| <= MAX_BENEFICIARIES {
      assert Slots(inputs)[..|inputs|] == Heirs(inputs);
      TableCheckIff(Heirs(inputs));
    }
  }

  /** A table that passed the check is stored whole, unclaimed, zeroed behind. */
  lemma CheckedSlotsGood(inputs: seq<BeneficiaryInput>, v: VaultData)
    requires CheckedSlots(inputs).Ok? && v.slots == CheckedSlots(inputs).value && v.count == |inputs|
    ensures GoodSlots(v) && v.Active() == Heirs(inputs)
    ensures forall i :: 0 <= i < v.count ==> !v.slots[i].claimed
  {
    CheckedSlotsIff(inputs);
    assert v.Active() == Heirs(inputs);
    assert forall i :: 0 <= i < v.count ==> v.slots[i] == v.Active()[i];
  }

  /** Opening succeeds iff the timeout is in range, the table is valid and the
      deadline fits; the new vault is armed, last heard of now, with exactly the
      timeout, the heirs and the rest of what was given. */
  lemma InitializeIff(owner: Pubkey, vaultId: u64, mint: Option<Pubkey>, timeout: i64,
                      inputs: seq<BeneficiaryInput>, now: i64, bump: u8)
    ensures var r := Initialize(owner, vaultId, mint, timeout, inputs, now, bump);
            && (r.Ok? <==> && MIN_TIMEOUT_SECONDS <= timeout <= MAX_TIMEOUT_SECONDS
                           && ValidTable(Heirs(inputs))
                           && FitsI64(now + timeout))
            && (r.Ok? ==> && GoodSlots(r.value) && r.value.Active() == Heirs(inputs)
                          && r.value.Deadline() == Ok(now + timeout)
                          && r.value.lastCheckin == now && r.value.timeoutSeconds == timeout
                          && !r.value.isClaimed && r.value.claimPool == 0 && r.value.bump == bump
                          && r.value.owner == owner && r.value.mint == mint && r.value.vaultId == vaultId)
  {
    CheckedSlotsIff(inputs);
    if Initialize(owner, vaultId, mint, timeout, inputs, now, bump).Ok? {
      CheckedSlotsGood(inputs, Initialize(owner, vaultId, mint, timeout, inputs, now, bump).value);
    }
  }

  /** Replacing the table succeeds iff the owner asks before any claim with a
      valid table; nothing but the table changes, and it changes as a whole. */
  lemma SetBeneficiariesIff(v: VaultData, signer: Pubkey, inputs: seq<BeneficiaryInput>)
    ensures var r := SetBeneficiaries(v, signer, inputs);
            && (r.Ok? <==> signer == v.owner && !v.isClaimed && ValidTable(Heirs(inputs)))
            && (r.Ok? ==> && GoodSlots(r.value) && r.value.Active() == Heirs(inputs)
                          && r.value == v.(slots := r.value.slots, count := r.value.count))
  {
    CheckedSlotsIff(inputs);
    if SetBeneficiaries(v, signer, inputs).Ok? {
      CheckedSlotsGood(inputs, SetBeneficiaries(v, signer, inputs).value);
    }
  }

  /** Why opening is refused. */
  lemma InitializeRefusals(owner: Pubkey, vaultId: u64, mint: Option<Pubkey>, timeout: i64,
                           inputs: seq<BeneficiaryInput>, now: i64, bump: u8)
    ensures !(MIN_TIMEOUT_SECONDS <= timeout <= MAX_TIMEOUT_SECONDS) ==>
              Initialize(owner, vaultId, mint, timeout, inputs, now, bump) == Err(InvalidTimeout)
    ensures MIN_TIMEOUT_SECONDS <= timeout <= MAX_TIMEOUT_SECONDS && TableCheck(Heirs(inputs)).Err? ==>
              Initialize(owner, vaultId, mint, timeout, inputs, now, bump) == Err(TableCheck(Heirs(inputs)).error)
    ensures MIN_TIMEOUT_SECONDS <= timeout <= MAX_TIMEOUT_SECONDS && ValidTable(Heirs(inputs))
            && !FitsI64(now + timeout)
        ==> Initialize(owner, vaultId, mint, timeout, inputs, now, bump) == Err(MathOverflow)
  {
    TableCheckIff(Heirs(inputs));
    CheckedSlotsIff(inputs);
    if |inputs| <= MAX_BENEFICIARIES {
      assert Slots(inputs)[..|inputs|] == Heirs(inputs);
    }
  }

  /** Why replacing the table is refused. */
  lemma SetBeneficiariesRefusals(v: VaultData, signer: Pubkey, inputs: seq<BeneficiaryInput>)
    ensures signer != v.owner <==> SetBeneficiaries(v, signer, inputs) == Err(Unauthorized)
    ensures signer == v.owner && v.isClaimed <==> SetBeneficiaries(v, signer, inputs) == Err(VaultTriggered)
    ensures signer == v.owner && !v.isClaimed && TableCheck(Heirs(inputs)).Err? ==>
              SetBeneficiaries(v, signer, inputs) == Err(TableCheck(Heirs(inputs)).error)
  {
    TableCheckIff(Heirs(inputs));
    CheckedSlotsIff(inputs);
    if |inputs| <= MAX_BENEFICIARIES {
      assert Slots(inputs)[..|inputs|] == Heirs(inputs);
      TableErrors(Heirs(inputs));
    }
  }

  lemma {:induction false} FaultsAreTableErrors(heirs: seq<Beneficiary>, i: nat)
    requires i <= |heirs|
    ensures FirstFault(heirs, i) != Some(Unauthorized) && FirstFault(heirs, i) != Some(VaultTriggered)
    decreases |heirs| - i
  {
    if i < |heirs| {
      FaultsAreTableErrors(heirs, i + 1);
    }
  }

  /** A table never fails for what only the gates object to. */
  lemma TableErrors(heirs: seq<Beneficiary>)
    ensures TableCheck(heirs) != Err(Unauthorized) && TableCheck(heirs) != Err(VaultTriggered)
  {
    FaultsAreTableErrors(heirs, 0);
  }

  /** A check-in is accepted iff the owner asks before any claim and the new
      deadline fits; whatever the asset, it moves the last check-in to now and
      nothing else. */
  lemma CheckInIff(v: VaultData, signer: Pubkey, now: i64)
    ensures CheckIn(v, signer, now).Ok? <==> signer == v.owner && !v.isClaimed && FitsI64(now + v.timeoutSeconds)
    ensures CheckIn(v, signer, now).Ok? ==>
              && CheckIn(v, signer, now).value.lastCheckin == now
              && CheckIn(v, signer, now).value.(lastCheckin := v.lastCheckin) == v
    ensures signer != v.owner <==> CheckIn(v, signer, now) == Err(Unauthorized)
    ensures signer == v.owner && v.isClaimed <==> CheckIn(v, signer, now) == Err(VaultTriggered)
    ensures signer == v.owner && !v.isClaimed && !FitsI64(now + v.timeoutSeconds)
       <==> CheckIn(v, signer, now) == Err(MathOverflow)
  {
  }

  /** A check-in holds the heirs off for exactly one timeout, whatever the asset:
      until then every claim is refused for the timer, and from then on none is. */
  lemma CheckInHoldsHeirsOff(v: VaultData, signer: Pubkey, now: i64, who: Pubkey, at: i64, pool: u64)
    requires v.Shaped() && CheckIn(v, signer, now).Ok?
    ensures CheckIn(v, signer, now).value.Shaped()
    ensures AuthorizeClaim(CheckIn(v, signer, now).value, who, at, pool) == Err(TimeoutNotReached)
       <==> at < now + v.timeoutSeconds
  {
    CheckInIff(v, signer, now);
    AuthorizeRefusals(CheckIn(v, signer, now).value, who, at, pool);
  }

  /** Who may put lamports into a vault, what moves, and why not. */
  lemma DepositSolIff(v: VaultData, b: Balances, signer: Pubkey, amount: u64)
    ensures DepositSol(v, b, signer, amount).Ok?
       <==> && signer == v.owner && v.mint.None? && !v.isClaimed
            && 0 < amount <= b.wallet && b.vault + amount <= U64_MAX
    ensures DepositSol(v, b, signer, amount).Ok? ==>
              var b' := DepositSol(v, b, signer, amount).value;
              b'.vault == b.vault + amount && b'.wallet == b.wallet - amount
    ensures signer != v.owner <==> DepositSol(v, b, signer, amount) == Err(Unauthorized)
    ensures signer == v.owner && v.mint.Some? <==> DepositSol(v, b, signer, amount) == Err(NotSolVault)
    ensures signer == v.owner && v.mint.None? && v.isClaimed
       <==> DepositSol(v, b, signer, amount) == Err(VaultTriggered)
    ensures signer == v.owner && v.mint.None? && !v.isClaimed && amount == 0
       <==> DepositSol(v, b, signer, amount) == Err(InvalidAmount)
  {
  }

  /** Who may take lamports out of a vault, what moves, and why not. */
  lemma WithdrawSolIff(v: VaultData, b: Balances, reserve: u64, signer: Pubkey, amount: u64)
    ensures WithdrawSol(v, b, reserve, signer, amount).Ok?
       <==> && signer == v.owner && v.mint.None? && !v.isClaimed
            && 0 < amount && reserve + amount <= b.vault && b.wallet + amount <= U64_MAX
    ensures WithdrawSol(v, b, reserve, signer, amount).Ok? ==>
              var b' := WithdrawSol(v, b, reserve, signer, amount).value;
              b'.vault == b.vault - amount && b'.wallet == b.wallet + amount
    ensures signer != v.owner <==> WithdrawSol(v, b, reserve, signer, amount) == Err(Unauthorized)
    ensures signer == v.owner && v.mint.Some? <==> WithdrawSol(v, b, reserve, signer, amount) == Err(NotSolVault)
    ensures signer == v.owner && v.mint.None? && v.isClaimed
       <==> WithdrawSol(v, b, reserve, signer, amount) == Err(VaultTriggered)
    ensures signer == v.owner && v.mint.None? && !v.isClaimed && amount == 0
       <==> WithdrawSol(v, b, reserve, signer, amount) == Err(InvalidAmount)
    ensures signer == v.owner && v.mint.None? && !v.isClaimed && amount > 0 && reserve + amount > b.vault
       <==> WithdrawSol(v, b, reserve, signer, amount) == Err(InsufficientFunds)
  {
  }

  /** Who may close a SOL vault, what moves, and why not. */
  lemma CloseSolIff(v: VaultData, b: Balances, reserve: u64, signer: Pubkey)
    requires v.IsSol()
    ensures CloseSol(v, b, reserve, signer).Ok?
       <==> signer == v.owner && b.vault <= reserve && b.wallet + b.vault <= U64_MAX
    ensures CloseSol(v, b, reserve, signer).Ok? ==>
              CloseSol(v, b, reserve, signer).value == Balances(0, b.wallet + b.vault)
    ensures signer != v.owner <==> CloseSol(v, b, reserve, signer) == Err(Unauthorized)
    ensures signer == v.owner && b.vault > reserve <==> CloseSol(v, b, reserve, signer) == Err(VaultNotEmpty)
  {
  }

  /** Each claim instruction takes its own kind of vault, and otherwise refuses for
      what the authorization refuses for. */
  lemma ClaimRefusals(v: VaultData, b: Balances, reserve: u64, tokens: u64, signer: Pubkey, now: i64)
    requires v.Shaped()
    ensures v.mint.Some? <==> ClaimSol(v, b, reserve, signer, now) == Err(NotSolVault)
    ensures v.mint.None? <==> ClaimSpl(v, tokens, signer, now) == Err(NotSplVault)
    ensures v.mint.None? && AuthorizeClaim(v, signer, now, Withdrawable(b.vault, reserve)).Err? ==>
              ClaimSol(v, b, reserve, signer, now)
              == Err(AuthorizeClaim(v, signer, now, Withdrawable(b.vault, reserve)).error)
    ensures v.mint.Some? && AuthorizeClaim(v, signer, now, tokens).Err? ==>
              ClaimSpl(v, tokens, signer, now) == Err(AuthorizeClaim(v, signer, now, tokens).error)
  {
  }
}
