/** A pool too small to split, from the opening of the vault to coins nobody
    can ever move. */
module TinyVault {
  import opened Base
  import opened Sums
  import opened VaultRules
  import opened Instructions
  import opened Estates
  import opened Payouts
  import opened Stranding
  import opened Protocol
  import opened Safety
  import opened Guarantees
  import opened Closing

  function Key(n: u8): Pubkey {
    Pubkey(seq(32, _ => n))
  }

  /** Three coins for heirs of 50%, 25% and 25%, past the deadline. */
  function TinyEstate(): Estate {
    var heirs := [Beneficiary(Key(1), 5_000, false), Beneficiary(Key(2), 2_500, false),
                  Beneficiary(Key(3), 2_500, false)];
    Estate(VaultData(Key(9), 0, None, 0, MIN_TIMEOUT_SECONDS, heirs + [EmptySlot(), EmptySlot()], 3, false, 0, 0),
           3, EMPTY_BOOKS)
  }

  lemma Sum3<T>(s: seq<T>, f: T -> nat)
    requires |s| == 3
    ensures Sum(s, f) == f(s[0]) + f(s[1]) + f(s[2])
  {
    assert s[..2][..1] == s[..1] && s[..1][..0] == [];
    assert Sum(s[..1], f) == f(s[0]);
    assert Sum(s[..2], f) == f(s[0]) + f(s[1]);
  }

  lemma TinyIsSound()
    ensures Sound(TinyEstate())
  {
    var heirs := TinyEstate().v.Active();
    assert Key(1).bytes[0] == 1 && Key(2).bytes[0] == 2 && Key(3).bytes[0] == 3 && DefaultKey().bytes[0] == 0;
    Sum3(heirs, Bps());
    Sum3(heirs, UnpaidOne());
    Sum3(heirs, PaidTo(map[]));
  }

  /** The sweep cannot rescue every coin: here the first heir takes one of three,
      the other two shares round to nothing, neither heir is the last, and two
      coins stay where no claim at any time can reach them. */
  lemma TinyPoolStrands(later: i64, who: Pubkey)
    ensures ClaimOn(TinyEstate(), Key(1), MIN_TIMEOUT_SECONDS).Ok?
    ensures ClaimOn(TinyEstate(), Key(1), MIN_TIMEOUT_SECONDS).value.held == 2
    ensures ClaimOn(ClaimOn(TinyEstate(), Key(1), MIN_TIMEOUT_SECONDS).value, who, later).Err?
  {
    var e := TinyEstate();
    var heirs := e.v.Active();
    assert Key(1).bytes[0] == 1 && Key(2).bytes[0] == 2 && Key(3).bytes[0] == 3;
    TinyIsSound();
    Sum3(heirs, UnpaidOne());
    assert heirs[0].address == Key(1);
    assert IndexOf(heirs, Key(1)) == Some(0);
    ClaimAcceptedIff(e, Key(1), MIN_TIMEOUT_SECONDS);
    var e' := ClaimOn(e, Key(1), MIN_TIMEOUT_SECONDS).value;
    ClaimKeepsSound(e, Key(1), MIN_TIMEOUT_SECONDS);
    ClaimKeepsTimer(e, Key(1), MIN_TIMEOUT_SECONDS, later);
    ClaimAcceptedIff(e', who, later);
    var heirs' := e'.v.Active();
    assert heirs' == MarkPaid(heirs, 0);
  }

  /** The same three coins of a token. */
  function TinyTokenEstate(): Estate {
    TinyEstate().(v := TinyEstate().v.(mint := Some(Key(7))))
  }

  /** The first heir of the token vault may claim as soon as the deadline is reached. */
  lemma TinyTokenIsSound()
    ensures Sound(TinyTokenEstate())
    ensures ClaimOn(TinyTokenEstate(), Key(1), MIN_TIMEOUT_SECONDS).Ok?
  {
    TinyIsSound();
    assert TinyTokenEstate().v.Active() == TinyEstate().v.Active();
    TinyPoolStrands(0, Key(1));
    ClaimAcceptedIff(TinyEstate(), Key(1), MIN_TIMEOUT_SECONDS);
    ClaimAcceptedIff(TinyTokenEstate(), Key(1), MIN_TIMEOUT_SECONDS);
  }

  /** The second heir has to wait for co-heirs: past the deadline, unpaid, and refused. */
  lemma TinyHeirMustWait(later: i64)
    requires later >= MIN_TIMEOUT_SECONDS
    ensures TinyEstate().v.IsExpired(later) == Ok(true) && Unpaid(TinyEstate().v.Active(), Key(2))
    ensures ClaimOn(TinyEstate(), Key(2), later).Err?
  {
    TinyIsSound();
    IndexOfOwn(TinyEstate().v.Active(), 1);
    assert !TinyEstate().v.slots[0].claimed && Hopeless(TinyEstate(), 1);
    TwoUnpaid(TinyEstate().v.Active(), 0, 1);
    HopelessIsPaidLast(TinyEstate(), 1, later);
  }

  // ---- the same vault as a run of the protocol

  function TinyEnv(): Env {
    Env(Key(8), Key(9), 0, 0, 1_000)
  }

  /** The owner's wallet holds the reserve and three lamports. */
  function TinyGenesis(): Tracked {
    Genesis(map[Key(9) := 1_003], 0)
  }

  function TinyTable(): seq<BeneficiaryInput> {
    [BeneficiaryInput(Key(1), 5_000), BeneficiaryInput(Key(2), 2_500), BeneficiaryInput(Key(3), 2_500)]
  }

  /** Open, deposit three lamports, fall silent for a minute, first heir claims. */
  function TinySteps(): seq<Step> {
    [Open(Key(9), 0, MIN_TIMEOUT_SECONDS, TinyTable()), Deposit(Key(9), 3), Tick(60), Claim(Key(1))]
  }

  /** The vault open, with this much in it and in the owner's wallet. */
  function TinyOpen(vault: u64, wallet: u64, now: i64, deposits: nat): Tracked {
    Tracked(World(Some(TinyEstate().v), map[Key(9) := wallet, Key(8) := vault], now),
            EMPTY_BOOKS, Flow(0, deposits, 0, 0, 0))
  }

  lemma KeysDiffer()
    ensures Key(1) != Key(2) && Key(1) != Key(3) && Key(2) != Key(3)
    ensures Key(8) != Key(9) && Key(1) != Key(8) && Key(1) != Key(9)
  {
    assert Key(1).bytes[0] == 1 && Key(2).bytes[0] == 2 && Key(3).bytes[0] == 3;
    assert Key(8).bytes[0] == 8 && Key(9).bytes[0] == 9;
  }

  lemma TinyInitializes()
    ensures Initialize(Key(9), 0, None, MIN_TIMEOUT_SECONDS, TinyTable(), 0, 0) == Ok(TinyEstate().v)
  {
    TinyIsSound();
    assert Heirs(TinyTable()) == TinyEstate().v.Active();
    InitializeIff(Key(9), 0, None, MIN_TIMEOUT_SECONDS, TinyTable(), 0, 0);
    assert Slots(TinyTable()) == TinyEstate().v.slots;
  }

  lemma TinyOpens()
    ensures Next(TinyEnv(), TinyGenesis(), TinySteps()[0]) == TinyOpen(1_000, 3, 0, 0)
  {
    KeysDiffer();
    TinyInitializes();
  }

  lemma TinyDeposits()
    ensures Next(TinyEnv(), TinyOpen(1_000, 3, 0, 0), TinySteps()[1]) == TinyOpen(1_003, 0, 0, 3)
  {
    KeysDiffer();
    assert DepositSol(TinyEstate().v, Balances(1_000, 3), Key(9), 3) == Ok(Balances(1_003, 0));
    assert Settle(TinyOpen(1_000, 3, 0, 0).w.ledger, Key(8), Key(9), Balances(1_003, 0))
        == TinyOpen(1_003, 0, 0, 3).w.ledger;
  }

  lemma TinyWaits()
    ensures Next(TinyEnv(), TinyOpen(1_003, 0, 0, 3), TinySteps()[2]) == TinyPast()
  {
  }

  /** The vault past its deadline, three lamports beyond its reserve. */
  function TinyPast(): Tracked {
    TinyOpen(1_003, 0, 60, 3)
  }

  lemma TinyTotal()
    ensures Total(TinyPast().w.ledger) == 1_003
  {
    KeysDiffer();
    TotalUpdate(map[], Key(9), 0);
    TotalUpdate(map[Key(9) := 0], Key(8), 1_003);
  }

  lemma TinyPastIsGood()
    ensures Inv(TinyEnv(), TinyPast()) && Shaped(TinyPast().w)
    ensures EstateOf(TinyEnv(), TinyPast()) == TinyEstate()
  {
    KeysDiffer();
    TinyIsSound();
    ArmedIsUntouched(TinyEstate());
  }

  lemma TinyRun()
    ensures Shaped(TinyPast().w)
    ensures Run(TinyEnv(), TinyGenesis(), TinySteps()) == Next(TinyEnv(), TinyPast(), Claim(Key(1)))
  {
    TinyOpens();
    TinyDeposits();
    TinyWaits();
    var steps := TinySteps();
    RunFirst(TinyEnv(), TinyGenesis(), steps);
    RunFirst(TinyEnv(), TinyOpen(1_000, 3, 0, 0), steps[1..]);
    RunFirst(TinyEnv(), TinyOpen(1_003, 0, 0, 3), steps[1..][1..]);
    RunFirst(TinyEnv(), TinyPast(), steps[1..][1..][1..]);
    assert steps[1..][1..][1..][1..] == [];
  }

  /** After the first claim two lamports are held for two heirs whose shares of
      the pool of three round to nothing. */
  lemma TinyClaimStrands()
    ensures var env, t := TinyEnv(), Next(TinyEnv(), TinyPast(), Claim(Key(1)));
            && Inv(env, t) && Shaped(t.w) && Tripped(t) && Held(env, t.w) == 2
            && Hopeless(EstateOf(env, t), 1) && Hopeless(EstateOf(env, t), 2)
            && t.w.vault.value.slots[1].address == Key(2) && t.w.vault.value.slots[2].address == Key(3)
  {
    KeysDiffer();
    TinyPastIsGood();
    TinyTotal();
    TinyPoolStrands(60, Key(1));
    TinyIsSound();
    DrainStep(TinyEnv(), TinyPast(), [Key(1)]);
    ClaimMarksOne(TinyEstate(), Key(1), 60, 1);
    ClaimMarksOne(TinyEstate(), Key(1), 60, 2);
  }

  /** From an unopened address, four steps lead to a vault that is never closed
      again and never pays its other two heirs, along any continuation. */
  lemma TinyVaultStrands(steps: seq<Step>)
    ensures var env, t := TinyEnv(), Run(TinyEnv(), TinyGenesis(), TinySteps());
            && Reachable(env, t) && Shaped(t.w) && Tripped(t) && Held(env, t.w) == 2
            && StaysOpen(env, t, steps)
            && Run(env, t, steps).w.vault.Some? && Held(env, Run(env, t, steps).w) > 0
            && TimesPaid(env, t, steps, Key(2)) == 0 && TimesPaid(env, t, steps, Key(3)) == 0
  {
    TinyRun();
    TinyClaimStrands();
    var t := Run(TinyEnv(), TinyGenesis(), TinySteps());
    assert Reachable(TinyEnv(), t);
    StrandedOnLedger(TinyEnv(), t, steps, 1, 2);
  }
}
