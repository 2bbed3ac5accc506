/** The runtime around the program: it loads copies of the accounts a
    transaction names, runs the handler on them, and writes them back only when
    the handler succeeds. */
module Bank {
  import opened Base
  import opened Sums
  import opened VaultRules
  import opened Program
  import opened Protocol

  class Runtime {
    const env: Env
    var vault: Vault?
    var ledger: map<Pubkey, u64>
    var now: i64

    predicate Valid()
      reads this, vault
    {
      vault != null ==> vault.Valid()
    }

    function State(): (w: World)
      requires Valid()
      reads this, vault, if vault == null then null else vault.beneficiaries
      ensures Shaped(w)
    {
      World(if vault == null then None else Some(vault.Data()), ledger, now)
    }

    constructor (env: Env, ledger: map<Pubkey, u64>, now: i64)
      ensures Valid() && State() == World(None, ledger, now) && this.env == env
    {
      this.env, this.ledger, this.now := env, ledger, now;
      vault := null;
    }

    /** Runs one transaction: all of its effects, or none. */
    method Process(s: Step) returns (r: Result<Receipt, DmsError>)
      requires Valid()
      modifies this
      ensures Valid()
      ensures match Apply(env, old(State()), s)
              case Ok((w, receipt)) => State() == w && r == Ok(receipt)
              case Err(e) => State() == old(State()) && r == Err(e)
    {
      if s.Tick? {
        if !FitsI64(now + s.seconds) {
          return Err(RuntimeRefusal);
        }
        now := now + s.seconds;
        return Ok(Ticked);
      }
      if s.signer == env.pda {
        return Err(RuntimeRefusal);
      }
      if s.Open? {
        r := OpenVault(s);
      } else if s.Transfer? {
        var moved :- Protocol.SystemTransfer(ledger, s.signer, s.to, s.amount);
        ledger := moved;
        r := Ok(Sent(s.to, s.amount));
      } else {
        if vault == null {
          return Err(RuntimeRefusal);
        }
        r := RunOnCopy(s);
      }
    }

    method OpenVault(s: Step) returns (r: Result<Receipt, DmsError>)
      requires Valid() && s.Open? && s.signer != env.pda
      modifies this
      ensures Valid()
      ensures match ApplyOpen(env, old(State()), s)
              case Ok((w, receipt)) => State() == w && r == Ok(receipt)
              case Err(e) => State() == old(State()) && r == Err(e)
    {
      if vault != null || s.signer != env.owner || s.vaultId != env.vaultId {
        return Err(RuntimeRefusal);
      }
      var account := new AccountInfo(env.pda, At(ledger, env.pda));
      var payer := new AccountInfo(s.signer, At(ledger, s.signer));
      var funded := Program.SystemTransfer(payer, account, Shortfall(account.lamports, env.reserve));
      var _ :- funded;
      var v := new Vault();
      var done := HandleInitializeVault(v, s.signer, None, s.vaultId, s.timeout, s.table, now, env.bump);
      var _ :- done;
      vault := v;
      ledger := Settle(ledger, env.pda, s.signer, Program.Balances(account, payer));
      return Ok(Opened);
    }

    method RunOnCopy(s: Step) returns (r: Result<Receipt, DmsError>)
      requires s.Deposit? || s.Withdraw? || s.CheckIn? || s.SetTable? || s.Claim? || s.Close?
      requires Valid() && vault != null && s.signer != env.pda
      modifies this
      ensures Valid()
      ensures match ApplyToVault(env, old(State()), old(vault.Data()), s)
              case Ok((w, receipt)) => State() == w && r == Ok(receipt)
              case Err(e) => State() == old(State()) && r == Err(e)
    {
      match s
      case CheckIn(_) => r := RunEdit(s);
      case SetTable(_, _) => r := RunEdit(s);
      case Deposit(_, _) => r := RunOwnerMoney(s);
      case Withdraw(_, _) => r := RunOwnerMoney(s);
      case Claim(_) => r := RunClaim(s);
      case Close(_) => r := RunClose(s);
    }

    method RunEdit(s: Step) returns (r: Result<Receipt, DmsError>)
      requires Valid() && vault != null && (s.CheckIn? || s.SetTable?)
      modifies this
      ensures Valid()
      ensures match ApplyToVault(env, old(State()), old(vault.Data()), s)
              case Ok((w, receipt)) => State() == w && r == Ok(receipt)
              case Err(e) => State() == old(State()) && r == Err(e)
    {
      var v := new Vault.From(vault.Data());
      if s.CheckIn? {
        var done := HandleCheckIn(v, s.signer, now);
        var _ :- done;
        r := Ok(CheckedIn);
      } else {
        var done := HandleSetBeneficiaries(v, s.signer, s.table);
        var _ :- done;
        r := Ok(TableSet);
      }
      vault := v;
    }

    method RunOwnerMoney(s: Step) returns (r: Result<Receipt, DmsError>)
      requires Valid() && vault != null && (s.Deposit? || s.Withdraw?)
      modifies this
      ensures Valid()
      ensures match ApplyToVault(env, old(State()), old(vault.Data()), s)
              case Ok((w, receipt)) => State() == w && r == Ok(receipt)
              case Err(e) => State() == old(State()) && r == Err(e)
    {
      var v := new Vault.From(vault.Data());
      var account := new AccountInfo(env.pda, At(ledger, env.pda));
      var wallet := new AccountInfo(s.signer, At(ledger, s.signer));
      if s.Deposit? {
        var done := HandleDepositSol(v, account, wallet, s.amount);
        var _ :- done;
        r := Ok(Deposited(s.amount));
      } else {
        var done := HandleWithdrawSol(v, account, wallet, env.reserve, s.amount);
        var _ :- done;
        r := Ok(Withdrawn(s.amount));
      }
      ledger := Settle(ledger, env.pda, s.signer, Program.Balances(account, wallet));
    }

    method RunClaim(s: Step) returns (r: Result<Receipt, DmsError>)
      requires Valid() && vault != null && s.Claim?
      modifies this
      ensures Valid()
      ensures match ApplyToVault(env, old(State()), old(vault.Data()), s)
              case Ok((w, receipt)) => State() == w && r == Ok(receipt)
              case Err(e) => State() == old(State()) && r == Err(e)
    {
      var v := new Vault.From(vault.Data());
      var account := new AccountInfo(env.pda, At(ledger, env.pda));
      var wallet := new AccountInfo(s.signer, At(ledger, s.signer));
      var done := HandleClaimSol(v, account, wallet, env.reserve, now);
      var amount :- done;
      vault := v;
      ledger := Settle(ledger, env.pda, s.signer, Program.Balances(account, wallet));
      return Ok(Paid(s.signer, amount));
    }

    method RunClose(s: Step) returns (r: Result<Receipt, DmsError>)
      requires Valid() && vault != null && s.Close?
      modifies this
      ensures Valid()
      ensures match ApplyToVault(env, old(State()), old(vault.Data()), s)
              case Ok((w, receipt)) => State() == w && r == Ok(receipt)
              case Err(e) => State() == old(State()) && r == Err(e)
    {
      var v := new Vault.From(vault.Data());
      if !v.Data().IsSol() {
        return Err(RuntimeRefusal);
      }
      var account := new AccountInfo(env.pda, At(ledger, env.pda));
      var wallet := new AccountInfo(s.signer, At(ledger, s.signer));
      var done := HandleCloseSol(v, account, wallet, env.reserve);
      var _ :- done;
      vault := null;
      ledger := Settle(ledger, env.pda, s.signer, Program.Balances(account, wallet));
      return Ok(Closed);
    }
  }

  /** Transactions processed one after another follow the runs `Guarantees`
      speaks of: the runtime's state is that of the run, step for step. */
  method ProcessAll(runtime: Runtime, steps: seq<Step>, ghost t: Tracked) returns (ghost t': Tracked)
    requires runtime.Valid() && runtime.State() == t.w
    modifies runtime
    ensures runtime.Valid()
    ensures t' == Run(runtime.env, t, steps) && runtime.State() == t'.w
  {
    t' := t;
    var i := 0;
    while i < |steps|
      invariant i <= |steps| && runtime.Valid() && runtime.State() == t'.w
      invariant Run(runtime.env, t', steps[i..]) == Run(runtime.env, t, steps)
    {
      NextShaped(runtime.env, t', steps[i]);
      var _ := runtime.Process(steps[i]);
      t' := Next(runtime.env, t', steps[i]);
      assert steps[i..][1..] == steps[i + 1..];
      i := i + 1;
    }
  }
}
