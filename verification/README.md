# Dead Man's Switch: a verified model

An owner locks lamports in a vault and checks in from time to time. Once they
stay silent past a deadline, the listed heirs each claim their share, and the
last of them sweeps what is left. A keeper service watches the vaults, decodes
their accounts and reminds owners before a deadline.

This project models the Solana program (Rust) and the keeper (Go) in Dafny and
proves what the two promise, separately and together.

## How it is laid out

| file | what it holds |
|---|---|
| `Base.dfy`, `Sums.dfy` | machine integers, keys, results; sums over tables and ledgers |
| `VaultRules.dfy` | the rules of one vault, on values: tables, timer, shares, claims |
| `Instructions.dfy` | each instruction on values: constraints in order, then the handler |
| `Program.dfy` | the program's objects and handlers, mutating in place, proved against the two above |
| `Estates.dfy`, `Payouts.dfy` | a vault with what it holds and its books, for SOL or tokens alike; runs of claims |
| `Stranding.dfy` | which vaults their heirs can empty, and which keep coins for good |
| `Protocol.dfy`, `Safety.dfy` | vault, ledger and clock under every instruction, plain transfers and time; the invariant |
| `Guarantees.dfy` | the promises over every run |
| `Custody.dfy` | who moves the money, the table and the timer, step by step and over runs |
| `Closing.dfy`, `TinyVault.dfy` | which tripped vaults can ever be closed; a concrete one that cannot, from its opening |
| `Bank.dfy` | the runtime: handlers work on copies, which are written back only on success |
| `KeeperVaults.dfy`, `Thresholds.dfy` | the keeper's view of a vault, its status, its configuration |
| `Reminders.dfy`, `ReminderCounts.dfy` | the reminder rule for one vault, the one-mark machine it refines, message counts |
| `Tracking.dfy`, `Store.dfy`, `Watching.dfy`, `ScanRuns.dfy` | the tracker, the cache and the scan as they mutate their state; runs of scans |
| `Warnings.dfy` | an owner is warned before the deadline passes, and never told anything untrue |
| `Layout.dfy`, `Decoding.dfy` | the account layout, the stop-at-first-error parser, the sticky-error reader |
| `Agreement.dfy` | the keeper and the program give the same verdicts |

Handlers, tracker, cache and reader are classes and methods whose contracts
equate the new state with a specification function of the old one. The theorems
are about those functions and about runs built from them. `Bank.ProcessAll` ties
a sequence of processed transactions to such a run, and `ScanRuns.PollAll` ties
the polling loop to a run of scans.

## Assumptions

- The rent reserve of a vault account is constant, and transaction fees are zero.
- The clock never goes backwards.
- Nobody can sign for the vault address, which is derived from the program. So
  the vault is never both sides of `move_lamports`, which reads both balances
  before it writes either (`Program.MoveLamports` says what happens if it were).
- An account is created with its reserve topped up from the payer, as the
  framework's `init` does, and one owner and one vault id belong to each address.
- A plain transfer may reach the vault address at any moment, before it is opened,
  while it is open and after it is closed.
- The closing log line of `initialize_vault` and `check_in` computes the deadline
  with checked arithmetic, so an overflow there fails the whole instruction. The
  model keeps that.
- The keeper's instants are exact integers. `Time.Sub` saturates, and the
  conversion of a timeout to nanoseconds wraps, as in Go.

## Where the code and its documentation differ

### Dust

The program's comments say that the last heir's sweep keeps integer division
from leaving dust in a vault nobody can reopen
(programs/dead-man-switch/src/instructions/claim_sol.rs:38-39). With a pool too
small to split, that is not so: a non-last heir whose floored share is 0 is
refused, so two such heirs block each other. The exact condition can be read off
a vault at any time: two different unpaid heirs with
`claim_pool * share_bps < 10000`, where before the first claim the pool is what
is held (`Stranding.TwoHopeless`).

- Before anything is lost: claims alone can pay everyone and leave nothing iff
  there is a pool and no two unpaid heirs are such (`Stranding.EmptiableIff`).
- Once tripped: two such heirs stay unpaid and the vault keeps coins whatever is
  claimed and whatever arrives (`Stranding.StrandedForGood`). On the ledger it is
  never closed and never pays either of them along any run
  (`Closing.StrandedOnLedger`).
- A tripped vault can still be closed some day iff everyone is paid and nothing
  is held, or else no two unpaid heirs are such and no unpaid heir is the vault
  address itself, which cannot sign (`Closing.ClosableIff`). Only funds sent to it
  after everyone is paid can take that away again (`Closing.StaysClosableIff`).
- It happens: four ordinary steps from an unopened address lead to such a vault
  (`TinyVault.TinyVaultStrands`).

`Payouts.DrainIff` and `Guarantees.HeirsDrainVault` answer a narrower question,
whether the heirs are all paid when they claim once each in a given order, and
`Payouts.StuckIff` says when nobody's claim is accepted at one instant.

### Waiting for co-heirs

The program says that no co-heir has to act first
(programs/dead-man-switch/src/instructions/claim_sol.rs:7-10), and the
repository's README.md:52-54 that nothing stalls when the other heirs never show
up. Neither holds of an heir whose share of the pool rounds to nothing, even if
there is only one: they are refused until all the others have been paid
(`Stranding.HopelessIsPaidLast`; `TinyVault.TinyHeirMustWait` is an input). Any
other unpaid heir need not wait; `Guarantees.ClaimIff` is the exact condition for
both.

### Token vaults and the link server

The link server's checks exist so that users are told why before they sign
(keeper/internal/blink/server.go:188-190). Before a claim it never looks at the
mint, and it hands out `claim_sol` for every vault
(keeper/internal/blink/server.go:271-292). So every claim it lets through on a
token vault is refused on chain with `NotSolVault`, even where the token claim
would be accepted (`Agreement.TokenHeirIsMisled`).
`Agreement.GuardedClaimGoesThroughIff` is the exact condition for the
transaction it hands out.

## Model

| member | source | states |
|---|---|---|
| VaultRules.TableCheckIff | programs/dead-man-switch/src/state.rs:123-149 | the table check accepts exactly the tables with one to five heirs, non-default pairwise distinct addresses, positive shares and an unbounded sum of 10000; the 16-bit total never rejects a valid one |
| VaultRules.FirstBadSlotDecides | programs/dead-man-switch/src/state.rs:123-149 | the error of a table with a bad slot is that of its first one: default address, empty share, repeated address, or a total past 16 bits |
| VaultRules.WholeTableRefusals | programs/dead-man-switch/src/state.rs:123-149 | the error of a table without one: empty, too long, or not adding up to the whole |
| VaultRules.IndexOf | programs/dead-man-switch/src/state.rs:112-114 | the first heir with the address, or none when it is not listed |
| VaultRules.ShareOfWhole | programs/dead-man-switch/src/state.rs:162-169 | a share of at most 10000 basis points is never refused and never exceeds the pool |
| VaultRules.ClaimPays | programs/dead-man-switch/src/instructions/claim_sol.rs:32-52 | a claim that goes through marks one unpaid heir, freezes the pool if nothing has, and pays the last heir all that is available and any other the floored share of the pool |
| VaultRules.AuthorizedClaimIff | programs/dead-man-switch/src/instructions/claim_sol.rs:36-46 | an authorized claim on any vault, sound or not, goes through iff what it would pay is positive and available, and is otherwise refused for the funds |
| VaultRules.AuthorizeRefusals | programs/dead-man-switch/src/state.rs:180-205 | each reason a claim is not authorized, exactly: the deadline does not fit, is not reached, the claimant is not listed, or is paid already |
| Instructions.CheckedSlotsGood | programs/dead-man-switch/src/instructions/set_beneficiaries.rs:35-53 | a table that passed is stored whole: the heirs named, all unclaimed, valid, zeroed slots behind |
| Instructions.CheckedSlotsIff | programs/dead-man-switch/src/instructions/initialize_vault.rs:45-59 | a list of inputs is accepted iff the heirs it names form a valid table, and then those heirs are stored in order |
| Instructions.InitializeIff | programs/dead-man-switch/src/instructions/initialize_vault.rs:35-83 | opening succeeds iff timeout, table and deadline are in order; the vault is armed and stores exactly the time, timeout, heirs, owner, id, mint and bump given |
| Instructions.InitializeRefusals | programs/dead-man-switch/src/instructions/initialize_vault.rs:41-80 | why opening is refused: the timeout, else the table's own error, else the deadline |
| Instructions.SetBeneficiariesIff | programs/dead-man-switch/src/instructions/set_beneficiaries.rs:17-58 | the table is replaced iff the owner asks before any claim with a valid one, as a whole, and nothing else changes |
| Instructions.SetBeneficiariesRefusals | programs/dead-man-switch/src/instructions/set_beneficiaries.rs:17-53 | why the table is not replaced: not the owner, already claimed from, else the table's own error |
| Instructions.CheckInIff | programs/dead-man-switch/src/instructions/check_in.rs:11-36 | for a vault of either asset a check-in is accepted iff the owner asks before any claim and the new deadline fits; it moves the last check-in to now and nothing else; each refusal |
| Instructions.CheckInHoldsHeirsOff | programs/dead-man-switch/src/instructions/check_in.rs:5-27 | after an accepted check-in on a vault of either asset, every claim is refused for the timer until exactly one timeout later, and none from then on |
| Instructions.DepositSolIff | programs/dead-man-switch/src/instructions/deposit_sol.rs:10-36 | exactly who may deposit, what moves, and why not |
| Instructions.WithdrawSolIff | programs/dead-man-switch/src/instructions/withdraw_sol.rs:13-35 | exactly who may withdraw, what moves, and why not |
| Instructions.CloseSolIff | programs/dead-man-switch/src/instructions/close_vault.rs:16-45 | exactly who may close a SOL vault, what moves, and why not |
| Instructions.ClaimRefusals | programs/dead-man-switch/src/instructions/claim_spl.rs:56-72 | `claim_sol` refuses exactly the token vaults for their asset and `claim_spl` exactly the others; otherwise an authorization refusal is passed on |
| Program.MoveLamports | programs/dead-man-switch/src/utils.rs:12-30 | debit and credit of two accounts, each refusal and when it is raised, nothing written on refusal; both balances are read first, so aliasing loses the debit |
| Program.ValidateSlots | programs/dead-man-switch/src/state.rs:123-149 | the loop with its running 16-bit total accepts exactly the valid tables and otherwise reports the first fault |
| Program.Vault.AuthorizeClaim | programs/dead-man-switch/src/state.rs:180-205 | freezes the pool on the first claim only, books one heir, says whether they are last; a refusal changes no field |
| Program.FillSlots | programs/dead-man-switch/src/instructions/initialize_vault.rs:45-59 | copies the inputs over a zeroed table and validates the part in use |
| Program.HandleInitializeVault | programs/dead-man-switch/src/instructions/initialize_vault.rs:35-83 | timeout range, table, starting state of every field; each refusal |
| Program.HandleSetBeneficiaries | programs/dead-man-switch/src/instructions/set_beneficiaries.rs:17-58 | owner only, before any claim; replaces the whole table and nothing else |
| Program.HandleCheckIn | programs/dead-man-switch/src/instructions/check_in.rs:11-36 | owner only, before any claim; moves the last check-in to now and nothing else |
| Program.SystemTransfer | programs/dead-man-switch/src/instructions/deposit_sol.rs:30-36 | the System Program's transfer between two accounts |
| Program.HandleDepositSol | programs/dead-man-switch/src/instructions/deposit_sol.rs:10-46 | guards in order, positive amount, exact balances afterwards |
| Program.HandleWithdrawSol | programs/dead-man-switch/src/instructions/withdraw_sol.rs:13-44 | guards in order, positive amount within what is beyond the reserve, exact balances afterwards |
| Program.HandleClaimSol | programs/dead-man-switch/src/instructions/claim_sol.rs:12-63 | floored share of the frozen pool, or the sweep for the last heir; both funds checks; exact vault and balances afterwards |
| Program.HandleClaimSpl | programs/dead-man-switch/src/instructions/claim_spl.rs:56-72 | the same payout rule over a token balance |
| Program.HandleCloseSol | programs/dead-man-switch/src/instructions/close_vault.rs:13-45 | owner only, nothing beyond the reserve; every lamport returns to the owner |
| Estates.ClaimKeepsSound | programs/dead-man-switch/src/state.rs:180-205 | a claim keeps the table valid and the books balanced, and the pool it is measured against stays the same |
| Estates.InflowKeepsSound | programs/dead-man-switch/src/state.rs:155-158 | funds arriving from outside keep the books balanced |
| Estates.Solvency | programs/dead-man-switch/src/state.rs:155-205 | 10000 times what is held equals pool times unpaid basis points, plus the remainders of the payments made, plus 10000 times the inflow since; all floored shares still owed are covered together; dust is below one coin per paid heir |
| Estates.EmptyMeansAllPaid | programs/dead-man-switch/src/instructions/close_vault.rs:39-45 | a tripped vault with nothing beyond its reserve has paid every heir |
| Estates.ClaimAcceptedIff | programs/dead-man-switch/src/instructions/claim_sol.rs:32-46 | a claim is accepted iff the deadline has passed, the claimant is an unpaid heir, and their share of the pool does not round to nothing, or they are the last and something is held, which a tripped vault guarantees |
| Estates.CompletePayouts | programs/dead-man-switch/src/instructions/claim_sol.rs:36-52 | once all are paid: each but the sweeper got the exact floor, the sweeper at least the ceiling and at most the floor plus one per other heir on top of the inflow, together exactly the pool plus inflow |
| Payouts.RunKeepsSound | programs/dead-man-switch/src/state.rs:180-205 | every interleaving of attempts, refusals and arrivals keeps the books balanced and the heirs and shares in place |
| Payouts.PayoutRange | programs/dead-man-switch/src/instructions/claim_sol.rs:38-46 | every heir of a completed estate got their floor plus at most one per other heir and the inflow |
| Payouts.OrderIndependence | programs/dead-man-switch/src/instructions/claim_sol.rs:38-46 | two runs without inflow that pay everyone pay each heir the same up to one coin per other heir and leave nothing, whatever the orders and refused attempts |
| Payouts.DrainIff | programs/dead-man-switch/src/instructions/claim_sol.rs:40-46 | the unpaid heirs, claiming once each in a given order, all succeed iff there is a pool and no share but the last one's rounds to nothing; then the vault is empty and all are paid |
| Payouts.StuckIff | programs/dead-man-switch/src/instructions/claim_sol.rs:40-46 | at one instant past the deadline a tripped vault accepts nobody's claim iff at least two heirs are unpaid and all their shares round to nothing |
| Payouts.TokenClaimIsEstateClaim | programs/dead-man-switch/src/instructions/claim_spl.rs:58-72 | a token claim is the same step of the estate, so the payout results hold for tokens |
| Stranding.StrandedForGood | programs/dead-man-switch/src/instructions/claim_sol.rs:38-46 | two unpaid heirs of a tripped vault whose shares of the pool round to nothing stay unpaid, and coins stay held, over every run of claims and arrivals |
| Stranding.EmptiableIff | programs/dead-man-switch/src/instructions/claim_sol.rs:38-46 | claims alone can pay everyone, for some order and times, iff there is a pool, the deadline fits 64 bits and no two unpaid heirs' shares round to nothing; and then nothing is left |
| Stranding.TrippedEmptiableIff | programs/dead-man-switch/src/instructions/claim_sol.rs:38-46 | once tripped, the same condition decides even when funds may arrive |
| Stranding.HopelessIsPaidLast | programs/dead-man-switch/src/instructions/claim_sol.rs:7-10 | an unpaid heir whose share of the pool rounds to nothing is paid iff the deadline has passed, all the others are paid and something is held |
| Safety.StepConserves | programs/dead-man-switch/src/utils.rs:12-30 | no instruction or transfer makes or loses a lamport |
| Safety.RunConserves | programs/dead-man-switch/src/utils.rs:12-30 | the ledger total is the same after every run |
| Safety.RunKeepsInv | programs/dead-man-switch/src/state.rs:44-82 | every step of every run keeps the invariant: valid table with zeroed tail, timer in range with a 64-bit deadline, reserve intact, expired once claimed, books and cash flow balanced |
| Safety.ClaimIsEstateClaim | programs/dead-man-switch/src/instructions/claim_sol.rs:25-52 | a claim on the ledger is a claim on the estate, for the amount that leaves the vault, which is what is booked as paid |
| Guarantees.ReachableInv | programs/dead-man-switch/src/state.rs:44-82 | the invariant holds in every state reachable from an unopened address with any balances at any time |
| Guarantees.ReachableSolvency | programs/dead-man-switch/src/state.rs:155-205 | exact solvency in every reachable tripped state with an unpaid heir |
| Guarantees.ReachableFlow | programs/dead-man-switch/src/instructions/withdraw_sol.rs:28-35 | the balance never falls below the reserve, and what is beyond it is opening plus deposits plus gifts minus withdrawals minus payouts |
| Guarantees.ReachablePayouts | programs/dead-man-switch/src/instructions/claim_sol.rs:36-52 | what a completed vault paid each heir and in total, over every run, gifts included |
| Guarantees.CloseIsSafe | programs/dead-man-switch/src/instructions/close_vault.rs:39-45 | in every reachable state a tripped vault that may be closed has paid every heir, although close never looks at the flags |
| Guarantees.CloseIff | programs/dead-man-switch/src/instructions/close_vault.rs:16-45 | a reachable vault can be closed iff its owner asks and nothing is held beyond the reserve, which then goes to the owner |
| Guarantees.ClaimIff | programs/dead-man-switch/src/instructions/claim_sol.rs:25-52 | exactly whose claim goes through in a reachable state |
| Guarantees.MoneyNeverOverflows | programs/dead-man-switch/src/utils.rs:21-24 | with a total supply that fits 64 bits no deposit, withdrawal, claim, close or transfer is refused because a sum would overflow, by the program or by the runtime |
| Guarantees.WithdrawIff | programs/dead-man-switch/src/instructions/withdraw_sol.rs:5-35 | in every reachable state exactly the owner, until the first claim lands, late or not, can take out any positive amount up to what is beyond the reserve; it goes to their wallet and no third account or vault field moves |
| Guarantees.DepositIff | programs/dead-man-switch/src/instructions/deposit_sol.rs:10-46 | in every reachable state exactly the owner, until the first claim lands, can put in any positive amount their wallet holds, and no third account or vault field moves |
| Guarantees.TrippedIsFrozen | programs/dead-man-switch/src/state.rs:66-78 | along every continuation of a tripped vault that is not closed, addresses, shares, timer and pool stay, flags only go up, and it stays expired |
| Guarantees.PaidOnce | programs/dead-man-switch/src/state.rs:191-202 | along every run of an open vault a wallet is paid once if its flag went up and not at all otherwise |
| Guarantees.PunctualOwnerKeepsAll | programs/dead-man-switch/src/instructions/check_in.rs:24-33 | while the clock never reaches the stored deadline, nobody is ever paid and the vault never trips |
| Guarantees.CheckInBuysTime | programs/dead-man-switch/src/instructions/check_in.rs:5-33 | only the owner can check in, and for a full timeout after it nobody is paid and the vault does not trip, whatever else happens while it stays open |
| Guarantees.TrippedIff | programs/dead-man-switch/src/state.rs:66-78 | the claimed flag is set iff there is a pool iff some heir is marked paid |
| Guarantees.HeirsDrainVault | programs/dead-man-switch/src/instructions/claim_sol.rs:25-52 | past the deadline the unpaid heirs' own claims, once each in a given order, pay everyone and leave exactly the reserve iff there is a pool, all of them can sign and no share but the last one's rounds to nothing |
| Custody.HeldFallsOnlyTo | programs/dead-man-switch/src/instructions/withdraw_sol.rs:13-35 | what an open vault holds falls only by its owner's withdrawal before the first claim, or by an unpaid heir's claim past the deadline, and goes to the one who signed |
| Custody.RunBalances | programs/dead-man-switch/src/utils.rs:12-30 | over any run of an open vault, what it holds changes by exactly what was put in less what its owner withdrew and its heirs were paid |
| Custody.OpenIff | programs/dead-man-switch/src/instructions/initialize_vault.rs:8-83 | exactly who may open the vault and with what, and that it costs them the missing part of the reserve and nobody else anything |
| Custody.SetTableIff | programs/dead-man-switch/src/instructions/set_beneficiaries.rs:17-58 | in every reachable state exactly the owner, before the first claim, may replace the table with a valid one; terms, timer and ledger stay |
| Custody.LedgerCheckInIff | programs/dead-man-switch/src/instructions/check_in.rs:11-36 | in every reachable state exactly the owner may check in before the first claim, and only the last check-in moves |
| Custody.RunKeepsTerms | programs/dead-man-switch/src/state.rs:44-58 | over any run of an open vault owner, id, mint, bump and timeout never change, and the last check-in is when the owner was last heard of |
| Custody.DeadlineFollowsOwner | programs/dead-man-switch/src/state.rs:96-102 | from its opening on, whatever happens while it stays open, a vault's deadline is exactly the timeout it was opened with after the opening or the latest check-in |
| Custody.CheckInSetsDeadline | programs/dead-man-switch/src/instructions/check_in.rs:24-33 | an accepted check-in, any number of steps after the opening, leaves the deadline exactly that timeout after its moment |
| Closing.TrippedRunIsEstateRun | programs/dead-man-switch/src/state.rs:66-78 | as long as it stays open, any run of the protocol moves a tripped vault as some run of claims by wallets that can sign, and arrivals |
| Closing.BlockedNeverCloses | programs/dead-man-switch/src/instructions/close_vault.rs:39-45 | a tripped vault with leftovers after everyone is paid, with two unpaid heirs whose shares round to nothing, or with an unpaid heir who cannot sign is never closed by any run |
| Closing.StrandedOnLedger | programs/dead-man-switch/src/instructions/claim_sol.rs:38-46 | along any run, two heirs whose shares of the frozen pool round to nothing are never paid, and the vault stays open and holds coins |
| Closing.ClosableIff | programs/dead-man-switch/src/instructions/close_vault.rs:8-13 | some run closes a tripped vault iff none of those three things holds of it |
| Closing.OnlyLateFundsBlock | programs/dead-man-switch/src/state.rs:155-158 | an estate that is not blocked becomes so exactly when funds arrive after everyone is paid |
| Closing.StaysClosableIff | programs/dead-man-switch/src/instructions/close_vault.rs:8-13 | a tripped vault that can be closed can still be closed after any run that leaves it open iff nobody sent it funds after everyone was paid |
| TinyVault.TinyPoolStrands | programs/dead-man-switch/src/instructions/claim_sol.rs:38-46 | a concrete pool of three coins where, after the first claim, no claim by anyone at any time is accepted and two coins remain |
| TinyVault.TinyHeirMustWait | programs/dead-man-switch/src/instructions/claim_sol.rs:7-10 | the second heir of that pool, unpaid and past the deadline, is refused at every later instant as long as nobody else has claimed |
| TinyVault.TinyVaultStrands | programs/dead-man-switch/src/instructions/claim_sol.rs:38-46 | open, deposit, wait, claim: a reachable vault that along any continuation is never closed and never pays its two other heirs |
| Bank.Runtime.Process | programs/dead-man-switch/src/lib.rs:25-92 | a transaction has all of its effects or none: handlers run on copies that are written back only on success |
| Bank.ProcessAll | programs/dead-man-switch/src/lib.rs:25-92 | processing transactions one by one follows the runs the guarantees speak of |
| KeeperVaults.KeeperVault.Index | keeper/internal/dms/vault.go:85-92 | the first heir with the address, or -1 |
| KeeperVaults.TimeLeftIsExact | keeper/internal/dms/vault.go:77-81 | the time left is last check-in plus timeout minus now, cut off at 64 bits |
| KeeperVaults.StatusIff | keeper/internal/dms/status.go:35-46 | each status exactly, by the distance from now to last check-in plus timeout |
| Thresholds.Load | keeper/internal/config/config.go:90-118 | 336, 168, 24 and 1 hours when unset; otherwise accepted iff every part is blank or a positive duration and there is one, else the error is that of the first bad part or that there is none; the result holds exactly the parsed durations with their multiplicity, sorted, positive and non-empty |
| Thresholds.PositiveOnlyExactly | keeper/internal/watch/reminder.go:42-47 | exactly the positive thresholds are kept, each as often as it is listed |
| Thresholds.SortedIsPermutation | keeper/internal/config/config.go:115-115 | the sort keeps every threshold with its multiplicity and leaves them descending |
| Thresholds.SortedIsUnique | keeper/internal/watch/reminder.go:48-48 | any descending sort gives this result |
| Reminders.CrossedIsLeast | keeper/internal/watch/reminder.go:88-93 | in a descending list the last crossed threshold is the least one reached, and 0 means none is |
| Reminders.LevelByTheClock | keeper/internal/watch/reminder.go:75-96 | the level spoken about is the least threshold the distance to the deadline does not exceed, none when it exceeds them all, overdue when it is not positive |
| Reminders.RemindersAreTrue | keeper/internal/watch/reminder.go:119-133 | every reminder names its vault, owner and deadline, is overdue only from the deadline on and due soon only before it and within the longest threshold, with the true time left |
| Reminders.ObserveRefines | keeper/internal/watch/reminder.go:57-104 | one observation keeps the fired set equal to everything from the mark up, and speaks iff the level is news to the mark |
| Reminders.TrackerRefinesMark | keeper/internal/watch/reminder.go:57-104 | over every history of a vault the fired map and the one-mark machine speak at the same moments |
| ReminderCounts.AtMostOnePerThreshold | keeper/internal/watch/reminder.go:57-104 | in any stretch with one deadline, any clock and any past, at most one reminder per distinct threshold and one more |
| ReminderCounts.CountIsVisited | keeper/internal/watch/reminder.go:85-103 | with a forward clock the reminders about a new deadline number exactly the urgency levels visited |
| ReminderCounts.PollingLessNeverSaysMore | keeper/internal/watch/reminder.go:85-103 | polling at only some of the moments never sends more |
| Tracking.Tracker.constructor | keeper/internal/watch/reminder.go:41-54 | drops non-positive thresholds, sorts the rest, follows nothing yet |
| Tracking.VaultState.Speak | keeper/internal/watch/reminder.go:75-103 | the fired map is updated in place exactly as the rule for one vault says |
| Tracking.Tracker.EntryFor | keeper/internal/watch/reminder.go:68-73 | the stored state is reused iff the deadline has not moved; no other vault's state moves |
| Tracking.Tracker.Due | keeper/internal/watch/reminder.go:57-104 | the reminder is the one the rule for a single vault gives; a claimed vault's state is dropped; no other vault's state moves |
| Tracking.Tracker.Forget | keeper/internal/watch/reminder.go:108-117 | drops every vault that is not live and nothing else |
| Store.Memory.Replace | keeper/internal/store/store.go:43-55 | the cache holds this scan and nothing of the last one; without repeated addresses it lists the scan again |
| Store.Memory.List | keeper/internal/store/store.go:57-67 | the cached vaults in scan order |
| Store.Memory.Get | keeper/internal/store/store.go:69-79 | the cached vault with the address, or not found |
| Store.Memory.ByOwner | keeper/internal/store/store.go:81-93 | the cached vaults of one owner, in scan order |
| Store.OwnedByExactly | keeper/internal/store/store.go:81-93 | that selection holds exactly the owner's vaults, each as often as it is listed |
| Store.OwnedByKeepsOrder | keeper/internal/store/store.go:81-93 | ... and in the order they are listed |
| Store.ByAddressOfDistinct | keeper/internal/store/store.go:43-55 | without repeated addresses every vault of the scan is found under its own address |
| Store.ByAddressIsLatest | keeper/internal/store/store.go:43-55 | where an address repeats, the last vault listed under it is kept |
| Store.PickFollowsScan | keeper/internal/store/store.go:43-67 | a cache filled from any scan lists one vault for each one scanned, under the same address |
| Watching.Watcher.Scan | keeper/internal/watch/watcher.go:73-108 | a failed fetch changes nothing; otherwise cache, tracker state and reminders are those of the scan on values; any state object that is new to the tracker is freshly made |
| Watching.ScanAt | keeper/internal/watch/watcher.go:83-97 | each vault's new state depends only on its own old state |
| Watching.ScanFollows | keeper/internal/watch/watcher.go:83-87 | after a scan the tracker follows exactly the live, unclaimed vaults |
| Watching.ScanSends | keeper/internal/watch/watcher.go:89-97 | the reminders are those each vault sends on its own |
| Watching.ScanOrderIrrelevant | keeper/internal/watch/watcher.go:83-97 | scans of the same vaults in another order leave the same state and send the same reminders |
| ScanRuns.StateIsOwnHistory | keeper/internal/watch/watcher.go:73-108 | over every run of scans a vault's state depends only on its own history |
| ScanRuns.OwnersAreNotNagged | keeper/internal/watch/watcher.go:73-108 | over every run of scans, at most one reminder per threshold and one more while a deadline stays put |
| ScanRuns.OwnersHearEachLevelOnce | keeper/internal/watch/watcher.go:73-108 | with a forward clock, exactly one reminder for each urgency level the scans find |
| ScanRuns.PollAll | keeper/internal/watch/watcher.go:49-70 | scanning turn after turn, failed fetches passed over, leaves the tracker, the cache and the reminders of the run of the successful scans, which the bounds above speak of |
| Warnings.SeenInWindowMeansWarned | keeper/internal/watch/reminder.go:57-104 | over every history of one vault, whatever its clocks and earlier deadlines, being seen unclaimed within the longest threshold of a deadline not yet past means a due-soon reminder about it by then |
| Warnings.OwnersAreWarned | keeper/internal/watch/watcher.go:73-108 | if one of a keeper's scans finds an unclaimed vault in that window, its owner has been sent a due-soon reminder about that deadline, before it passed, by the end of that scan |
| Warnings.FrequentScansWarn | keeper/internal/watch/watcher.go:49-70 | successful scans no further apart than the longest threshold, from before a deadline to its last stretch, warn the owner of an unclaimed vault whose deadline stays put |
| Warnings.EveryReminderIsTrue | keeper/internal/watch/watcher.go:89-97 | every reminder of every scan is about an unclaimed vault of that scan, goes to its owner with its deadline, and comes neither early nor with a wrong status or time left |
| Layout.LE64RoundTrip | keeper/internal/dms/vault.go:188-189 | eight little-endian bytes give back the number |
| Decoding.Reader.Take | keeper/internal/dms/vault.go:173-184 | reads within the buffer or fails for good; zeroes and no movement once failed |
| Decoding.Reader.OptionKey | keeper/internal/dms/vault.go:200-206 | one tag byte, then the key only when the tag is set |
| Decoding.DecodeVault | keeper/internal/dms/vault.go:120-163 | the sticky-error decoder returns what the parser that stops at the first failed read returns, for every byte string |
| Decoding.DecodesIff | keeper/internal/dms/vault.go:120-163 | a byte string decodes iff the discriminator matches, it has 251 bytes without a mint or 283 with one, and the heir count fits the table; and which error it gets otherwise |
| Decoding.FieldsByOffset | keeper/internal/dms/vault.go:128-160 | every byte string that decodes, decodes to the values standing at each field's offset, which a mint moves by 32 |
| Decoding.DecodeInvertsEncode | keeper/internal/dms/vault.go:116-163 | whatever vault the program stores, with any bytes behind it, reads back as the keeper's view of that vault |
| Decoding.StoredFieldsComeBack | keeper/internal/dms/vault.go:116-163 | that view holds the stored owner, id, mint, flag, pool and bump, the last check-in and timeout in nanoseconds, and exactly the slots in use in order, under the address asked for |
| Decoding.EncodedSize | keeper/internal/dms/vault.go:31-34 | a stored vault takes 251 bytes without a mint and the whole account with one |
| Decoding.TimeoutConvertsExactly | keeper/internal/dms/vault.go:134-135 | an accepted timeout survives the conversion to nanoseconds |
| Agreement.PostClaim | keeper/internal/blink/server.go:271-285 | the three checks in order |
| Agreement.ClaimGuardAgrees | keeper/internal/blink/server.go:271-285 | at every instant the server lets an heir through iff the program authorizes the claim at that second, and otherwise they object to the same thing, save that the program looks at the timer first |
| Agreement.ClaimGuardReasons | keeper/internal/blink/server.go:271-285 | each reason the server gives, exactly: not listed; else paid already; else the deadline is still ahead |
| Agreement.CheckInGuardAgrees | keeper/internal/blink/server.go:191-200 | the server lets a check-in through iff the program's constraints hold, and otherwise they object to the same thing; only the new deadline is left to the program |
| Agreement.ReachableVerdictsAgree | keeper/internal/blink/server.go:271-285 | both verdicts, reasons included, for every reachable vault read back from its stored bytes, at every instant |
| Agreement.GuardedClaimGoesThroughIff | keeper/internal/blink/server.go:271-292 | at every instant, `claim_sol`, which is what the server hands out, is accepted iff the server lets the claim through, the vault holds SOL, and the heir's share does not round to nothing or they are the last and something is held; what refuses it after the server let it through is the asset, else the funds |
| Agreement.TokenHeirIsMisled | keeper/internal/blink/server.go:265-292 | a token vault past its deadline whose heir the server lets through, whose token claim would be accepted, and whose handed-out transaction is refused at any balances |
| Agreement.StatusMatchesTracker | keeper/internal/dms/status.go:35-46 | with the first threshold as "due soon", the API's status is triggered iff claimed, expired iff the tracker takes its overdue branch, and due soon iff its loop finds a crossed threshold |
| Agreement.ReminderStatusMatches | keeper/internal/watch/reminder.go:75-103 | every reminder carries the status the API would show |
| Agreement.LoadedThresholdsAreKept | keeper/internal/config/config.go:76-79 | a tracker built from loaded thresholds keeps exactly those, so its first is the configured "due soon" |

## Left out

- Token vaults in the ledger runs: `Protocol` opens native SOL vaults only. The payout results for tokens are those of `Estates` and `Payouts`; deposits, withdrawals and closing of token vaults, and what token programs do, are not modelled.
- Address derivation, account creation by the framework, signer seeds and cross-program calls, beyond the guards they amount to.
- Bank.Runtime.Process: does not model transactions of several instructions, fees, or accounts losing their rent exemption.
- Watching.Watcher.Scan: does not model the Postgres cache, whose replacement can fail, nor delivery failures, which the scan ignores; the reminders are those handed to the notifier.
- ScanRuns.PollAll: does not model the ticker's interval or the cancellation that ends the loop; it runs for as many turns as it is given.
- Thresholds.Load: does not model splitting, trimming and parsing the setting's text; it starts from the parsed parts.
- KeeperVaults.KeeperVault.Index: the vault is a value here; the balance field the fetcher adds is not modelled.
- Locks: each tracker and store method holds one lock throughout and is one atomic step here.
- Reminder texts and durations for display, HTTP, JSON, the RPC and signing clients, instruction builders and the command line.
- The order of the claim checks differs between the program (timer first) and the server (listing first), so for a refused claim the reasons agree only as `Agreement.ClaimGuardAgrees` states.
