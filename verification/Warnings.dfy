/** The keeper's other promise: an owner is warned in time. */
module Warnings {
  import opened Base
  import opened KeeperVaults
  import opened Thresholds
  import opened Reminders
  import opened ReminderCounts
  import opened Tracking
  import opened Watching
  import opened ScanRuns

  // ---- one vault

  /** The `j`th sighting makes the keeper say, before this deadline, that it is near. */
  predicate WarnsAt(ths: seq<Duration>, seen: seq<Sighting>, j: nat, deadline: Time) {
    j < |seen| && match Observe(ths, After(ths, seen[..j]), seen[j]).1
                  case Some(r) => r.status.DueSoon? && r.deadline == deadline && r.timeLeft > 0
                  case None => false
  }

  /** Some sighting in this history warned about this deadline. */
  predicate HasWarned(ths: seq<Duration>, seen: seq<Sighting>, deadline: Time) {
    exists j :: 0 <= j < |seen| && WarnsAt(ths, seen, j, deadline)
  }

  lemma HasWarnedLonger(ths: seq<Duration>, seen: seq<Sighting>, n: nat, deadline: Time)
    requires n <= |seen| && HasWarned(ths, seen[..n], deadline)
    ensures HasWarned(ths, seen, deadline)
  {
    var j :| 0 <= j < n && WarnsAt(ths, seen[..n], j, deadline);
    assert seen[..n][..j] == seen[..j];
    assert WarnsAt(ths, seen, j, deadline);
  }

  /** A threshold is only ever ticked off by a warning about the same deadline. */
  lemma {:induction false} FiredMeansWarned(ths: seq<Duration>, seen: seq<Sighting>, t: Duration)
    requires After(ths, seen).Some? && t in After(ths, seen).value.fired && t != EXPIRED
    ensures HasWarned(ths, seen, After(ths, seen).value.deadline)
    decreases |seen|
  {
    var n := |seen| - 1;
    var before, deadline := After(ths, seen[..n]), After(ths, seen).value.deadline;
    if before.Some? && before.value.deadline == deadline && t in before.value.fired {
      FiredMeansWarned(ths, seen[..n], t);
      HasWarnedLonger(ths, seen, n, deadline);
    } else {
      assert WarnsAt(ths, seen, n, deadline);
    }
  }

  /** The vault is unclaimed and seen in its last stretch: due, but not overdue,
      within the longest threshold. */
  predicate InWindow(ths: seq<Duration>, s: Sighting, deadline: Time)
    requires ths != []
  {
    s.Seen? && !s.v.isClaimed && s.v.Deadline() == deadline && deadline - ths[0] <= s.now < deadline
  }

  /** Whatever came before — other deadlines, gaps, clocks that jump — a vault
      seen in the window has been warned about by then. */
  lemma SeenInWindowMeansWarned(ths: seq<Duration>, seen: seq<Sighting>, k: nat, deadline: Time)
    requires ths != [] && Descending(ths) && Positive(ths)
    requires k < |seen| && InWindow(ths, seen[k], deadline)
    ensures HasWarned(ths, seen[..k + 1], deadline)
  {
    var v, left := seen[k].v, seen[k].v.TimeLeft(seen[k].now);
    var upTo := seen[..k + 1];
    assert upTo[..k] == seen[..k];
    CrossedIsLeast(ths, left);
    assert ths[0] in ths;
    var epoch := EpochFor(After(ths, seen[..k]), deadline);
    if Crossed(ths, left) in epoch.fired {
      FiredMeansWarned(ths, seen[..k], Crossed(ths, left));
      HasWarnedLonger(ths, upTo, k, deadline);
    } else {
      assert WarnsAt(ths, upTo, k, deadline);
    }
  }

  // ---- runs of scans

  /** A message to the owner of `a`, sent before the deadline, that it is near. */
  predicate Warning(r: Reminder, a: Pubkey, deadline: Time) {
    r.vault == a && r.status.DueSoon? && r.deadline == deadline && r.timeLeft > 0
  }

  /** Somewhere in these scans' messages there is such a warning. */
  predicate Warned(sent: seq<seq<Reminder>>, a: Pubkey, deadline: Time) {
    exists j, i :: 0 <= j < |sent| && 0 <= i < |sent[j]| && Warning(sent[j][i], a, deadline)
  }

  lemma SentAllStarts(ths: seq<Duration>, before: seq<Fetch>, during: seq<Fetch>)
    requires during != []
    ensures SentAll(ths, StateAfter(ths, before), during)
         == [ScanAll(ths, StateAfter(ths, before), during[0].vaults, during[0].now).1]
            + SentAll(ths, StateAfter(ths, before + [during[0]]), during[1..])
  {
    StateAfterOneMore(ths, before, during[0]);
  }

  lemma {:induction false} SentAllLength(ths: seq<Duration>, st: map<Pubkey, Epoch>, fetches: seq<Fetch>)
    ensures |SentAll(ths, st, fetches)| == |fetches|
    decreases |fetches|
  {
    if fetches != [] {
      SentAllLength(ths, ScanAll(ths, st, fetches[0].vaults, fetches[0].now).0, fetches[1..]);
    }
  }

  lemma ShiftOne<T>(before: seq<T>, during: seq<T>, j: nat)
    requires 0 < j < |during|
    ensures before + [during[0]] + during[1..][..j - 1] == before + during[..j]
    ensures during[1..][j - 1] == during[j]
  {
  }

  /** What the `j`th scan sends, by the state the scans before it left. */
  lemma {:induction false} SentAt(ths: seq<Duration>, before: seq<Fetch>, during: seq<Fetch>, j: nat)
    requires j < |during| == |SentAll(ths, StateAfter(ths, before), during)|
    ensures SentAll(ths, StateAfter(ths, before), during)[j]
         == ScanAll(ths, StateAfter(ths, before + during[..j]), during[j].vaults, during[j].now).1
    decreases |during|
  {
    SentAllStarts(ths, before, during);
    if j == 0 {
      assert before + during[..0] == before;
    } else {
      ShiftOne(before, during, j);
      SentAt(ths, before + [during[0]], during[1..], j - 1);
    }
  }

  lemma {:induction false} EachHolds(ths: seq<Duration>, st: map<Pubkey, Epoch>, vaults: seq<KeeperVault>,
                                     now: Time, i: nat, r: Reminder)
    requires i < |vaults| && DueVault(ths, Lookup(st, vaults[i].address), vaults[i], now).1 == Some(r)
    ensures r in Each(ths, st, vaults, now)
  {
    if i < |vaults| - 1 {
      EachHolds(ths, st, vaults[..|vaults| - 1], now, i, r);
    }
  }

  /** The reminder a vault calls for, judged by the state the scans before left,
      is among what its scan sends. */
  lemma ReminderIsSent(ths: seq<Duration>, fetches: seq<Fetch>, j: nat, i: nat, r: Reminder)
    requires AllDistinct(fetches) && j < |fetches| && i < |fetches[j].vaults|
    requires DueVault(ths, Lookup(StateAfter(ths, fetches[..j]), fetches[j].vaults[i].address),
                      fetches[j].vaults[i], fetches[j].now).1 == Some(r)
    ensures |SentAll(ths, map[], fetches)| == |fetches| && r in SentAll(ths, map[], fetches)[j]
  {
    SentAllLength(ths, map[], fetches);
    SentAt(ths, [], fetches, j);
    assert [] + fetches[..j] == fetches[..j];
    ScanSends(ths, StateAfter(ths, fetches[..j]), fetches[j].vaults, fetches[j].now);
    EachHolds(ths, StateAfter(ths, fetches[..j]), fetches[j].vaults, fetches[j].now, i, r);
  }

  lemma HeldWarning(sent: seq<seq<Reminder>>, j: nat, r: Reminder, a: Pubkey, deadline: Time)
    requires j < |sent| && r in sent[j] && Warning(r, a, deadline)
    ensures Warned(sent, a, deadline)
  {
    var k :| 0 <= k < |sent[j]| && sent[j][k] == r;
    assert Warning(sent[j][k], a, deadline);
  }

  /** What a vault's own history says is warned about is sent. */
  lemma WarnsMeansSent(ths: seq<Duration>, fetches: seq<Fetch>, j: nat, a: Pubkey, deadline: Time)
    requires AllDistinct(fetches) && WarnsAt(ths, History(fetches, a), j, deadline)
    ensures Warned(SentAll(ths, map[], fetches), a, deadline)
  {
    var f := fetches[j];
    assert History(fetches, a)[..j] == History(fetches[..j], a);
    StateIsOwnHistory(ths, fetches[..j], a);
    var v := Find(f.vaults, a).value;
    var r := DueVault(ths, Lookup(StateAfter(ths, fetches[..j]), a), v, f.now).1.value;
    var i :| 0 <= i < |f.vaults| && f.vaults[i] == v;
    ReminderIsSent(ths, fetches, j, i, r);
    HeldWarning(SentAll(ths, map[], fetches), j, r, a, deadline);
  }

  /** Warned in time. If one of the keeper's scans finds an unclaimed vault within
      its longest threshold of the deadline and not yet past it, then by the end
      of that scan the owner has been sent a warning about that very deadline,
      before it passed. */
  lemma OwnersAreWarned(ths: seq<Duration>, fetches: seq<Fetch>, k: nat, a: Pubkey, deadline: Time)
    requires ths != [] && Descending(ths) && Positive(ths) && AllDistinct(fetches)
    requires k < |fetches| && InWindow(ths, SightingIn(fetches[k], a), deadline)
    ensures Warned(SentAll(ths, map[], fetches[..k + 1]), a, deadline)
  {
    var seen := History(fetches, a);
    SeenInWindowMeansWarned(ths, seen, k, deadline);
    assert seen[..k + 1] == History(fetches[..k + 1], a);
    var j :| 0 <= j < k + 1 && WarnsAt(ths, seen[..k + 1], j, deadline);
    WarnsMeansSent(ths, fetches[..k + 1], j, a, deadline);
  }

  /** The scans from `m` to `n` all find `a` unclaimed with this deadline, begin
      before it, reach its last stretch, and are never further apart than the
      longest threshold. */
  predicate OftenEnough(ths: seq<Duration>, fetches: seq<Fetch>, m: nat, n: nat, a: Pubkey, deadline: Time)
    requires ths != []
  {
    && m <= n < |fetches|
    && OneEpoch(History(fetches, a)[m..n + 1], deadline)
    && fetches[m].now < deadline && deadline - ths[0] <= fetches[n].now
    && forall i :: m <= i < n ==> fetches[i + 1].now - fetches[i].now <= ths[0]
  }

  /** Scans that close together cannot step over the window. */
  lemma {:induction false} SomeScanInWindow(ths: seq<Duration>, fetches: seq<Fetch>, m: nat, n: nat,
                                            a: Pubkey, deadline: Time) returns (k: nat)
    requires ths != [] && OftenEnough(ths, fetches, m, n, a, deadline)
    ensures m <= k <= n && InWindow(ths, SightingIn(fetches[k], a), deadline)
    decreases n - m
  {
    assert History(fetches, a)[m..n + 1][0] == SightingIn(fetches[m], a);
    if deadline - ths[0] <= fetches[m].now {
      k := m;
      FoundAtItsScan(fetches[m], a);
    } else {
      assert History(fetches, a)[m + 1..n + 1] == History(fetches, a)[m..n + 1][1..];
      k := SomeScanInWindow(ths, fetches, m + 1, n, a, deadline);
    }
  }

  lemma FoundAtItsScan(f: Fetch, a: Pubkey)
    requires SightingIn(f, a).Seen?
    ensures SightingIn(f, a).now == f.now
  {
  }

  /** A keeper that scans often enough warns every owner: nobody's deadline slips
      by between two scans. */
  lemma FrequentScansWarn(ths: seq<Duration>, fetches: seq<Fetch>, m: nat, n: nat, a: Pubkey, deadline: Time)
    requires ths != [] && Descending(ths) && Positive(ths) && AllDistinct(fetches)
    requires OftenEnough(ths, fetches, m, n, a, deadline)
    ensures Warned(SentAll(ths, map[], fetches[..n + 1]), a, deadline)
  {
    var k := SomeScanInWindow(ths, fetches, m, n, a, deadline);
    OwnersAreWarned(ths, fetches[..n + 1], k, a, deadline);
    assert fetches[..n + 1][..k + 1] == fetches[..k + 1];
    WarnedLonger(ths, fetches[..k + 1], fetches[k + 1..n + 1], a, deadline);
    assert fetches[..k + 1] + fetches[k + 1..n + 1] == fetches[..n + 1];
  }

  /** More scans take back no warning. */
  lemma WarnedLonger(ths: seq<Duration>, first: seq<Fetch>, more: seq<Fetch>, a: Pubkey, deadline: Time)
    requires Warned(SentAll(ths, map[], first), a, deadline)
    ensures Warned(SentAll(ths, map[], first + more), a, deadline)
  {
    SentAllAppend(ths, map[], first, more);
    var sent, all := SentAll(ths, map[], first), SentAll(ths, map[], first + more);
    var j, i :| 0 <= j < |sent| && 0 <= i < |sent[j]| && Warning(sent[j][i], a, deadline);
    assert all[j] == sent[j] && Warning(all[j][i], a, deadline);
  }

  lemma {:induction false} SentAllAppend(ths: seq<Duration>, st: map<Pubkey, Epoch>,
                                         first: seq<Fetch>, more: seq<Fetch>)
    ensures SentAll(ths, st, first) <= SentAll(ths, st, first + more)
    decreases |first|
  {
    if first != [] {
      assert (first + more)[0] == first[0] && (first + more)[1..] == first[1..] + more;
      SentAllAppend(ths, ScanAll(ths, st, first[0].vaults, first[0].now).0, first[1..], more);
    }
  }

  // ---- nobody is told anything untrue

  /** The reminder is true of some vault of the scan it was sent in. */
  predicate TrueIn(ths: seq<Duration>, r: Reminder, f: Fetch) {
    exists i :: 0 <= i < |f.vaults| && TrueReminder(ths, r, f.vaults[i], f.now)
  }

  lemma {:induction false} DueAllTrue(ths: seq<Duration>, st: map<Pubkey, Epoch>, vaults: seq<KeeperVault>,
                                      now: Time, k: nat)
    requires Descending(ths) && Positive(ths) && k < |DueAll(ths, st, vaults, now).1|
    ensures TrueIn(ths, DueAll(ths, st, vaults, now).1[k], Fetch(vaults, now))
  {
    var n := |vaults| - 1;
    var (st', sent) := DueAll(ths, st, vaults[..n], now);
    var r := DueAll(ths, st, vaults, now).1[k];
    if k < |sent| {
      DueAllTrue(ths, st, vaults[..n], now, k);
      var i :| 0 <= i < n && TrueReminder(ths, r, vaults[..n][i], now);
      assert TrueReminder(ths, r, vaults[i], now);
    } else {
      RemindersAreTrue(ths, Lookup(st', vaults[n].address), vaults[n], now);
      assert TrueReminder(ths, r, vaults[n], now);
    }
  }

  /** Every reminder of every scan, from any state of the tracker, is about an
      unclaimed vault of that scan, goes to its owner with its deadline, and comes
      neither early nor with a wrong status or time left. */
  lemma {:induction false} EveryReminderIsTrue(ths: seq<Duration>, st: map<Pubkey, Epoch>, fetches: seq<Fetch>,
                                               j: nat, k: nat)
    requires Descending(ths) && Positive(ths)
    requires j < |fetches| == |SentAll(ths, st, fetches)| && k < |SentAll(ths, st, fetches)[j]|
    ensures TrueIn(ths, SentAll(ths, st, fetches)[j][k], fetches[j])
    decreases |fetches|
  {
    var f := fetches[0];
    if j == 0 {
      DueAllTrue(ths, Kept(st, Live(f.vaults)), f.vaults, f.now, k);
    } else {
      EveryReminderIsTrue(ths, ScanAll(ths, st, f.vaults, f.now).0, fetches[1..], j - 1, k);
    }
  }
}
