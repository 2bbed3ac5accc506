/** One scan of the keeper: refresh the cache, forget closed vaults, remind. */
module Watching {
  import opened Base
  import opened KeeperVaults
  import opened Reminders
  import opened Tracking
  import opened Store

  // ---- the scan on values

  function Live(vaults: seq<KeeperVault>): set<Pubkey> {
    set i | 0 <= i < |vaults| :: vaults[i].address
  }

  function Sent(reminder: Option<Reminder>): seq<Reminder> {
    if reminder.Some? then [reminder.value] else []
  }

  /** Every vault in turn, each against the state the ones before it left. */
  function DueAll(ths: seq<Duration>, st: map<Pubkey, Epoch>, vaults: seq<KeeperVault>, now: Time)
    : (map<Pubkey, Epoch>, seq<Reminder>)
  {
    if vaults == [] then (st, [])
    else
      var v := vaults[|vaults| - 1];
      var (st', sent) := DueAll(ths, st, vaults[..|vaults| - 1], now);
      var (epoch, reminder) := DueVault(ths, Lookup(st', v.address), v, now);
      (Put(st', v.address, epoch), sent + Sent(reminder))
  }

  /** What each vault says on its own, against the state before the scan. */
  function Each(ths: seq<Duration>, st: map<Pubkey, Epoch>, vaults: seq<KeeperVault>, now: Time): seq<Reminder> {
    if vaults == [] then []
    else
      var v := vaults[|vaults| - 1];
      Each(ths, st, vaults[..|vaults| - 1], now) + Sent(DueVault(ths, Lookup(st, v.address), v, now).1)
  }

  function ScanAll(ths: seq<Duration>, st: map<Pubkey, Epoch>, vaults: seq<KeeperVault>, now: Time)
    : (map<Pubkey, Epoch>, seq<Reminder>)
  {
    DueAll(ths, Kept(st, Live(vaults)), vaults, now)
  }

  // ---- vaults do not disturb each other

  lemma {:induction false} DueAllElsewhere(ths: seq<Duration>, st: map<Pubkey, Epoch>, vaults: seq<KeeperVault>,
                                           now: Time, a: Pubkey)
    requires forall i :: 0 <= i < |vaults| ==> vaults[i].address != a
    ensures Lookup(DueAll(ths, st, vaults, now).0, a) == Lookup(st, a)
  {
    if vaults != [] {
      DueAllElsewhere(ths, st, vaults[..|vaults| - 1], now, a);
    }
  }

  lemma {:induction false} DueAllAt(ths: seq<Duration>, st: map<Pubkey, Epoch>, vaults: seq<KeeperVault>,
                                    now: Time, i: nat)
    requires DistinctAddresses(vaults) && i < |vaults|
    ensures Lookup(DueAll(ths, st, vaults, now).0, vaults[i].address)
         == DueVault(ths, Lookup(st, vaults[i].address), vaults[i], now).0
  {
    var rest := vaults[..|vaults| - 1];
    if i < |vaults| - 1 {
      DueAllAt(ths, st, rest, now, i);
    } else {
      DueAllElsewhere(ths, st, rest, now, vaults[i].address);
    }
  }

  lemma {:induction false} DueAllSends(ths: seq<Duration>, st: map<Pubkey, Epoch>, vaults: seq<KeeperVault>, now: Time)
    requires DistinctAddresses(vaults)
    ensures DueAll(ths, st, vaults, now).1 == Each(ths, st, vaults, now)
  {
    if vaults != [] {
      var rest := vaults[..|vaults| - 1];
      DueAllSends(ths, st, rest, now);
      DueAllElsewhere(ths, st, rest, now, vaults[|vaults| - 1].address);
    }
  }

  /** A scan gives each vault the state and the reminder it would get alone. */
  lemma ScanAt(ths: seq<Duration>, st: map<Pubkey, Epoch>, vaults: seq<KeeperVault>, now: Time, i: nat)
    requires DistinctAddresses(vaults) && i < |vaults|
    ensures Lookup(ScanAll(ths, st, vaults, now).0, vaults[i].address)
         == DueVault(ths, Lookup(st, vaults[i].address), vaults[i], now).0
  {
    assert vaults[i].address in Live(vaults);
    DueAllAt(ths, Kept(st, Live(vaults)), vaults, now, i);
  }

  predicate Followed(vaults: seq<KeeperVault>, a: Pubkey) {
    exists i :: 0 <= i < |vaults| && vaults[i].address == a && !vaults[i].isClaimed
  }

  /** After a scan the tracker follows exactly the live, unclaimed vaults. */
  lemma ScanFollows(ths: seq<Duration>, st: map<Pubkey, Epoch>, vaults: seq<KeeperVault>, now: Time, a: Pubkey)
    requires DistinctAddresses(vaults)
    ensures a in ScanAll(ths, st, vaults, now).0 <==> Followed(vaults, a)
  {
    if i :| 0 <= i < |vaults| && vaults[i].address == a {
      ScanAt(ths, st, vaults, now, i);
    } else {
      DueAllElsewhere(ths, Kept(st, Live(vaults)), vaults, now, a);
    }
  }

  /** The reminders of a scan are those each vault sends on its own, judged
      against its own state before the scan and nothing else. */
  lemma ScanSends(ths: seq<Duration>, st: map<Pubkey, Epoch>, vaults: seq<KeeperVault>, now: Time)
    requires DistinctAddresses(vaults)
    ensures ScanAll(ths, st, vaults, now).1 == Each(ths, st, vaults, now)
  {
    var kept := Kept(st, Live(vaults));
    forall i | 0 <= i < |vaults| ensures Lookup(kept, vaults[i].address) == Lookup(st, vaults[i].address) {
      assert vaults[i].address in Live(vaults);
    }
    DueAllSends(ths, kept, vaults, now);
    EachSameState(ths, kept, st, vaults, now);
  }

  lemma {:induction false} EachSameState(ths: seq<Duration>, st: map<Pubkey, Epoch>, st': map<Pubkey, Epoch>,
                                         vaults: seq<KeeperVault>, now: Time)
    requires forall i :: 0 <= i < |vaults| ==> Lookup(st, vaults[i].address) == Lookup(st', vaults[i].address)
    ensures Each(ths, st, vaults, now) == Each(ths, st', vaults, now)
  {
    if vaults != [] {
      EachSameState(ths, st, st', vaults[..|vaults| - 1], now);
    }
  }

  // ---- scan order does not matter

  lemma AppendLast<T>(a: seq<T>, b: seq<T>)
    requires b != []
    ensures (a + b)[..|a + b| - 1] == a + b[..|b| - 1] && (a + b)[|a + b| - 1] == b[|b| - 1]
  {
  }

  lemma {:induction false} EachAppend(ths: seq<Duration>, st: map<Pubkey, Epoch>, a: seq<KeeperVault>,
                                      b: seq<KeeperVault>, now: Time)
    ensures Each(ths, st, a + b, now) == Each(ths, st, a, now) + Each(ths, st, b, now)
  {
    if b == [] {
      assert a + b == a;
    } else {
      EachAppend(ths, st, a, b[..|b| - 1], now);
      AppendLast(a, b);
    }
  }

  lemma DropOne<T>(a: seq<T>, b: seq<T>, j: nat)
    requires a != [] && multiset(a) == multiset(b) && j < |b| && b[j] == a[|a| - 1]
    ensures multiset(a[..|a| - 1]) == multiset(b[..j] + b[j + 1..])
  {
    assert a == a[..|a| - 1] + [b[j]];
    assert b == b[..j] + [b[j]] + b[j + 1..];
    assert multiset(a) - multiset{b[j]} == multiset(a[..|a| - 1]);
    assert multiset(b) - multiset{b[j]} == multiset(b[..j] + b[j + 1..]);
  }

  lemma EachWithout(ths: seq<Duration>, st: map<Pubkey, Epoch>, b: seq<KeeperVault>, now: Time, j: nat)
    requires j < |b|
    ensures multiset(Each(ths, st, b, now))
         == multiset(Each(ths, st, b[..j] + b[j + 1..], now)) + multiset(Each(ths, st, [b[j]], now))
  {
    assert b == b[..j] + ([b[j]] + b[j + 1..]);
    EachAppend(ths, st, b[..j], [b[j]] + b[j + 1..], now);
    EachAppend(ths, st, [b[j]], b[j + 1..], now);
    EachAppend(ths, st, b[..j], b[j + 1..], now);
  }

  lemma {:induction false} EachPermutes(ths: seq<Duration>, st: map<Pubkey, Epoch>, a: seq<KeeperVault>,
                                        b: seq<KeeperVault>, now: Time)
    requires multiset(a) == multiset(b)
    ensures multiset(Each(ths, st, a, now)) == multiset(Each(ths, st, b, now))
    decreases |a|
  {
    if a == [] {
      assert |multiset(b)| == |b|;
    } else {
      var last := |a| - 1;
      assert a[last] in multiset(b);
      var j :| 0 <= j < |b| && b[j] == a[last];
      DropOne(a, b, j);
      EachPermutes(ths, st, a[..last], b[..j] + b[j + 1..], now);
      EachWithout(ths, st, b, now, j);
      EachWithout(ths, st, a, now, last);
      assert a[..last] + a[last + 1..] == a[..last];
    }
  }

  /** Two scans of the same vaults in different orders leave the same tracker
      state and send the same reminders. */
  lemma ScanOrderIrrelevant(ths: seq<Duration>, st: map<Pubkey, Epoch>, a: seq<KeeperVault>,
                            b: seq<KeeperVault>, now: Time)
    requires DistinctAddresses(a) && DistinctAddresses(b) && multiset(a) == multiset(b)
    ensures ScanAll(ths, st, a, now).0 == ScanAll(ths, st, b, now).0
    ensures multiset(ScanAll(ths, st, a, now).1) == multiset(ScanAll(ths, st, b, now).1)
  {
    ScanSends(ths, st, a, now);
    ScanSends(ths, st, b, now);
    EachPermutes(ths, st, a, b, now);
    forall k ensures Lookup(ScanAll(ths, st, a, now).0, k) == Lookup(ScanAll(ths, st, b, now).0, k) {
      SameState(ths, st, a, b, now, k);
    }
    LookupExtensional(ScanAll(ths, st, a, now).0, ScanAll(ths, st, b, now).0);
  }

  lemma LookupExtensional(m: map<Pubkey, Epoch>, m': map<Pubkey, Epoch>)
    requires forall k :: Lookup(m, k) == Lookup(m', k)
    ensures m == m'
  {
    forall k ensures k in m <==> k in m' {
      assert Lookup(m, k) == Lookup(m', k);
    }
    forall k | k in m ensures m[k] == m'[k] {
      assert Lookup(m, k) == Lookup(m', k);
    }
  }

  lemma SameState(ths: seq<Duration>, st: map<Pubkey, Epoch>, a: seq<KeeperVault>, b: seq<KeeperVault>,
                  now: Time, k: Pubkey)
    requires DistinctAddresses(a) && DistinctAddresses(b) && multiset(a) == multiset(b)
    ensures Lookup(ScanAll(ths, st, a, now).0, k) == Lookup(ScanAll(ths, st, b, now).0, k)
  {
    if i :| 0 <= i < |a| && a[i].address == k {
      assert a[i] in multiset(b);
      var j :| 0 <= j < |b| && b[j] == a[i];
      ScanAt(ths, st, a, now, i);
      ScanAt(ths, st, b, now, j);
    } else {
      forall j | 0 <= j < |b| ensures b[j].address != k {
        assert b[j] in multiset(a);
        assert b[j] in a;
      }
      ScanFollows(ths, st, a, now, k);
      ScanFollows(ths, st, b, now, k);
    }
  }

  // ---- the scan as it runs

  datatype SourceError = Unreachable

  class Watcher {
    const store: Memory
    const tracker: Tracker

    constructor (tracker: Tracker)
      ensures this.tracker == tracker && fresh(store) && store.Valid()
    {
      this.tracker := tracker;
      store := new Memory();
    }

    /** A failed fetch changes nothing. Otherwise the cache is this scan, and
        the reminders handed to the notifier are those of `ScanAll`. */
    method Scan(fetched: Result<seq<KeeperVault>, SourceError>, now: Time)
      returns (r: Result<seq<Reminder>, SourceError>)
      requires tracker.Valid()
      modifies store, tracker, tracker.Objects()
      ensures tracker.Valid() && fresh(tracker.Objects() - old(tracker.Objects()))
      ensures fetched.Err? ==> r == Err(fetched.error)
      ensures fetched.Err? ==> tracker.Epochs() == old(tracker.Epochs())
      ensures fetched.Err? ==> store.vaults == old(store.vaults) && store.order == old(store.order)
      ensures fetched.Ok? ==>
                && store.Valid() && store.vaults == ByAddress(fetched.value)
                && store.order == Addresses(fetched.value)
      ensures fetched.Ok? ==>
                tracker.Epochs() == ScanAll(tracker.thresholds, old(tracker.Epochs()), fetched.value, now).0
      ensures fetched.Ok? ==> r == Ok(ScanAll(tracker.thresholds, old(tracker.Epochs()), fetched.value, now).1)
    {
      if fetched.Err? {
        return Err(fetched.error);
      }
      store.Replace(fetched.value);
      assert tracker.Valid() && tracker.Epochs() == old(tracker.Epochs());
      var sent := Remind(fetched.value, now);
      return Ok(sent);
    }

    /** Forgets the vaults that are gone, then asks the tracker about the rest. */
    method Remind(vaults: seq<KeeperVault>, now: Time) returns (sent: seq<Reminder>)
      requires tracker.Valid()
      modifies tracker, tracker.Objects()
      ensures tracker.Valid() && fresh(tracker.Objects() - old(tracker.Objects()))
      ensures tracker.Epochs() == ScanAll(tracker.thresholds, old(tracker.Epochs()), vaults, now).0
      ensures sent == ScanAll(tracker.thresholds, old(tracker.Epochs()), vaults, now).1
    {
      ForgetGone(vaults);
      sent := RemindAll(vaults, now);
    }

    method ForgetGone(vaults: seq<KeeperVault>)
      requires tracker.Valid()
      modifies tracker
      ensures tracker.Valid() && tracker.Objects() <= old(tracker.Objects())
      ensures tracker.Epochs() == Kept(old(tracker.Epochs()), Live(vaults))
    {
      var live := Addressed(vaults);
      tracker.Forget(live);
    }

    /** The set of addresses just seen. */
    static method Addressed(vaults: seq<KeeperVault>) returns (live: set<Pubkey>)
      ensures live == Live(vaults)
    {
      live := {};
      for i := 0 to |vaults|
        invariant live == Live(vaults[..i])
      {
        assert vaults[..i + 1] == vaults[..i] + [vaults[i]];
        live := live + {vaults[i].address};
      }
      assert vaults[..|vaults|] == vaults;
    }

    method RemindAll(vaults: seq<KeeperVault>, now: Time) returns (sent: seq<Reminder>)
      requires tracker.Valid()
      modifies tracker, tracker.Objects()
      ensures tracker.Valid() && fresh(tracker.Objects() - old(tracker.Objects()))
      ensures tracker.Epochs() == DueAll(tracker.thresholds, old(tracker.Epochs()), vaults, now).0
      ensures sent == DueAll(tracker.thresholds, old(tracker.Epochs()), vaults, now).1
    {
      sent := [];
      for i := 0 to |vaults|
        invariant tracker.Valid() && fresh(tracker.Objects() - old(tracker.Objects()))
        invariant (tracker.Epochs(), sent) == DueAll(tracker.thresholds, old(tracker.Epochs()), vaults[..i], now)
      {
        assert vaults[..i + 1][..i] == vaults[..i];
        var reminder := tracker.Due(vaults[i], now);
        sent := sent + Sent(reminder);
      }
      assert vaults[..|vaults|] == vaults;
    }
  }
}
