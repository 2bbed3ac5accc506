/** Whole runs of scans: what the reminder bounds mean for the running keeper. */
module ScanRuns {
  import opened Base
  import opened KeeperVaults
  import opened Thresholds
  import opened Reminders
  import opened ReminderCounts
  import opened Tracking
  import opened Store
  import opened Watching

  /** A successful fetch and the clock it was judged by. */
  datatype Fetch = Fetch(vaults: seq<KeeperVault>, now: Time)

  predicate AllDistinct(fetches: seq<Fetch>) {
    forall i :: 0 <= i < |fetches| ==> DistinctAddresses(fetches[i].vaults)
  }

  function StateAfter(ths: seq<Duration>, fetches: seq<Fetch>): map<Pubkey, Epoch> {
    if fetches == [] then map[]
    else
      var last := fetches[|fetches| - 1];
      ScanAll(ths, StateAfter(ths, fetches[..|fetches| - 1]), last.vaults, last.now).0
  }

  /** The last vault listed under this address, if any. */
  function Find(vaults: seq<KeeperVault>, a: Pubkey): (r: Option<KeeperVault>)
    ensures r.Some? ==> r.value in vaults && r.value.address == a
    ensures r.None? ==> forall i :: 0 <= i < |vaults| ==> vaults[i].address != a
  {
    if vaults == [] then None
    else if vaults[|vaults| - 1].address == a then Some(vaults[|vaults| - 1])
    else Find(vaults[..|vaults| - 1], a)
  }

  /** One vault's part in a scan. */
  function SightingIn(f: Fetch, a: Pubkey): Sighting {
    match Find(f.vaults, a)
    case Some(v) => Seen(v, f.now)
    case None => Gone
  }

  function History(fetches: seq<Fetch>, a: Pubkey): seq<Sighting> {
    seq(|fetches|, i requires 0 <= i < |fetches| => SightingIn(fetches[i], a))
  }

  predicate Reminded(sent: seq<Reminder>, a: Pubkey) {
    exists i :: 0 <= i < |sent| && sent[i].vault == a
  }

  /** What each scan sends, one after another. */
  function SentAll(ths: seq<Duration>, st: map<Pubkey, Epoch>, fetches: seq<Fetch>): seq<seq<Reminder>>
    decreases |fetches|
  {
    if fetches == [] then []
    else
      var (st', sent) := ScanAll(ths, st, fetches[0].vaults, fetches[0].now);
      [sent] + SentAll(ths, st', fetches[1..])
  }

  function ScansReminding(sent: seq<seq<Reminder>>, a: Pubkey): nat {
    if sent == [] then 0 else (if Reminded(sent[0], a) then 1 else 0) + ScansReminding(sent[1..], a)
  }

  /** In how many of these scans a reminder about `a` is sent. */
  function TimesReminded(ths: seq<Duration>, st: map<Pubkey, Epoch>, fetches: seq<Fetch>, a: Pubkey): nat {
    ScansReminding(SentAll(ths, st, fetches), a)
  }

  lemma RemindedAppend(rest: seq<Reminder>, own: seq<Reminder>, a: Pubkey)
    ensures Reminded(rest + own, a) <==> Reminded(rest, a) || Reminded(own, a)
  {
    if i :| 0 <= i < |rest| && rest[i].vault == a {
      assert (rest + own)[i].vault == a;
    }
    if i :| 0 <= i < |own| && own[i].vault == a {
      assert (rest + own)[|rest| + i].vault == a;
    }
  }

  /** A vault that speaks under `a`, judged against the state before the scan. */
  predicate SpeaksAt(ths: seq<Duration>, st: map<Pubkey, Epoch>, v: KeeperVault, now: Time, a: Pubkey) {
    v.address == a && DueVault(ths, Lookup(st, a), v, now).1.Some?
  }

  lemma {:induction false} EachReminds(ths: seq<Duration>, st: map<Pubkey, Epoch>, vaults: seq<KeeperVault>,
                                       now: Time, a: Pubkey)
    ensures Reminded(Each(ths, st, vaults, now), a)
       <==> exists i :: 0 <= i < |vaults| && SpeaksAt(ths, st, vaults[i], now, a)
  {
    if vaults != [] {
      var n := |vaults| - 1;
      var own := Sent(DueVault(ths, Lookup(st, vaults[n].address), vaults[n], now).1);
      EachReminds(ths, st, vaults[..n], now, a);
      RemindedAppend(Each(ths, st, vaults[..n], now), own, a);
      assert Reminded(own, a) <==> SpeaksAt(ths, st, vaults[n], now, a) by {
        assert own != [] ==> own[0].vault == vaults[n].address;
      }
    }
  }

  /** One scan moves each vault's state, and reminds about it, exactly as its own
      sighting says. */
  lemma ScanObserves(ths: seq<Duration>, st: map<Pubkey, Epoch>, f: Fetch, a: Pubkey)
    requires DistinctAddresses(f.vaults)
    ensures Lookup(ScanAll(ths, st, f.vaults, f.now).0, a) == Observe(ths, Lookup(st, a), SightingIn(f, a)).0
    ensures Reminded(ScanAll(ths, st, f.vaults, f.now).1, a) <==> Observe(ths, Lookup(st, a), SightingIn(f, a)).1.Some?
  {
    ScanSends(ths, st, f.vaults, f.now);
    EachReminds(ths, st, f.vaults, f.now, a);
    match Find(f.vaults, a)
    case Some(v) =>
      var i :| 0 <= i < |f.vaults| && f.vaults[i] == v;
      ScanAt(ths, st, f.vaults, f.now, i);
    case None =>
      ScanFollows(ths, st, f.vaults, f.now, a);
  }

  /** Each vault's state depends only on its own history, whatever other vaults
      the scans held. */
  lemma {:induction false} StateIsOwnHistory(ths: seq<Duration>, fetches: seq<Fetch>, a: Pubkey)
    requires AllDistinct(fetches)
    ensures Lookup(StateAfter(ths, fetches), a) == After(ths, History(fetches, a))
    decreases |fetches|
  {
    if fetches != [] {
      var n := |fetches| - 1;
      StateIsOwnHistory(ths, fetches[..n], a);
      ScanObserves(ths, StateAfter(ths, fetches[..n]), fetches[n], a);
      assert History(fetches, a)[..n] == History(fetches[..n], a);
    }
  }

  lemma {:induction false} RemindedAsOwnHistorySays(ths: seq<Duration>, st: map<Pubkey, Epoch>,
                                                    fetches: seq<Fetch>, a: Pubkey)
    requires AllDistinct(fetches)
    ensures TimesReminded(ths, st, fetches, a) == Count(Says(ths, Lookup(st, a), History(fetches, a)))
    decreases |fetches|
  {
    if fetches != [] {
      ScanObserves(ths, st, fetches[0], a);
      RemindedAsOwnHistorySays(ths, ScanAll(ths, st, fetches[0].vaults, fetches[0].now).0, fetches[1..], a);
      assert History(fetches, a)[1..] == History(fetches[1..], a);
    }
  }

  /** Over any run of scans, while a vault's deadline stays put its owner hears
      at most once per threshold and once more when it is overdue. */
  lemma OwnersAreNotNagged(ths: seq<Duration>, before: seq<Fetch>, during: seq<Fetch>, a: Pubkey, deadline: Time)
    requires Descending(ths) && Positive(ths) && AllDistinct(before) && AllDistinct(during)
    requires OneEpoch(History(during, a), deadline)
    ensures TimesReminded(ths, StateAfter(ths, before), during, a) <= |Distinct(ths)| + 1
  {
    StateIsOwnHistory(ths, before, a);
    RemindedAsOwnHistorySays(ths, StateAfter(ths, before), during, a);
    AtMostOnePerThreshold(ths, History(before, a), History(during, a), deadline);
  }

  /** ... and with a clock that does not run backwards, exactly once for each
      urgency level the scans find the vault at. */
  lemma OwnersHearEachLevelOnce(ths: seq<Duration>, before: seq<Fetch>, during: seq<Fetch>, a: Pubkey, deadline: Time)
    requires Descending(ths) && Positive(ths) && AllDistinct(before) && AllDistinct(during)
    requires OneEpoch(History(during, a), deadline) && ClockForward(History(during, a))
    requires NewDeadline(ths, History(before, a), deadline)
    ensures TimesReminded(ths, StateAfter(ths, before), during, a) == |Visited(ths, History(during, a))|
  {
    StateIsOwnHistory(ths, before, a);
    RemindedAsOwnHistorySays(ths, StateAfter(ths, before), during, a);
    CountIsVisited(ths, History(before, a), History(during, a), deadline);
  }

  // ---- the polling loop

  /** One turn of the loop: what the source answered, and the clock. */
  datatype Poll = Poll(fetched: Result<seq<KeeperVault>, SourceError>, now: Time)

  /** The turns whose fetch succeeded. */
  function Successful(polls: seq<Poll>): seq<Fetch> {
    if polls == [] then []
    else (if polls[0].fetched.Ok? then [Fetch(polls[0].fetched.value, polls[0].now)] else []) + Successful(polls[1..])
  }

  /** Where the loop stands: what it has taken in, where that leaves the tracker,
      and what it has sent. */
  predicate Stands(ths: seq<Duration>, before: seq<Fetch>, done: seq<Fetch>, todo: seq<Poll>, all: seq<Fetch>,
                   st: map<Pubkey, Epoch>, sent: seq<seq<Reminder>>)
  {
    && done + Successful(todo) == all
    && st == StateAfter(ths, before + done)
    && sent + SentAll(ths, st, Successful(todo)) == SentAll(ths, StateAfter(ths, before), all)
  }

  lemma StandsAtFirst(ths: seq<Duration>, before: seq<Fetch>, polls: seq<Poll>)
    ensures Stands(ths, before, [], polls, Successful(polls), StateAfter(ths, before), [])
  {
    assert before + [] == before;
  }

  lemma StandsAtLast(ths: seq<Duration>, before: seq<Fetch>, done: seq<Fetch>, all: seq<Fetch>,
                     st: map<Pubkey, Epoch>, sent: seq<seq<Reminder>>)
    requires Stands(ths, before, done, [], all, st, sent)
    ensures done == all && st == StateAfter(ths, before + all)
    ensures sent == SentAll(ths, StateAfter(ths, before), all)
  {
    assert done == all;
  }

  lemma StandsAfterFailure(ths: seq<Duration>, before: seq<Fetch>, done: seq<Fetch>, todo: seq<Poll>, all: seq<Fetch>,
                           st: map<Pubkey, Epoch>, sent: seq<seq<Reminder>>)
    requires todo != [] && todo[0].fetched.Err? && Stands(ths, before, done, todo, all, st, sent)
    ensures Stands(ths, before, done, todo[1..], all, st, sent)
  {
    assert Successful(todo) == Successful(todo[1..]);
  }

  lemma StateAfterOneMore(ths: seq<Duration>, fetches: seq<Fetch>, f: Fetch)
    ensures StateAfter(ths, fetches + [f]) == ScanAll(ths, StateAfter(ths, fetches), f.vaults, f.now).0
  {
    assert (fetches + [f])[..|fetches|] == fetches;
  }

  lemma SentAllFirst(ths: seq<Duration>, st: map<Pubkey, Epoch>, f: Fetch, rest: seq<Fetch>)
    ensures SentAll(ths, st, [f] + rest)
         == [ScanAll(ths, st, f.vaults, f.now).1] + SentAll(ths, ScanAll(ths, st, f.vaults, f.now).0, rest)
  {
    assert ([f] + rest)[1..] == rest;
  }

  lemma Regroup<T>(a: seq<T>, x: T, b: seq<T>)
    ensures a + [x] + b == a + ([x] + b)
  {
  }

  lemma StandsAfterScan(ths: seq<Duration>, before: seq<Fetch>, done: seq<Fetch>, todo: seq<Poll>, all: seq<Fetch>,
                        st: map<Pubkey, Epoch>, sent: seq<seq<Reminder>>, f: Fetch)
    requires todo != [] && todo[0].fetched == Ok(f.vaults) && todo[0].now == f.now
    requires Stands(ths, before, done, todo, all, st, sent)
    ensures var (st', more) := ScanAll(ths, st, f.vaults, f.now);
            Stands(ths, before, done + [f], todo[1..], all, st', sent + [more])
  {
    var rest := Successful(todo[1..]);
    Regroup(done, f, rest);
    assert before + (done + [f]) == before + done + [f];
    StateAfterOneMore(ths, before + done, f);
    SentAllFirst(ths, st, f, rest);
    Regroup(sent, ScanAll(ths, st, f.vaults, f.now).1, SentAll(ths, ScanAll(ths, st, f.vaults, f.now).0, rest));
  }

  /** The two fields of the cache. */
  type Contents = (map<Pubkey, KeeperVault>, seq<Pubkey>)

  /** What the cache holds once these scans are done: the last of them, or what
      it held before. */
  predicate Cached(done: seq<Fetch>, was: Contents, became: Contents) {
    became == if done == [] then was else (ByAddress(done[|done| - 1].vaults), Addresses(done[|done| - 1].vaults))
  }

  /** One turn: scan, and book what the scan did. */
  method Turn(watcher: Watcher, poll: Poll, sent: seq<seq<Reminder>>,
              ghost before: seq<Fetch>, ghost done: seq<Fetch>, ghost todo: seq<Poll>, ghost all: seq<Fetch>,
              ghost was: Contents)
    returns (ghost done': seq<Fetch>, sent': seq<seq<Reminder>>)
    requires watcher.tracker.Valid() && todo != [] && todo[0] == poll
    requires Stands(watcher.tracker.thresholds, before, done, todo, all, watcher.tracker.Epochs(), sent)
    requires Cached(done, was, (watcher.store.vaults, watcher.store.order))
    modifies watcher.store, watcher.tracker, watcher.tracker.Objects()
    ensures watcher.tracker.Valid() && fresh(watcher.tracker.Objects() - old(watcher.tracker.Objects()))
    ensures Stands(watcher.tracker.thresholds, before, done', todo[1..], all, watcher.tracker.Epochs(), sent')
    ensures Cached(done', was, (watcher.store.vaults, watcher.store.order))
  {
    ghost var ths, st := watcher.tracker.thresholds, watcher.tracker.Epochs();
    var scanned := watcher.Scan(poll.fetched, poll.now);
    if scanned.Ok? {
      ghost var f := Fetch(poll.fetched.value, poll.now);
      StandsAfterScan(ths, before, done, todo, all, st, sent, f);
      done', sent' := done + [f], sent + [scanned.value];
    } else {
      StandsAfterFailure(ths, before, done, todo, all, st, sent);
      done', sent' := done, sent;
    }
  }

  /** The keeper scans turn after turn; a failed fetch is passed over and
      retried on the next. Its tracker, its cache and what it sends are those of
      the run of its successful scans, which the bounds above are about. */
  method PollAll(watcher: Watcher, polls: seq<Poll>, ghost before: seq<Fetch>) returns (sent: seq<seq<Reminder>>)
    requires watcher.tracker.Valid()
    requires watcher.tracker.Epochs() == StateAfter(watcher.tracker.thresholds, before)
    modifies watcher.store, watcher.tracker, watcher.tracker.Objects()
    ensures watcher.tracker.Valid()
    ensures watcher.tracker.Epochs() == StateAfter(watcher.tracker.thresholds, before + Successful(polls))
    ensures sent == SentAll(watcher.tracker.thresholds, old(watcher.tracker.Epochs()), Successful(polls))
    ensures Cached(Successful(polls), old((watcher.store.vaults, watcher.store.order)),
                   (watcher.store.vaults, watcher.store.order))
  {
    sent := [];
    ghost var ths, all, done := watcher.tracker.thresholds, Successful(polls), [];
    ghost var was := (watcher.store.vaults, watcher.store.order);
    StandsAtFirst(ths, before, polls);
    assert polls[0..] == polls;
    for i := 0 to |polls|
      invariant watcher.tracker.Valid()
      invariant fresh(watcher.tracker.Objects() - old(watcher.tracker.Objects()))
      invariant Stands(ths, before, done, polls[i..], all, watcher.tracker.Epochs(), sent)
      invariant Cached(done, was, (watcher.store.vaults, watcher.store.order))
    {
      assert polls[i..][0] == polls[i] && polls[i..][1..] == polls[i + 1..];
      done, sent := Turn(watcher, polls[i], sent, before, done, polls[i..], all, was);
    }
    StandsAtLast(ths, before, done, all, watcher.tracker.Epochs(), sent);
  }
}
