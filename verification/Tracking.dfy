/** The reminder tracker as it runs: a map of mutable per-vault states. */
module Tracking {
  import opened Base
  import opened KeeperVaults
  import opened Thresholds
  import opened Reminders

  function FiredIn(fired: map<Duration, bool>): set<Duration> {
    set d | d in fired && fired[d]
  }

  /** The last threshold in the list that has been crossed. */
  method MostUrgent(thresholds: seq<Duration>, left: Duration) returns (crossed: Duration)
    ensures crossed == Crossed(thresholds, left)
  {
    crossed := 0;
    for i := 0 to |thresholds|
      invariant crossed == Crossed(thresholds[..i], left)
    {
      assert thresholds[..i + 1][..i] == thresholds[..i];
      if left <= thresholds[i] {
        crossed := thresholds[i];
      }
    }
    assert thresholds[..|thresholds|] == thresholds;
  }

  class VaultState {
    var deadline: Time
    var fired: map<Duration, bool>

    constructor (deadline: Time)
      ensures this.deadline == deadline && fired == map[]
    {
      this.deadline, fired := deadline, map[];
    }

    function Epoch(): Epoch
      reads this
    {
      Reminders.Epoch(deadline, FiredIn(fired))
    }

    predicate HasFired(d: Duration)
      reads this
      ensures HasFired(d) <==> d in Epoch().fired
    {
      d in fired && fired[d]
    }

    method Fire(d: Duration)
      modifies this`fired
      ensures Epoch() == old(Epoch()).(fired := old(Epoch()).fired + {d})
    {
      fired := fired[d := true];
      assert FiredIn(fired) == old(FiredIn(fired)) + {d};
    }

    /** Marks every threshold already crossed. */
    method FireReached(ths: seq<Duration>, left: Duration)
      modifies this`fired
      ensures Epoch() == old(Epoch()).(fired := old(Epoch()).fired + Reached(ths, left))
    {
      for i := 0 to |ths|
        invariant Epoch() == old(Epoch()).(fired := old(Epoch()).fired + Reached(ths[..i], left))
      {
        assert ths[..i + 1] == ths[..i] + [ths[i]];
        if left <= ths[i] {
          Fire(ths[i]);
        }
      }
      assert ths[..|ths|] == ths;
    }

    /** The reminder due for the vault this state belongs to, remembered here. */
    method Speak(ths: seq<Duration>, v: KeeperVault, now: Time) returns (r: Option<Reminder>)
      requires !v.isClaimed && deadline == v.Deadline()
      modifies this`fired
      ensures (Some(Epoch()), r) == DueVault(ths, Some(old(Epoch())), v, now)
    {
      var timeLeft := v.TimeLeft(now);
      if timeLeft <= 0 {
        if HasFired(EXPIRED) {
          return None;
        }
        Fire(EXPIRED);
        return Some(Remind(v, Expired, now));
      }
      var crossed := MostUrgent(ths, timeLeft);
      if crossed == 0 || HasFired(crossed) {
        return None;
      }
      FireReached(ths, timeLeft);
      return Some(Remind(v, DueSoon, now));
    }
  }

  function Lookup<K, V>(m: map<K, V>, k: K): Option<V> {
    if k in m then Some(m[k]) else None
  }

  function Put<K, V>(m: map<K, V>, k: K, v: Option<V>): map<K, V> {
    if v.Some? then m[k := v.value] else m - {k}
  }

  function Kept(st: map<Pubkey, Epoch>, live: set<Pubkey>): map<Pubkey, Epoch> {
    map k | k in st && k in live :: st[k]
  }

  class Tracker {
    const thresholds: seq<Duration>
    var state: map<Pubkey, VaultState>

    function Objects(): set<VaultState>
      reads this
    {
      set k | k in state :: state[k]
    }

    /** No two vaults share a state object. */
    ghost predicate Valid()
      reads this
    {
      && Descending(thresholds) && Positive(thresholds)
      && forall j, k :: j in state && k in state && state[j] == state[k] ==> j == k
    }

    /** Per vault: which deadline, and what was said about it. */
    ghost function Epochs(): map<Pubkey, Epoch>
      reads this, Objects()
    {
      map k | k in state :: state[k].Epoch()
    }

    /** Non-positive thresholds are dropped, the rest sorted. */
    constructor (thresholds: seq<Duration>)
      ensures Valid() && Epochs() == map[] && Objects() == {}
      ensures this.thresholds == SortDescending(PositiveOnly(thresholds))
    {
      var kept: seq<Duration> := [];
      for i := 0 to |thresholds|
        invariant kept == PositiveOnly(thresholds[..i])
      {
        assert thresholds[..i + 1][..i] == thresholds[..i];
        if thresholds[i] > 0 {
          kept := kept + [thresholds[i]];
        }
      }
      assert thresholds[..|thresholds|] == thresholds;
      SortKeepsPositive(kept);
      SortedIsPermutation(kept);
      this.thresholds := SortDescending(kept);
      state := map[];
    }

    /** A blank state for this vault in place of whatever was stored. */
    method StartOver(address: Pubkey, deadline: Time)
      requires Valid()
      modifies this
      ensures Valid() && address in state && fresh(state[address])
      ensures state == old(state)[address := state[address]]
      ensures state[address].Epoch() == Reminders.Epoch(deadline, {})
    {
      var blank := new VaultState(deadline);
      state := state[address := blank];
    }

    /** The state to work on: the stored one, or a blank one if the vault is new
        or its deadline has moved. */
    method EntryFor(address: Pubkey, deadline: Time) returns (entry: VaultState)
      requires Valid()
      modifies this
      ensures Valid() && fresh(Objects() - old(Objects()))
      ensures address in state && state[address] == entry
      ensures entry.Epoch() == EpochFor(Lookup(old(Epochs()), address), deadline)
      ensures Epochs() == old(Epochs())[address := EpochFor(Lookup(old(Epochs()), address), deadline)]
    {
      if address !in state || state[address].deadline != deadline {
        StartOver(address, deadline);
      }
      entry := state[address];
    }

    /** Speaks from this vault's entry; the other entries are other objects. */
    method SpeakFrom(entry: VaultState, v: KeeperVault, now: Time) returns (r: Option<Reminder>)
      requires Valid() && !v.isClaimed && entry.deadline == v.Deadline()
      requires v.address in state && state[v.address] == entry
      modifies entry
      ensures Valid() && (Some(entry.Epoch()), r) == DueVault(thresholds, Some(old(entry.Epoch())), v, now)
      ensures Epochs() == old(Epochs())[v.address := entry.Epoch()]
    {
      r := entry.Speak(thresholds, v, now);
    }

    /** For a vault nobody has claimed from: finds its state and speaks. */
    method DueLive(v: KeeperVault, now: Time) returns (r: Option<Reminder>)
      requires Valid() && !v.isClaimed
      modifies this, Objects()
      ensures Valid() && fresh(Objects() - old(Objects()))
      ensures var (epoch, reminder) := DueVault(thresholds, Lookup(old(Epochs()), v.address), v, now);
              r == reminder && epoch.Some? && Epochs() == old(Epochs())[v.address := epoch.value]
    {
      var entry := EntryFor(v.address, v.Deadline());
      r := SpeakFrom(entry, v, now);
      DueVaultFromEpoch(thresholds, Lookup(old(Epochs()), v.address), v, now);
    }

    /** The reminder this vault needs right now, if any, is the one the rule for
        a single vault gives; no other vault's state moves. */
    method Due(v: KeeperVault, now: Time) returns (r: Option<Reminder>)
      requires Valid()
      modifies this, Objects()
      ensures Valid() && fresh(Objects() - old(Objects()))
      ensures var (epoch, reminder) := DueVault(thresholds, Lookup(old(Epochs()), v.address), v, now);
              r == reminder && Epochs() == Put(old(Epochs()), v.address, epoch)
    {
      if v.isClaimed {
        state := state - {v.address};
        return None;
      }
      r := DueLive(v, now);
    }

    /** Drops every vault that is not live any more, and nothing else. */
    method Forget(live: set<Pubkey>)
      requires Valid()
      modifies this
      ensures Valid() && Objects() <= old(Objects())
      ensures Epochs() == Kept(old(Epochs()), live)
    {
      var pending := state.Keys;
      while pending != {}
        invariant pending <= old(state).Keys
        invariant state == map k | k in old(state) && (k in live || k in pending) :: old(state)[k]
        decreases pending
      {
        var address :| address in pending;
        pending := pending - {address};
        if address !in live {
          state := state - {address};
        }
      }
    }
  }
}
