/** When a vault is worth a reminder: the rule for one vault, on values. */
module Reminders {
  import opened Base
  import opened KeeperVaults
  import opened Thresholds

  datatype Reminder = Reminder(vault: Pubkey, owner: Pubkey, status: Status, deadline: Time, timeLeft: Duration)

  /** What has already been said about one deadline; 0 stands for "overdue". */
  datatype Epoch = Epoch(deadline: Time, fired: set<Duration>)

  const EXPIRED: Duration := 0

  /** The last listed threshold already crossed, or 0 when none is. */
  function Crossed(ths: seq<Duration>, left: Duration): Duration {
    if ths == [] then 0
    else if left <= ths[|ths| - 1] then ths[|ths| - 1]
    else Crossed(ths[..|ths| - 1], left)
  }

  function Reached(ths: seq<Duration>, left: Duration): set<Duration> {
    set t | t in ths && left <= t
  }

  function Remind(v: KeeperVault, status: Status, now: Time): Reminder {
    Reminder(v.address, v.owner, status, v.Deadline(), v.TimeLeft(now))
  }

  function EpochFor(st: Option<Epoch>, deadline: Time): Epoch {
    if st.Some? && st.value.deadline == deadline then st.value else Epoch(deadline, {})
  }

  /** One observation of one vault: its new state and at most one reminder. */
  function DueVault(ths: seq<Duration>, st: Option<Epoch>, v: KeeperVault, now: Time)
    : (Option<Epoch>, Option<Reminder>)
  {
    if v.isClaimed then (None, None)
    else
      var epoch, left := EpochFor(st, v.Deadline()), v.TimeLeft(now);
      if left <= 0 then
        if EXPIRED in epoch.fired then (Some(epoch), None)
        else (Some(epoch.(fired := epoch.fired + {EXPIRED})), Some(Remind(v, Expired, now)))
      else
        var crossed := Crossed(ths, left);
        if crossed == 0 || crossed in epoch.fired then (Some(epoch), None)
        else (Some(epoch.(fired := epoch.fired + Reached(ths, left))), Some(Remind(v, DueSoon, now)))
  }

  /** A live vault speaks from the state of its current deadline and keeps one. */
  lemma DueVaultFromEpoch(ths: seq<Duration>, st: Option<Epoch>, v: KeeperVault, now: Time)
    requires !v.isClaimed
    ensures DueVault(ths, Some(EpochFor(st, v.Deadline())), v, now) == DueVault(ths, st, v, now)
    ensures DueVault(ths, st, v, now).0.Some?
  {
  }

  /** In a descending list the last crossed threshold is the most urgent one. */
  lemma {:induction false} CrossedIsLeast(ths: seq<Duration>, left: Duration)
    requires Descending(ths) && Positive(ths)
    ensures Crossed(ths, left) == 0 <==> (forall t :: t in ths ==> t < left)
    ensures Crossed(ths, left) != 0 ==> Crossed(ths, left) in ths && left <= Crossed(ths, left)
    ensures forall t :: t in ths && left <= t ==> Crossed(ths, left) <= t
  {
    if ths != [] {
      var rest, last := ths[..|ths| - 1], ths[|ths| - 1];
      assert forall t :: t in ths <==> t in rest || t == last by { assert ths == rest + [last]; }
      assert last in ths;
      if left > last {
        CrossedIsLeast(rest, left);
      }
    }
  }

  /** A reminder is true: it names the vault it is about, its owner and deadline,
      and is overdue once the deadline is reached, due soon before, within the
      longest threshold, with the time that is left. */
  predicate TrueReminder(ths: seq<Duration>, r: Reminder, v: KeeperVault, now: Time) {
    && !v.isClaimed
    && r.vault == v.address && r.owner == v.owner && r.deadline == v.lastCheckIn + v.timeout
    && (FitsI64(r.deadline - now) ==> r.timeLeft == r.deadline - now)
    && (r.status.Expired? ==> r.deadline <= now)
    && (r.status.DueSoon? ==> ths != [] && now < r.deadline && Within(r.deadline - now, ths[0]))
    && (r.status.Expired? || r.status.DueSoon?)
  }

  /** Every reminder is true, and nobody is reminded early. */
  lemma RemindersAreTrue(ths: seq<Duration>, st: Option<Epoch>, v: KeeperVault, now: Time)
    requires Descending(ths) && Positive(ths) && DueVault(ths, st, v, now).1.Some?
    ensures TrueReminder(ths, DueVault(ths, st, v, now).1.value, v, now)
  {
    CrossedIsLeast(ths, v.TimeLeft(now));
  }

  // ---- the machine with one mark

  /** All a vault's reminders ever depend on: the deadline they belong to, the
      most urgent threshold spoken about, and whether "overdue" was said. */
  datatype Mark = Mark(deadline: Time, low: Option<Duration>, overdue: bool)

  function FreshMark(deadline: Time): Mark {
    Mark(deadline, None, false)
  }

  /** How urgent a time left is: nothing to say, overdue (0), or the least
      threshold reached. */
  function Level(ths: seq<Duration>, left: Duration): Option<Duration> {
    if left <= 0 then Some(EXPIRED)
    else if Crossed(ths, left) == 0 then None
    else Some(Crossed(ths, left))
  }

  /** The level spoken about is the least threshold the distance to the deadline
      does not exceed; none when it exceeds them all; overdue when there is none. */
  lemma LevelByTheClock(ths: seq<Duration>, v: KeeperVault, now: Time)
    requires Descending(ths) && Positive(ths)
    ensures var left, level := v.lastCheckIn + v.timeout - now, Level(ths, v.TimeLeft(now));
            && (level == Some(EXPIRED) <==> left <= 0)
            && (level.None? <==> left > 0 && forall t :: t in ths ==> !Within(left, t))
            && (level.Some? && level != Some(EXPIRED) ==>
                  && level.value in ths && Within(left, level.value)
                  && forall t :: t in ths && Within(left, t) ==> level.value <= t)
  {
    CrossedIsLeast(ths, v.TimeLeft(now));
  }

  /** The level is news to a vault whose mark is `m`. */
  predicate News(m: Mark, level: Duration) {
    if level == EXPIRED then !m.overdue else m.low.None? || level < m.low.value
  }

  function Lower(m: Mark, level: Duration): Mark {
    if level == EXPIRED then m.(overdue := true) else m.(low := Some(level))
  }

  predicate Speaks(ths: seq<Duration>, m: Mark, left: Duration) {
    Level(ths, left).Some? && News(m, Level(ths, left).value)
  }

  function NextMark(ths: seq<Duration>, m: Mark, left: Duration): Mark {
    if Speaks(ths, m, left) then Lower(m, Level(ths, left).value) else m
  }

  /** The fired set, less its overdue entry, is everything from the mark up. */
  predicate Refines(ths: seq<Duration>, e: Epoch, m: Mark) {
    && e.deadline == m.deadline
    && (EXPIRED in e.fired <==> m.overdue)
    && (m.low.Some? ==> m.low.value in ths)
    && (forall t :: t in e.fired && t != EXPIRED ==> t in ths)
    && (forall t :: t in ths ==> (t in e.fired <==> m.low.Some? && m.low.value <= t))
  }

  predicate RefinesState(ths: seq<Duration>, st: Option<Epoch>, m: Option<Mark>) {
    match (st, m)
    case (Some(e), Some(mark)) => Refines(ths, e, mark)
    case (None, None) => true
    case _ => false
  }

  function MarkFor(m: Option<Mark>, deadline: Time): Mark {
    if m.Some? && m.value.deadline == deadline then m.value else FreshMark(deadline)
  }

  /** What a run of the keeper sees of one vault. */
  datatype Sighting = Seen(v: KeeperVault, now: Time) | Gone

  function Observe(ths: seq<Duration>, st: Option<Epoch>, s: Sighting): (Option<Epoch>, Option<Reminder>) {
    match s
    case Gone => (None, None)
    case Seen(v, now) => DueVault(ths, st, v, now)
  }

  function ObserveMark(ths: seq<Duration>, m: Option<Mark>, s: Sighting): (Option<Mark>, bool) {
    match s
    case Gone => (None, false)
    case Seen(v, now) =>
      if v.isClaimed then (None, false)
      else
        var mark, left := MarkFor(m, v.Deadline()), v.TimeLeft(now);
        (Some(NextMark(ths, mark, left)), Speaks(ths, mark, left))
  }

  lemma ObserveRefines(ths: seq<Duration>, st: Option<Epoch>, m: Option<Mark>, s: Sighting)
    requires Descending(ths) && Positive(ths) && RefinesState(ths, st, m)
    ensures RefinesState(ths, Observe(ths, st, s).0, ObserveMark(ths, m, s).0)
    ensures Observe(ths, st, s).1.Some? <==> ObserveMark(ths, m, s).1
  {
    if s.Seen? && !s.v.isClaimed {
      var left := s.v.TimeLeft(s.now);
      CrossedIsLeast(ths, left);
      assert EXPIRED !in ths;
      assert Refines(ths, EpochFor(st, s.v.Deadline()), MarkFor(m, s.v.Deadline()));
    }
  }

  function Says(ths: seq<Duration>, st: Option<Epoch>, seen: seq<Sighting>): seq<bool>
    decreases |seen|
  {
    if seen == [] then []
    else
      var (st', reminder) := Observe(ths, st, seen[0]);
      [reminder.Some?] + Says(ths, st', seen[1..])
  }

  function SaysMark(ths: seq<Duration>, m: Option<Mark>, seen: seq<Sighting>): seq<bool>
    decreases |seen|
  {
    if seen == [] then []
    else
      var (m', speaks) := ObserveMark(ths, m, seen[0]);
      [speaks] + SaysMark(ths, m', seen[1..])
  }

  /** The fired map refines the mark: over every history of a vault — check-ins,
      claims, closures, any clock — both speak at the same moments. */
  lemma {:induction false} TrackerRefinesMark(ths: seq<Duration>, st: Option<Epoch>, m: Option<Mark>,
                                              seen: seq<Sighting>)
    requires Descending(ths) && Positive(ths) && RefinesState(ths, st, m)
    ensures Says(ths, st, seen) == SaysMark(ths, m, seen)
    decreases |seen|
  {
    if seen != [] {
      ObserveRefines(ths, st, m, seen[0]);
      TrackerRefinesMark(ths, Observe(ths, st, seen[0]).0, ObserveMark(ths, m, seen[0]).0, seen[1..]);
    }
  }
}
