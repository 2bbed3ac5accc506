/** How many reminders a run can send. */
module ReminderCounts {
  import opened Base
  import opened KeeperVaults
  import opened Thresholds
  import opened Reminders

  function Count(says: seq<bool>): nat {
    if says == [] then 0 else (if says[0] then 1 else 0) + Count(says[1..])
  }

  /** Sightings of a live, unclaimed vault whose deadline stays put. */
  predicate OneEpoch(seen: seq<Sighting>, deadline: Time) {
    forall i :: 0 <= i < |seen| ==> seen[i].Seen? && !seen[i].v.isClaimed && seen[i].v.Deadline() == deadline
  }

  /** Clock readings that never go back. */
  predicate ClockForward(seen: seq<Sighting>) {
    && (forall i :: 0 <= i < |seen| ==> seen[i].Seen?)
    && forall i, j :: 0 <= i < j < |seen| ==> seen[i].now <= seen[j].now
  }

  function Distinct(ths: seq<Duration>): set<Duration> {
    set t | t in ths
  }

  /** Levels a mark has not been told about yet. */
  function Untold(ths: seq<Duration>, m: Mark): set<Duration> {
    (set t | t in ths && News(m, t)) + (if m.overdue then {} else {EXPIRED})
  }

  lemma SpeakingUsesOneUp(ths: seq<Duration>, m: Mark, left: Duration)
    requires Descending(ths) && Positive(ths) && Speaks(ths, m, left)
    ensures |Untold(ths, NextMark(ths, m, left))| < |Untold(ths, m)|
  {
    CrossedIsLeast(ths, left);
    var level := Level(ths, left).value;
    var m' := NextMark(ths, m, left);
    assert EXPIRED !in ths;
    assert level in Untold(ths, m) && level !in Untold(ths, m');
    assert Untold(ths, m') <= Untold(ths, m) - {level};
    Smaller(Untold(ths, m'), Untold(ths, m) - {level});
  }

  lemma {:induction false} Smaller(a: set<Duration>, b: set<Duration>)
    requires a <= b
    ensures |a| <= |b|
  {
    if a != {} {
      var x :| x in a;
      Smaller(a - {x}, b - {x});
    }
  }

  lemma {:induction false} CountFromMark(ths: seq<Duration>, m: Mark, seen: seq<Sighting>)
    requires Descending(ths) && Positive(ths) && OneEpoch(seen, m.deadline)
    ensures Count(SaysMark(ths, Some(m), seen)) <= |Untold(ths, m)|
    decreases |seen|
  {
    if seen != [] {
      var left := seen[0].v.TimeLeft(seen[0].now);
      if Speaks(ths, m, left) {
        SpeakingUsesOneUp(ths, m, left);
      }
      CountFromMark(ths, NextMark(ths, m, left), seen[1..]);
    }
  }

  /** The keeper's state for a vault, and the mark it refines, after a history. */
  function After(ths: seq<Duration>, before: seq<Sighting>): Option<Epoch> {
    if before == [] then None else Observe(ths, After(ths, before[..|before| - 1]), before[|before| - 1]).0
  }

  function MarkAfter(ths: seq<Duration>, before: seq<Sighting>): Option<Mark> {
    if before == [] then None else ObserveMark(ths, MarkAfter(ths, before[..|before| - 1]), before[|before| - 1]).0
  }

  lemma {:induction false} AfterRefines(ths: seq<Duration>, before: seq<Sighting>)
    requires Descending(ths) && Positive(ths)
    ensures RefinesState(ths, After(ths, before), MarkAfter(ths, before))
    decreases |before|
  {
    if before != [] {
      var rest := before[..|before| - 1];
      AfterRefines(ths, rest);
      ObserveRefines(ths, After(ths, rest), MarkAfter(ths, rest), before[|before| - 1]);
    }
  }

  /** At most one reminder per distinct threshold and one more for "overdue",
      in any epoch, whatever the clock does and whatever came before. */
  lemma AtMostOnePerThreshold(ths: seq<Duration>, before: seq<Sighting>, seen: seq<Sighting>, deadline: Time)
    requires Descending(ths) && Positive(ths) && OneEpoch(seen, deadline)
    ensures Count(Says(ths, After(ths, before), seen)) <= |Distinct(ths)| + 1
  {
    AfterRefines(ths, before);
    TrackerRefinesMark(ths, After(ths, before), MarkAfter(ths, before), seen);
    if seen != [] {
      var mark := MarkFor(MarkAfter(ths, before), deadline);
      assert SaysMark(ths, MarkAfter(ths, before), seen) == SaysMark(ths, Some(mark), seen);
      CountFromMark(ths, mark, seen);
      Smaller(Untold(ths, mark), Distinct(ths) + {EXPIRED});
    }
  }

  /** The urgency levels a stretch of sightings visits. */
  function Visited(ths: seq<Duration>, seen: seq<Sighting>): set<Duration>
    requires forall i :: 0 <= i < |seen| ==> seen[i].Seen?
  {
    set i | 0 <= i < |seen| && Level(ths, seen[i].v.TimeLeft(seen[i].now)).Some?
      :: Level(ths, seen[i].v.TimeLeft(seen[i].now)).value
  }

  function Newly(m: Mark, levels: set<Duration>): set<Duration> {
    set l | l in levels && News(m, l)
  }

  lemma NewlyOneLess(m: Mark, level: Duration, levels: set<Duration>)
    requires 0 <= level && News(m, level)
    requires forall l :: l in levels ==> 0 <= l <= level
    ensures |Newly(m, levels + {level})| == |Newly(Lower(m, level), levels)| + 1
  {
    assert level !in Newly(Lower(m, level), levels);
    assert Newly(m, levels + {level}) == Newly(Lower(m, level), levels) + {level};
  }

  lemma LevelFalls(ths: seq<Duration>, left: Duration, later: Duration)
    requires Descending(ths) && Positive(ths) && later <= left && Level(ths, left).Some?
    ensures Level(ths, later).Some? && 0 <= Level(ths, later).value <= Level(ths, left).value
  {
    CrossedIsLeast(ths, left);
    CrossedIsLeast(ths, later);
  }

  lemma VisitedSplits(ths: seq<Duration>, seen: seq<Sighting>)
    requires seen != [] && forall i :: 0 <= i < |seen| ==> seen[i].Seen?
    ensures var level := Level(ths, seen[0].v.TimeLeft(seen[0].now));
            Visited(ths, seen) == Visited(ths, seen[1..]) + (if level.Some? then {level.value} else {})
  {
    forall l | l in Visited(ths, seen)
      ensures l in Visited(ths, seen[1..]) || Level(ths, seen[0].v.TimeLeft(seen[0].now)) == Some(l)
    {
      var i :| 0 <= i < |seen| && Level(ths, seen[i].v.TimeLeft(seen[i].now)) == Some(l);
      assert i > 0 ==> seen[1..][i - 1] == seen[i];
    }
    forall l | l in Visited(ths, seen[1..]) ensures l in Visited(ths, seen) {
      var i :| 0 <= i < |seen[1..]| && Level(ths, seen[1..][i].v.TimeLeft(seen[1..][i].now)) == Some(l);
      assert seen[i + 1] == seen[1..][i];
    }
  }

  lemma LaterIsNoMilder(ths: seq<Duration>, seen: seq<Sighting>, deadline: Time)
    requires Descending(ths) && Positive(ths)
    requires seen != [] && OneEpoch(seen, deadline) && ClockForward(seen)
    requires Level(ths, seen[0].v.TimeLeft(seen[0].now)).Some?
    ensures forall l :: l in Visited(ths, seen[1..]) ==> 0 <= l <= Level(ths, seen[0].v.TimeLeft(seen[0].now)).value
  {
    forall l | l in Visited(ths, seen[1..])
      ensures 0 <= l <= Level(ths, seen[0].v.TimeLeft(seen[0].now)).value
    {
      var i :| 0 <= i < |seen[1..]| && Level(ths, seen[1..][i].v.TimeLeft(seen[1..][i].now)) == Some(l);
      assert seen[1..][i] == seen[i + 1];
      LevelFalls(ths, seen[0].v.TimeLeft(seen[0].now), seen[i + 1].v.TimeLeft(seen[i + 1].now));
    }
  }

  /** One sighting, at a level no milder than those after it: it adds itself to
      the levels still to be told exactly when it is spoken about. */
  lemma OneSighting(ths: seq<Duration>, m: Mark, left: Duration, later: set<Duration>)
    requires Descending(ths) && Positive(ths)
    requires Level(ths, left).Some? ==> forall l :: l in later ==> 0 <= l <= Level(ths, left).value
    ensures |Newly(m, later + (if Level(ths, left).Some? then {Level(ths, left).value} else {}))|
         == |Newly(NextMark(ths, m, left), later)| + (if Speaks(ths, m, left) then 1 else 0)
  {
    if Speaks(ths, m, left) {
      LevelFalls(ths, left, left);
      NewlyOneLess(m, Level(ths, left).value, later);
    } else if Level(ths, left).Some? {
      assert Newly(m, later + {Level(ths, left).value}) == Newly(m, later);
    } else {
      assert later + {} == later;
    }
  }

  lemma CountFirst(ths: seq<Duration>, m: Mark, seen: seq<Sighting>)
    requires seen != [] && OneEpoch(seen, m.deadline)
    ensures Count(SaysMark(ths, Some(m), seen))
         == (if Speaks(ths, m, seen[0].v.TimeLeft(seen[0].now)) then 1 else 0)
            + Count(SaysMark(ths, Some(NextMark(ths, m, seen[0].v.TimeLeft(seen[0].now))), seen[1..]))
  {
  }

  /** With a clock that does not run backwards, each newly visited level is
      spoken about exactly once. */
  lemma {:induction false} CountIsNewlyVisited(ths: seq<Duration>, m: Mark, seen: seq<Sighting>)
    requires Descending(ths) && Positive(ths)
    requires OneEpoch(seen, m.deadline) && ClockForward(seen)
    ensures Count(SaysMark(ths, Some(m), seen)) == |Newly(m, Visited(ths, seen))|
    decreases |seen|
  {
    if seen == [] {
      assert Visited(ths, seen) == {};
    } else {
      var left := seen[0].v.TimeLeft(seen[0].now);
      CountFirst(ths, m, seen);
      CountIsNewlyVisited(ths, NextMark(ths, m, left), seen[1..]);
      VisitedSplits(ths, seen);
      if Level(ths, left).Some? {
        LaterIsNoMilder(ths, seen, m.deadline);
      }
      OneSighting(ths, m, left, Visited(ths, seen[1..]));
    }
  }

  /** The keeper has said nothing about this deadline yet. */
  predicate NewDeadline(ths: seq<Duration>, before: seq<Sighting>, deadline: Time) {
    var st := After(ths, before);
    st.None? || st.value.deadline != deadline
  }

  /** From the first sighting of a deadline, the reminders number exactly the
      levels visited. */
  lemma CountIsVisited(ths: seq<Duration>, before: seq<Sighting>, seen: seq<Sighting>, deadline: Time)
    requires Descending(ths) && Positive(ths) && NewDeadline(ths, before, deadline)
    requires OneEpoch(seen, deadline) && ClockForward(seen)
    ensures Count(Says(ths, After(ths, before), seen)) == |Visited(ths, seen)|
  {
    AfterRefines(ths, before);
    TrackerRefinesMark(ths, After(ths, before), MarkAfter(ths, before), seen);
    if seen != [] {
      var mark := FreshMark(deadline);
      assert SaysMark(ths, MarkAfter(ths, before), seen) == SaysMark(ths, Some(mark), seen);
      CountIsNewlyVisited(ths, mark, seen);
      assert Newly(mark, Visited(ths, seen)) == Visited(ths, seen);
    } else {
      assert Visited(ths, seen) == {};
    }
  }

  /** Polling at only some of the moments never sends more. */
  lemma PollingLessNeverSaysMore(ths: seq<Duration>, before: seq<Sighting>, seen: seq<Sighting>,
                                 fewer: seq<Sighting>, deadline: Time)
    requires Descending(ths) && Positive(ths) && NewDeadline(ths, before, deadline)
    requires OneEpoch(seen, deadline) && ClockForward(seen)
    requires ClockForward(fewer) && forall i :: 0 <= i < |fewer| ==> fewer[i] in seen
    ensures Count(Says(ths, After(ths, before), fewer)) <= Count(Says(ths, After(ths, before), seen))
  {
    CountIsVisited(ths, before, seen, deadline);
    CountIsVisited(ths, before, fewer, deadline);
    forall l | l in Visited(ths, fewer) ensures l in Visited(ths, seen) {
      var i :| 0 <= i < |fewer| && Level(ths, fewer[i].v.TimeLeft(fewer[i].now)) == Some(l);
      var j :| 0 <= j < |seen| && seen[j] == fewer[i];
    }
    Smaller(Visited(ths, fewer), Visited(ths, seen));
  }
}
