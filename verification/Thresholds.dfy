/** Reminder thresholds: read from the environment, kept in descending order. */
module Thresholds {
  import opened Base
  import opened KeeperVaults

  predicate Descending(s: seq<Duration>) {
    forall i, j :: 0 <= i < j < |s| ==> s[i] >= s[j]
  }

  predicate Positive(s: seq<Duration>) {
    forall i :: 0 <= i < |s| ==> s[i] > 0
  }

  function Insert(x: Duration, s: seq<Duration>): seq<Duration> {
    if s == [] || x >= s[0] then [x] + s else [s[0]] + Insert(x, s[1..])
  }

  /** What `sort.Slice` leaves behind with `>` as its order. */
  function SortDescending(s: seq<Duration>): seq<Duration> {
    if s == [] then [] else Insert(s[0], SortDescending(s[1..]))
  }

  lemma {:induction false} InsertKeeps(x: Duration, s: seq<Duration>)
    ensures multiset(Insert(x, s)) == multiset(s) + multiset{x}
  {
    if s != [] && x < s[0] {
      InsertKeeps(x, s[1..]);
      assert s == [s[0]] + s[1..];
    }
  }

  lemma {:induction false} InsertSorted(x: Duration, s: seq<Duration>)
    requires Descending(s)
    ensures Descending(Insert(x, s))
    ensures Insert(x, s)[0] == if s == [] || x >= s[0] then x else s[0]
  {
    if s != [] && x < s[0] {
      InsertSorted(x, s[1..]);
      assert Insert(x, s)[1..] == Insert(x, s[1..]);
      DescendingFrom(Insert(x, s));
    }
  }

  lemma DescendingFrom(s: seq<Duration>)
    requires s != [] && Descending(s[1..]) && (|s| > 1 ==> s[0] >= s[1])
    ensures Descending(s)
  {
    forall i, j | 0 <= i < j < |s| ensures s[i] >= s[j] {
      assert s[j] == s[1..][j - 1] && s[1] == s[1..][0];
      if i > 0 {
        assert s[i] == s[1..][i - 1];
      }
    }
  }

  lemma {:induction false} SortedIsPermutation(s: seq<Duration>)
    ensures multiset(SortDescending(s)) == multiset(s) && Descending(SortDescending(s))
  {
    if s != [] {
      SortedIsPermutation(s[1..]);
      InsertKeeps(s[0], SortDescending(s[1..]));
      InsertSorted(s[0], SortDescending(s[1..]));
      assert s == [s[0]] + s[1..];
    }
  }

  lemma HeadIsGreatest(s: seq<Duration>, x: Duration)
    requires Descending(s) && x in s
    ensures x <= s[0]
  {
  }

  lemma SameMembers(s: seq<Duration>, r: seq<Duration>, x: Duration)
    requires multiset(s) == multiset(r) && x in s
    ensures x in r
  {
    assert x in multiset(r);
  }

  lemma SameTails(s: seq<Duration>, r: seq<Duration>)
    requires s != [] && r != [] && s[0] == r[0] && multiset(s) == multiset(r)
    ensures multiset(s[1..]) == multiset(r[1..])
  {
    assert s == [s[0]] + s[1..];
    assert r == [s[0]] + r[1..];
    assert multiset(s) - multiset{s[0]} == multiset(s[1..]);
    assert multiset(r) - multiset{s[0]} == multiset(r[1..]);
  }

  /** Whatever algorithm the library sorts with, the outcome is this one. */
  lemma {:induction false} SortedIsUnique(s: seq<Duration>, r: seq<Duration>)
    requires multiset(s) == multiset(r) && Descending(s) && Descending(r)
    ensures s == r
  {
    assert |multiset(r)| == |r| && |multiset(s)| == |s|;
    if s != [] {
      SameMembers(s, r, s[0]);
      SameMembers(r, s, r[0]);
      HeadIsGreatest(r, s[0]);
      HeadIsGreatest(s, r[0]);
      SameTails(s, r);
      SortedIsUnique(s[1..], r[1..]);
    }
  }

  function PositiveOnly(s: seq<Duration>): (r: seq<Duration>)
    ensures Positive(r)
    ensures Positive(s) ==> r == s
  {
    if s == [] then []
    else PositiveOnly(s[..|s| - 1]) + (if s[|s| - 1] > 0 then [s[|s| - 1]] else [])
  }

  /** Exactly the positive ones are kept, each as often as it is listed. */
  lemma {:induction false} PositiveOnlyExactly(s: seq<Duration>, d: Duration)
    ensures multiset(PositiveOnly(s))[d] == if d > 0 then multiset(s)[d] else 0
  {
    if s != [] {
      var rest, last := s[..|s| - 1], s[|s| - 1];
      PositiveOnlyExactly(rest, d);
      assert multiset(s) == multiset(rest) + multiset{last} by { assert s == rest + [last]; }
      assert multiset(PositiveOnly(s))
          == multiset(PositiveOnly(rest)) + (if last > 0 then multiset{last} else multiset{});
    }
  }

  lemma SortKeepsPositive(s: seq<Duration>)
    requires Positive(s)
    ensures Positive(SortDescending(s)) && |SortDescending(s)| == |s|
  {
    SortedIsPermutation(s);
    forall i | 0 <= i < |SortDescending(s)| ensures SortDescending(s)[i] > 0 {
      assert SortDescending(s)[i] in multiset(SortDescending(s));
      assert SortDescending(s)[i] in s;
    }
    assert |multiset(s)| == |multiset(SortDescending(s))|;
  }

  // ---- configuration

  /** One comma-separated part of the setting, after trimming and parsing. */
  datatype Part = Blank | Unparsable | Parsed(d: Duration)

  datatype ConfigError = BadPart | NotPositive | NoDurations

  const HOUR: Duration := 3_600_000_000_000

  /** 14 days, 7 days, 1 day, 1 hour. */
  const DEFAULT_THRESHOLDS: seq<Duration> :=
    [14 * 24 * 3600 * SECOND, 7 * 24 * 3600 * SECOND, 24 * 3600 * SECOND, 3600 * SECOND]

  function Durations(parts: seq<Part>): seq<Duration> {
    if parts == [] then []
    else
      var last := parts[|parts| - 1];
      Durations(parts[..|parts| - 1]) + (if last.Parsed? then [last.d] else [])
  }

  /** Every parsed part is kept, as often as it is listed, and nothing else. */
  lemma {:induction false} DurationsExactly(parts: seq<Part>, d: Duration)
    ensures multiset(Durations(parts))[d] == multiset(parts)[Parsed(d)]
  {
    if parts != [] {
      DurationsExactly(parts[..|parts| - 1], d);
      assert parts == parts[..|parts| - 1] + [parts[|parts| - 1]];
    }
  }

  lemma LoadedExactly(parts: seq<Part>)
    ensures forall d: Duration :: multiset(SortDescending(Durations(parts)))[d] == multiset(parts)[Parsed(d)]
  {
    SortedIsPermutation(Durations(parts));
    forall d: Duration ensures multiset(Durations(parts))[d] == multiset(parts)[Parsed(d)] {
      DurationsExactly(parts, d);
    }
  }

  predicate Clean(parts: seq<Part>) {
    forall i :: 0 <= i < |parts| ==> parts[i].Blank? || (parts[i].Parsed? && parts[i].d > 0)
  }

  /** What a part is turned away for. */
  function Problem(part: Part): Option<ConfigError> {
    match part
    case Blank => None
    case Unparsable => Some(BadPart)
    case Parsed(d) => if d <= 0 then Some(NotPositive) else None
  }

  /** The configured thresholds, or the defaults when nothing is set. The error
      is that of the first bad part, or that there was nothing in any of them. */
  method Load(raw: Option<seq<Part>>) returns (r: Result<seq<Duration>, ConfigError>)
    ensures raw.None? ==> r == Ok([336 * HOUR, 168 * HOUR, 24 * HOUR, HOUR])
    ensures raw.Some? ==> (r.Ok? <==> Clean(raw.value) && Durations(raw.value) != [])
    ensures raw.Some? && r.Err? ==>
              var parts := raw.value;
              if r.error.NoDurations? then Clean(parts) && Durations(parts) == []
              else exists i :: 0 <= i < |parts| && Clean(parts[..i]) && Problem(parts[i]) == Some(r.error)
    ensures raw.Some? && r.Ok? ==>
              forall d: Duration :: multiset(r.value)[d] == multiset(raw.value)[Parsed(d)]
    ensures raw.Some? && r.Ok? ==> r.value == SortDescending(Durations(raw.value))
    ensures r.Ok? ==> r.value != [] && Positive(r.value) && Descending(r.value)
  {
    if raw.None? {
      return Ok(DEFAULT_THRESHOLDS);
    }
    var parts := raw.value;
    var out: seq<Duration> := [];
    for i := 0 to |parts|
      invariant Clean(parts[..i]) && Positive(out)
      invariant out == Durations(parts[..i])
    {
      assert parts[..i + 1][..i] == parts[..i];
      match parts[i] {
        case Blank =>
        case Unparsable => return Err(BadPart);
        case Parsed(d) =>
          if d <= 0 {
            return Err(NotPositive);
          }
          out := out + [d];
      }
    }
    assert parts[..|parts|] == parts;
    if out == [] {
      return Err(NoDurations);
    }
    SortKeepsPositive(out);
    SortedIsPermutation(out);
    LoadedExactly(parts);
    return Ok(SortDescending(out));
  }
}
