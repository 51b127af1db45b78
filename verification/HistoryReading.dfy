/** Reading the prompt history of source/src/history.ts: the log reader, the up-arrow list and the
    picker list. A read is one atomic step over the buffer and the file. */
module HistoryReading {
  import opened Options
  import opened HistoryBuffer

  const MAX_HISTORY_ITEMS: nat := 100

  function RecordOf(l: Line): Record
    requires !l.Malformed?
  {
    if l.Mine? then l.entry.record else l.record
  }

  /** A line that the skip-set removes from every read of the current session. */
  predicate Hidden(session: string, skipped: set<int>, l: Line)
    requires !l.Malformed?
  {
    RecordOf(l).session == Some(session) && RecordOf(l).timestamp in skipped
  }

  predicate Shown(session: string, skipped: set<int>, l: Line) {
    !l.Malformed? && !Hidden(session, skipped, l)
  }

  function Newest(pending: seq<LogEntry>): seq<Line> {
    if pending == [] then [] else [Mine(pending[|pending| - 1])] + Newest(pending[..|pending| - 1])
  }

  function NewestOnDisk(session: string, skipped: set<int>, disk: seq<Line>): seq<Line> {
    if disk == [] then []
    else
      var l := disk[|disk| - 1];
      (if Shown(session, skipped, l) then [l] else []) + NewestOnDisk(session, skipped, disk[..|disk| - 1])
  }

  /** What `makeLogEntryReader` yields: the buffer and then the file, each newest first. */
  function ReadLog(s: Store): seq<Line> {
    Newest(s.pending) + NewestOnDisk(s.session, s.skipped, s.disk)
  }

  lemma {:induction false} InNewest(pending: seq<LogEntry>, l: Line)
    ensures l in Newest(pending) <==> l.Mine? && l.entry in pending
  {
    if pending != [] {
      InNewest(pending[..|pending| - 1], l);
      assert pending == pending[..|pending| - 1] + [pending[|pending| - 1]];
    }
  }

  lemma {:induction false} InNewestOnDisk(session: string, skipped: set<int>, disk: seq<Line>, l: Line)
    ensures l in NewestOnDisk(session, skipped, disk) <==> l in disk && Shown(session, skipped, l)
  {
    if disk != [] {
      InNewestOnDisk(session, skipped, disk[..|disk| - 1], l);
      assert disk == disk[..|disk| - 1] + [disk[|disk| - 1]];
    }
  }

  lemma InReadLog(s: Store, l: Line)
    ensures l in ReadLog(s) <==>
      (l.Mine? && l.entry in s.pending) || (l in s.disk && Shown(s.session, s.skipped, l))
  {
    InNewest(s.pending, l);
    InNewestOnDisk(s.session, s.skipped, s.disk, l);
  }

  // ---------------------------------------------------------------- lists for one project

  /** Entries of a project; an entry whose project is not a string matches none. */
  function Matching(items: seq<Record>, project: string): seq<Record> {
    if items == [] then []
    else
      var r := items[|items| - 1];
      Matching(items[..|items| - 1], project) + (if r.project == Some(project) then [r] else [])
  }

  function OfSession(items: seq<Record>, session: string, mine: bool): seq<Record> {
    if items == [] then []
    else
      var r := items[|items| - 1];
      OfSession(items[..|items| - 1], session, mine)
      + (if (r.session == Some(session)) == mine then [r] else [])
  }

  function Take(items: seq<Record>, n: nat): seq<Record> {
    if |items| <= n then items else items[..n]
  }

  lemma MatchingNext(items: seq<Record>, project: string, i: nat)
    requires i < |items|
    ensures Matching(items[..i + 1], project)
         == Matching(items[..i], project) + if items[i].project == Some(project) then [items[i]] else []
  {
    assert items[..i + 1][..i] == items[..i];
  }

  lemma OfSessionNext(items: seq<Record>, session: string, r: Record)
    ensures OfSession(items + [r], session, true)
         == OfSession(items, session, true) + if r.session == Some(session) then [r] else []
    ensures OfSession(items + [r], session, false)
         == OfSession(items, session, false) + if r.session == Some(session) then [] else [r]
  {
    assert (items + [r])[..|items|] == items;
  }

  /** The entries gathered when a scan stops: all of them, or the first `n`. */
  lemma WindowIsTake(items: seq<Record>, project: string, i: nat, n: nat)
    requires i <= |items| && |Matching(items[..i], project)| <= n
    requires i == |items| || |Matching(items[..i], project)| == n
    ensures Matching(items[..i], project) == Take(Matching(items, project), n)
  {
    MatchingPrefix(items, project, i);
    assert items[..|items|] == items;
  }

  lemma {:induction false} MatchingPrefix(items: seq<Record>, project: string, i: nat)
    requires i <= |items|
    ensures Matching(items[..i], project) <= Matching(items, project)
  {
    if i < |items| {
      MatchingPrefix(items[..|items| - 1], project, i);
      assert items[..|items| - 1][..i] == items[..i];
    } else {
      assert items[..i] == items;
    }
  }

  lemma {:induction false} SessionSizes(items: seq<Record>, session: string)
    ensures |OfSession(items, session, true)| + |OfSession(items, session, false)| == |items|
    ensures multiset(OfSession(items, session, true) + OfSession(items, session, false)) == multiset(items)
  {
    if items != [] {
      SessionSizes(items[..|items| - 1], session);
      assert items == items[..|items| - 1] + [items[|items| - 1]];
    }
  }

  /** `getHistory`: the window of the first `MAX_HISTORY_ITEMS` entries of the project, the current
      session's entries before the others, both in the order they were read. */
  method GetHistory(items: seq<Record>, project: string, session: string) returns (out: seq<Record>)
    ensures var window := Take(Matching(items, project), MAX_HISTORY_ITEMS);
      && out == OfSession(window, session, true) + OfSession(window, session, false)
      && multiset(out) == multiset(window)
  {
    hide Matching, OfSession;
    out := [];
    var other: seq<Record> := [];
    var yielded := 0;
    var i := 0;
    ghost var window: seq<Record> := [];
    NothingYet(project, session);
    while i < |items|
      invariant 0 <= i <= |items|
      invariant window == Matching(items[..i], project) && |window| < MAX_HISTORY_ITEMS
      invariant out == OfSession(window, session, true) && other == OfSession(window, session, false)
      invariant yielded == |out| && yielded + |other| == |window|
    {
      var entry := items[i];
      MatchingNext(items, project, i);
      i := i + 1;
      if entry.project != Some(project) {
        continue;
      }
      OfSessionNext(window, session, entry);
      window := window + [entry];
      if entry.session == Some(session) {
        out := out + [entry];
        yielded := yielded + 1;
      } else {
        other := other + [entry];
      }
      if yielded + |other| >= MAX_HISTORY_ITEMS {
        break;
      }
    }
    WindowIsTake(items, project, i, MAX_HISTORY_ITEMS);
    SessionSizes(window, session);
    ghost var mine := out;
    var j := 0;
    while j < |other|
      invariant 0 <= j <= |other| && out == mine + other[..j] && yielded == |mine| + j
    {
      if yielded >= MAX_HISTORY_ITEMS {
        assert false;
      }
      out := out + [other[j]];
      yielded := yielded + 1;
      j := j + 1;
    }
    assert other[..j] == other;
  }

  lemma NothingYet(project: string, session: string)
    ensures Matching([], project) == []
    ensures OfSession([], session, true) == [] && OfSession([], session, false) == []
    ensures FirstOfEach([]) == [] && Displays([]) == {}
  {
  }

  /** Entries whose display text has not occurred before them: the newest entry of each text. */
  function FirstOfEach(items: seq<Record>): seq<Record> {
    if items == [] then []
    else
      var init := items[..|items| - 1];
      var r := items[|items| - 1];
      FirstOfEach(init) + (if r.display in Displays(init) then [] else [r])
  }

  function Displays(items: seq<Record>): set<string> {
    set r | r in items :: r.display
  }

  /** What makes that list the right one: no text twice, no text missing, and of every text the
      entry that was read first. */
  lemma {:induction false} FirstOfEachIs(items: seq<Record>)
    ensures var f := FirstOfEach(items);
      && (forall i, j | 0 <= i < j < |f| :: f[i].display != f[j].display)
      && Displays(f) == Displays(items)
      && (forall r | r in f :: exists k :: IsFirst(items, k, r))
  {
    if items != [] {
      var init := items[..|items| - 1];
      var r := items[|items| - 1];
      FirstOfEachIs(init);
      FirstOfEachNext(init, r);
      assert items == init + [r];
      var f, g := FirstOfEach(items), FirstOfEach(init);
      forall x | x in f ensures exists k :: IsFirst(items, k, x) {
        if x in g {
          var k :| IsFirst(init, k, x);
          assert IsFirst(items, k, x);
        } else {
          assert IsFirst(items, |init|, x);
        }
      }
      FirstOfEachDistinct(g, r);
    }
  }

  lemma FirstOfEachDistinct(g: seq<Record>, r: Record)
    requires forall i, j | 0 <= i < j < |g| :: g[i].display != g[j].display
    ensures Displays(g + [r]) == Displays(g) + {r.display}
    ensures r.display !in Displays(g) ==>
      forall i, j | 0 <= i < j < |g + [r]| :: (g + [r])[i].display != (g + [r])[j].display
  {
    assert forall i | 0 <= i < |g| :: g[i] in g;
  }

  ghost predicate IsFirst(items: seq<Record>, k: nat, r: Record) {
    k < |items| && items[k] == r && forall j | 0 <= j < k :: items[j].display != r.display
  }

  /** The kept entries are in the order in which they were read. */
  lemma {:induction false} FirstOfEachInOrder(items: seq<Record>, i: nat, j: nat, k: nat, l: nat)
    requires i < j < |FirstOfEach(items)|
    requires IsFirst(items, k, FirstOfEach(items)[i]) && IsFirst(items, l, FirstOfEach(items)[j])
    ensures k < l
  {
    var n, init := |items| - 1, items[..|items| - 1];
    var f, g := FirstOfEach(items), FirstOfEach(init);
    FirstOfEachIs(init);
    assert f[i] == g[i] && g[i] in g;
    var a: nat :| IsFirst(init, a, g[i]);
    assert IsFirst(items, a, f[i]) && a == k;
    if j < |g| {
      assert g[j] in g;
      var b: nat :| IsFirst(init, b, g[j]);
      assert IsFirst(items, b, f[j]) && b == l;
      FirstOfEachInOrder(init, i, j, k, l);
    } else {
      assert f[j] == items[n] && items == init + [items[n]];
      FirstOfEachNew(init, items[n]);
    }
  }

  lemma FirstOfEachNew(items: seq<Record>, r: Record)
    requires |FirstOfEach(items + [r])| > |FirstOfEach(items)|
    ensures forall k | 0 <= k < |items| :: items[k].display != r.display
  {
    assert (items + [r])[..|items|] == items;
    FirstOfEachIs(items);
    forall k | 0 <= k < |items| ensures items[k].display != r.display {
      assert items[k] in items && items[k].display in Displays(items);
    }
  }

  lemma {:induction false} FirstOfEachPrefix(items: seq<Record>, i: nat)
    requires i <= |items|
    ensures FirstOfEach(items[..i]) <= FirstOfEach(items)
  {
    if i < |items| {
      FirstOfEachPrefix(items[..|items| - 1], i);
      assert items[..|items| - 1][..i] == items[..i];
    } else {
      assert items[..i] == items;
    }
  }

  /** `getTimestampedHistory`: of each of the first `MAX_HISTORY_ITEMS` distinct texts the newest entry. */
  method GetTimestampedHistory(items: seq<Record>, project: string) returns (out: seq<Record>)
    ensures out == Take(FirstOfEach(Matching(items, project)), MAX_HISTORY_ITEMS)
  {
    hide Matching, FirstOfEach, Displays;
    out := [];
    var seen: set<string> := {};
    var i := 0;
    ghost var window: seq<Record> := [];
    NothingYet(project, "");
    while i < |items|
      invariant 0 <= i <= |items|
      invariant window == Matching(items[..i], project)
      invariant seen == Displays(window)
      invariant out == FirstOfEach(window) && |out| == |seen| < MAX_HISTORY_ITEMS
    {
      var entry := items[i];
      MatchingNext(items, project, i);
      i := i + 1;
      if entry.project != Some(project) {
        continue;
      }
      FirstOfEachNext(window, entry);
      window := window + [entry];
      if entry.display in seen {
        continue;
      }
      seen := seen + {entry.display};
      out := out + [entry];
      if |seen| >= MAX_HISTORY_ITEMS {
        FirstOfEachStops(items, project, i);
        return;
      }
    }
    assert items[..|items|] == items;
  }

  lemma FirstOfEachNext(items: seq<Record>, r: Record)
    ensures Displays(items + [r]) == Displays(items) + {r.display}
    ensures FirstOfEach(items + [r]) == FirstOfEach(items) + if r.display in Displays(items) then [] else [r]
  {
    assert (items + [r])[..|items|] == items;
  }

  lemma FirstOfEachStops(items: seq<Record>, project: string, i: nat)
    requires i <= |items|
    ensures FirstOfEach(Matching(items[..i], project)) <= FirstOfEach(Matching(items, project))
  {
    var whole := Matching(items, project);
    MatchingPrefix(items, project, i);
    assert whole[..|Matching(items[..i], project)|] == Matching(items[..i], project);
    FirstOfEachPrefix(whole, |Matching(items[..i], project)|);
  }
}
