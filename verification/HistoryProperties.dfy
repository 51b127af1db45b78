/** What every interleaving of the prompt-history buffer guarantees to its users. */
module HistoryProperties {
  import opened Options
  import opened HistoryBuffer
  import opened HistoryReading

  // ---------------------------------------------------------------- conservation and order

  datatype Place = Pending | Batched | OnDisk | Undone | Cleared | Lost

  ghost predicate IsAt(s: Store, e: LogEntry, p: Place) {
    match p
    case Pending => e in s.pending
    case Batched => e in InFlight(s)
    case OnDisk => e in MineOf(s.disk)
    case Undone => e in s.undone
    case Cleared => e in s.cleared
    case Lost => e in s.lost
  }

  /** Every entry ever added is in exactly one place. */
  lemma ExactlyOnePlace(s: Store, e: LogEntry)
    requires Inv(s) && e in s.added
    ensures exists p :: IsAt(s, e, p) && forall q :: IsAt(s, e, q) ==> q == p
  {
    var d, b, f := MineOf(s.disk), InFlight(s), s.pending;
    assert Increasing(d + b + f);
    assert Placed(s.added, d + b + f, s.undone, s.cleared, s.lost);
    hide Inv, Placed, Increasing;
    OnePlaceInFlow(d, b, f, e);
    PlacedOnce(s.added, d + b + f, s.undone, s.cleared, s.lost, e);
    hide MineOf, InFlight;
    var p := if e in f then Pending else if e in b then Batched else if e in d then OnDisk
             else if e in s.undone then Undone else if e in s.cleared then Cleared else Lost;
    assert IsAt(s, e, p);
  }

  lemma OnePlaceInFlow(d: seq<LogEntry>, b: seq<LogEntry>, f: seq<LogEntry>, e: LogEntry)
    requires Increasing(d + b + f)
    ensures e in d + b + f <==> e in d || e in b || e in f
    ensures e in d ==> e !in b && e !in f
    ensures e in b ==> e !in f
  {
    IncreasingWithout(d, b, f);
  }

  lemma PlacedOnce(added: seq<LogEntry>, flow: seq<LogEntry>,
                   undone: set<LogEntry>, cleared: set<LogEntry>, lost: set<LogEntry>, e: LogEntry)
    requires Placed(added, flow, undone, cleared, lost) && e in added
    ensures e in flow || e in undone || e in cleared || e in lost
    ensures e in flow ==> e !in undone && e !in cleared && e !in lost
    ensures e in undone ==> e !in cleared && e !in lost
    ensures e in cleared ==> e !in lost
  {
  }

  /** No entry is written twice, and entries reach the file in the order they were added. */
  lemma DiskInOrder(s: Store)
    requires Inv(s)
    ensures var d := MineOf(s.disk);
      && (forall e | e in d :: e in s.added)
      && (forall i, j | 0 <= i < j < |d| :: d[i].id < d[j].id)
  {
    var d := MineOf(s.disk);
    assert forall i | 0 <= i < |d| :: Flow(s)[i] == d[i];
  }

  predicate Destroys(ev: Event) {
    ev.Undo? || ev.Clear? || (ev.Appended? && !ev.ok)
  }

  /** Whatever the interleaving, and however many lock or file failures occur: while nothing is
      undone or cleared and no append fails, file, batch and buffer together are what was added. */
  lemma {:induction false} NothingIsLost(s: Store, evs: seq<Event>, s': Store)
    requires Inv(s) && Flow(s) == s.added && Run(s, evs, s')
    requires forall ev | ev in evs :: !Destroys(ev)
    ensures Flow(s') == s'.added
    decreases |evs|
  {
    hide Apply, Enabled, Inv, Flow;
    if evs != [] {
      InvStep(s, evs[0]);
      NothingIsLostStep(s, evs[0]);
      NothingIsLost(Apply(s, evs[0]), evs[1..], s');
    }
  }

  lemma NothingIsLostStep(s: Store, ev: Event)
    requires Inv(s) && Flow(s) == s.added && Enabled(s, ev) && !Destroys(ev)
    ensures Flow(Apply(s, ev)) == Apply(s, ev).added
  {
    FlowAfter(s, ev);
    HistoryAfter(s, ev);
    hide Apply, Flow;
  }

  /** The same from the start of the process on. */
  lemma NothingIsLostFromStart(session: string, disk: seq<Line>, evs: seq<Event>, s: Store)
    requires (forall l | l in disk :: !l.Mine?) && Run(Fresh(session, disk), evs, s)
    requires forall ev | ev in evs :: !Destroys(ev)
    ensures MineOf(s.disk) + InFlight(s) + s.pending == s.added
    ensures Quiet(s) ==> (MineOf(s.disk) == s.added <==> !s.gaveUp)
  {
    hide Run;
    InvFresh(session, disk);
    InvRun(Fresh(session, disk), evs, s);
    MineOfOthers(disk);
    NothingIsLost(Fresh(session, disk), evs, s);
    if Quiet(s) {
      QuietMeansFlushed(s);
      assert s.pending == [] <==> MineOf(s.disk) + s.pending == MineOf(s.disk) by {
        assert |MineOf(s.disk) + s.pending| == |MineOf(s.disk)| + |s.pending|;
      }
    }
  }

  ghost predicate Quiet(s: Store) {
    forall t | 0 <= t < |s.tasks| :: s.tasks[t].pc == Done
  }

  /** When every call has ended, entries are left in the buffer exactly if they were given up. */
  lemma QuietMeansFlushed(s: Store)
    requires Inv(s) && Quiet(s)
    ensures s.pending != [] <==> s.gaveUp
    ensures s.lock == None && !s.isWriting && Flow(s) == MineOf(s.disk) + s.pending
  {
    hide FlowInv, UndoInv, MineOf;
  }

  /** At most one background flush is active at any time, and never after its fifth retry. */
  lemma OneBackgroundFlush(s: Store, t: nat, u: nat)
    requires Inv(s) && t < |s.tasks| && u < |s.tasks|
    requires Writing(s.tasks[t])
    ensures s.isWriting && s.tasks[t].kind.retries <= MAX_RETRIES
    ensures Writing(s.tasks[u]) ==> u == t
  {
    assert WellFormed(s.tasks[t]);
  }

  // ---------------------------------------------------------------- undo

  lemma {:induction false} MineOnDisk(disk: seq<Line>, e: LogEntry)
    ensures Mine(e) in disk <==> e in MineOf(disk)
  {
    if disk != [] {
      MineOnDisk(disk[..|disk| - 1], e);
      assert disk == disk[..|disk| - 1] + [disk[|disk| - 1]];
    }
  }

  /** Which lines of the file a read leaves out: those of the current session that share their
      timestamp with an entry undone after it had left the buffer. */
  lemma HiddenExactly(s: Store, l: Line)
    requires Inv(s) && l in s.disk && !l.Malformed?
    ensures Shown(s.session, s.skipped, l) <==>
      !(RecordOf(l).session == Some(s.session)
        && exists e :: e in s.raced && e.record.timestamp == RecordOf(l).timestamp)
  {
  }

  // ---------------------------------------------------------------- the order of a read

  /** The entries of this process come in the reverse order of their addition. */
  ghost predicate Descends(ls: seq<Line>) {
    forall i, j | 0 <= i < j < |ls| && ls[i].Mine? && ls[j].Mine? :: ls[i].entry.id > ls[j].entry.id
  }

  lemma DescendsCons(l: Line, ls: seq<Line>)
    requires Descends(ls) && (l.Mine? ==> forall k | k in ls && k.Mine? :: l.entry.id > k.entry.id)
    ensures Descends([l] + ls)
  {
    var all := [l] + ls;
    forall i, j | 0 <= i < j < |all| && all[i].Mine? && all[j].Mine? ensures all[i].entry.id > all[j].entry.id {
      if i == 0 {
        assert ls[j - 1] in ls;
      }
    }
  }

  lemma {:induction false} NewestDescends(pending: seq<LogEntry>)
    requires Increasing(pending)
    ensures Descends(Newest(pending))
  {
    if pending != [] {
      var init := pending[..|pending| - 1];
      NewestDescends(init);
      forall k | k in Newest(init) ensures k.Mine? && pending[|pending| - 1].id > k.entry.id {
        InNewest(init, k);
      }
      DescendsCons(Mine(pending[|pending| - 1]), Newest(init));
    }
  }

  lemma {:induction false} DiskDescends(session: string, skipped: set<int>, disk: seq<Line>)
    requires Increasing(MineOf(disk))
    ensures Descends(NewestOnDisk(session, skipped, disk))
  {
    if disk != [] {
      var init, l := disk[..|disk| - 1], disk[|disk| - 1];
      var mine := MineOf(init);
      assert forall i | 0 <= i < |mine| :: MineOf(disk)[i] == mine[i];
      DiskDescends(session, skipped, init);
      forall k | k in NewestOnDisk(session, skipped, init) && k.Mine? && l.Mine? ensures l.entry.id > k.entry.id {
        InNewestOnDisk(session, skipped, init, k);
        MineOnDisk(init, k.entry);
        assert MineOf(disk)[|mine|] == l.entry;
      }
      DescendsCons(l, NewestOnDisk(session, skipped, init));
    }
  }

  /** Main result: a read yields the entries of this process newest first, wherever they are. */
  lemma ReadNewestFirst(s: Store)
    requires Inv(s)
    ensures Descends(ReadLog(s))
  {
    var d, b, f := MineOf(s.disk), InFlight(s), s.pending;
    assert Increasing(d + b + f);
    IncreasingParts(d, b, f);
    NewestDescends(f);
    DiskDescends(s.session, s.skipped, s.disk);
    var early, late := NewestOnDisk(s.session, s.skipped, s.disk), Newest(f);
    hide Inv, MineOf, InFlight, NewestOnDisk, Newest, Increasing;
    forall k, l | k in early && k.Mine? && l in late ensures l.Mine? && l.entry.id > k.entry.id {
      InNewest(f, l);
      InNewestOnDisk(s.session, s.skipped, s.disk, k);
      MineOnDisk(s.disk, k.entry);
    }
  }

  lemma IncreasingParts(d: seq<LogEntry>, b: seq<LogEntry>, f: seq<LogEntry>)
    requires Increasing(d + b + f)
    ensures Increasing(d) && Increasing(f) && forall x, y | x in d && y in f :: x.id < y.id
  {
    var all := d + b + f;
    assert forall i | 0 <= i < |d| :: all[i] == d[i];
    assert forall j | 0 <= j < |f| :: all[|d| + |b| + j] == f[j];
  }

  ghost predicate DistinctTimestamps(added: seq<LogEntry>) {
    forall x, y | x in added && y in added && x.record.timestamp == y.record.timestamp
                  && x.record.session == y.record.session :: x == y
  }

  ghost predicate AllOfSession(added: set<LogEntry>, session: string) {
    forall x | x in added :: x.record.session == Some(session)
  }

  /** No other entry is hidden: with distinct timestamps, an entry of the current session that is in
      the buffer or on disk is read exactly when it is not one of the undone ones. */
  lemma OnlyUndoneHidden(s: Store, x: LogEntry)
    requires Inv(s) && DistinctTimestamps(s.added) && AllOfSession(s.raced, s.session)
    requires x in s.added && x.record.session == Some(s.session)
    ensures Mine(x) in ReadLog(s) <==> x in s.pending || (x in MineOf(s.disk) && x !in s.raced)
  {
    InReadLog(s, Mine(x));
    MineOnDisk(s.disk, x);
    if x in MineOf(s.disk) {
      HiddenExactly(s, Mine(x));
    }
  }

  /** What stays true of an entry once its undo has happened. */
  ghost predicate AfterUndo(s: Store, e: LogEntry) {
    && Inv(s)
    && e in s.added && e !in s.pending && s.lastAdded != Some(e)
    && e.record.session == Some(s.session)
  }

  lemma AfterUndoStep(s: Store, ev: Event, e: LogEntry)
    requires AfterUndo(s, e) && Enabled(s, ev) && !ev.SwitchSession?
    ensures AfterUndo(Apply(s, ev), e)
    ensures !ev.Clear? && e.record.timestamp in s.skipped ==> e.record.timestamp in Apply(s, ev).skipped
    ensures e in s.undone ==> e in Apply(s, ev).undone
    ensures ev.Clear? ==> e !in Apply(s, ev).raced
    ensures e !in s.raced ==> e !in Apply(s, ev).raced
  {
    InvStep(s, ev);
    PendingSubset(s, ev);
    UndoAfter(s, ev);
    HistoryAfter(s, ev);
    SessionAfter(s, ev);
    if ev.Add? {
      NewIsNew(s, Apply(s, ev).added[|s.added|], e);
    }
    RemoveLastKeeps(s, e);
    hide Inv, Apply, Enabled, RemoveLast;
  }

  lemma RemoveLastKeeps(s: Store, e: LogEntry)
    ensures var s' := RemoveLast(s);
      && s'.lastAdded == None && s.skipped <= s'.skipped && s.undone <= s'.undone
      && (s.lastAdded != Some(e) && e !in s.raced ==> e !in s'.raced)
  {
  }

  lemma NewIsNew(s: Store, n: LogEntry, e: LogEntry)
    requires Inv(s) && n.id == |s.added| && e in s.added
    ensures n != e
  {
  }

  lemma SessionAfter(s: Store, ev: Event)
    requires Enabled(s, ev) && !ev.SwitchSession?
    ensures Apply(s, ev).session == s.session
  {
  }

  lemma AfterUndoStart(s: Store, e: LogEntry)
    requires Inv(s) && s.lastAdded == Some(e) && e.record.session == Some(s.session)
    ensures AfterUndo(RemoveLast(s), e)
    ensures e in RemoveLast(s).undone || (e in RemoveLast(s).raced && e.record.timestamp in RemoveLast(s).skipped)
  {
    InvStep(s, Undo);
    assert Apply(s, Undo) == RemoveLast(s);
    var k := LastIndexOf(s.pending, e);
    if k.Some? {
      assert e in RemoveLast(s).undone;
      assert Placed(RemoveLast(s).added, Flow(RemoveLast(s)),
                    RemoveLast(s).undone, RemoveLast(s).cleared, RemoveLast(s).lost);
      assert forall x | x in RemoveLast(s).pending :: x in Flow(RemoveLast(s));
    }
  }

  /** Undo wins the race: until the session changes or the history is cleared, no read after an undo
      yields the undone entry, wherever the entry was at that moment and whatever happens next. */
  lemma UndoWins(s: Store, e: LogEntry, evs: seq<Event>, s': Store)
    requires Reachable(s) && s.lastAdded == Some(e) && e.record.session == Some(s.session)
    requires Run(RemoveLast(s), evs, s')
    requires forall ev | ev in evs :: !ev.SwitchSession? && !ev.Clear?
    ensures Mine(e) !in ReadLog(s')
  {
    InvReachable(s);
    hide Reachable, Run;
    AfterUndoStart(s, e);
    StaysHidden(RemoveLast(s), e, evs, s');
  }

  lemma {:induction false} StaysHidden(s: Store, e: LogEntry, evs: seq<Event>, s': Store)
    requires AfterUndo(s, e) && (e in s.undone || e.record.timestamp in s.skipped)
    requires Run(s, evs, s')
    requires forall ev | ev in evs :: !ev.SwitchSession? && !ev.Clear?
    ensures Mine(e) !in ReadLog(s')
    decreases |evs|
  {
    if evs == [] {
      InReadLog(s, Mine(e));
      MineOnDisk(s.disk, e);
      if e in MineOf(s.disk) {
        assert e in Flow(s);
      }
    } else {
      hide Apply, Enabled, AfterUndo;
      AfterUndoStep(s, evs[0], e);
      StaysHidden(Apply(s, evs[0]), e, evs[1..], s');
    }
  }

  /** Exactly when the undo does not last. With distinct timestamps and one session, an undone entry
      is read again if and only if it is on disk and the history has been cleared since. */
  lemma UndoOutcome(s: Store, e: LogEntry, evs: seq<Event>, s': Store)
    requires Reachable(s) && s.lastAdded == Some(e) && e.record.session == Some(s.session)
    requires Run(RemoveLast(s), evs, s') && forall ev | ev in evs :: !ev.SwitchSession?
    requires DistinctTimestamps(s'.added) && AllOfSession(s'.raced, s'.session)
    ensures Mine(e) in ReadLog(s') <==> e in MineOf(s'.disk) && Clear in evs
  {
    InvReachable(s);
    hide Reachable, Run;
    AfterUndoStart(s, e);
    TrackUndone(RemoveLast(s), e, evs, s');
    UndoneNotOnDisk(s', e);
    OnlyUndoneHidden(s', e);
    hide RemoveLast, Inv, MineOf, ReadLog;
    if e.record.timestamp in s'.skipped && Clear !in evs {
      HiddenBySkip(s', e);
    }
  }

  lemma UndoneNotOnDisk(s: Store, e: LogEntry)
    requires Inv(s)
    ensures e in s.undone ==> e !in MineOf(s.disk)
  {
    if e in MineOf(s.disk) {
      assert e in Flow(s);
    }
  }

  lemma HiddenBySkip(s: Store, e: LogEntry)
    requires AfterUndo(s, e) && e.record.timestamp in s.skipped
    ensures Mine(e) !in ReadLog(s)
  {
    InReadLog(s, Mine(e));
  }

  lemma {:induction false} TrackUndone(s: Store, e: LogEntry, evs: seq<Event>, s': Store)
    requires AfterUndo(s, e) && Run(s, evs, s')
    requires forall ev | ev in evs :: !ev.SwitchSession?
    ensures AfterUndo(s', e)
    ensures e in s.undone ==> e in s'.undone
    ensures e.record.timestamp in s.skipped && Clear !in evs ==> e.record.timestamp in s'.skipped
    ensures e !in s.raced || Clear in evs ==> e !in s'.raced
    decreases |evs|
  {
    hide Apply, Enabled, AfterUndo;
    if evs != [] {
      AfterUndoStep(s, evs[0], e);
      TrackUndone(Apply(s, evs[0]), e, evs[1..], s');
      assert evs == [evs[0]] + evs[1..];
    }
  }

  /** A second undo without a new entry changes nothing, whatever happened in between. */
  lemma {:induction false} SecondUndoIsNothing(s: Store, evs: seq<Event>, s': Store)
    requires s.lastAdded == None && Run(s, evs, s')
    requires forall ev | ev in evs :: !ev.Add?
    ensures RemoveLast(s') == s'
    decreases |evs|
  {
    if evs != [] {
      UndoAfter(s, evs[0]);
      hide Apply, Enabled;
      SecondUndoIsNothing(Apply(s, evs[0]), evs[1..], s');
    }
  }

  // ---------------------------------------------------------------- a limit of the skip-set

  lemma {:induction false} RunConcat(s: Store, a: seq<Event>, m: Store, b: seq<Event>, s': Store)
    requires Run(s, a, m) && Run(m, b, s')
    ensures Run(s, a + b, s')
    decreases |a|
  {
    hide Apply, Enabled;
    if a == [] {
      assert a + b == b;
    } else {
      assert (a + b)[1..] == a[1..] + b;
      RunConcat(Apply(s, a[0]), a[1..], m, b, s');
    }
  }

  lemma ReachableStep(s: Store, ev: Event)
    requires Reachable(s) && Enabled(s, ev)
    ensures Reachable(Apply(s, ev))
  {
    hide Apply, Enabled;
    var session, disk, evs :| (forall l: Line | l in disk :: !l.Mine?) && Run(Fresh(session, disk), evs, s);
    assert Run(s, [ev], Apply(s, ev)) by { assert [ev][1..] == []; }
    RunConcat(Fresh(session, disk), evs, s, [ev], Apply(s, ev));
  }

  /** Two prompts added in the same millisecond and written to the file. */
  lemma TwoOnDisk(session: string) returns (s: Store, first: LogEntry, second: LogEntry)
    ensures Reachable(s) && s.session == session && s.pending == [] && s.raced == {}
    ensures first.record == Record("a", 7, None, Some(session)) && second.record == Record("b", 7, None, Some(session))
    ensures Mine(first) in s.disk && s.lastAdded == Some(second)
  {
    hide Reachable;
    s := Fresh(session, []);
    FreshReachable(session);
    var a, b := Event.Add("a", 7, None), Event.Add("b", 7, None);
    ReachableStep(s, a);
    s := Apply(s, a);
    ReachableStep(s, b);
    s := Apply(s, b);
    ReachableStep(s, FileMade(0, true));
    s := Apply(s, FileMade(0, true));
    first, second := s.pending[0], s.pending[1];
    ReachableStep(s, Locked(0));
    s := Apply(s, Locked(0));
    ReachableStep(s, Appended(0, true));
    s := Apply(s, Appended(0, true));
    assert s.disk[0] == Mine(first);
  }

  lemma FreshReachable(session: string)
    ensures Reachable(Fresh(session, []))
  {
    assert Run(Fresh(session, []), [], Fresh(session, []));
  }

  /** Two prompts added in the same millisecond: undoing the second hides the first as well. */
  lemma CollisionHidesAnother(session: string) returns (s: Store, first: LogEntry, second: LogEntry)
    ensures Reachable(s) && first != second && s.raced == {second}
    ensures Mine(first) in s.disk && Mine(first) !in ReadLog(s)
  {
    hide Reachable;
    s, first, second := TwoOnDisk(session);
    ReachableStep(s, Undo);
    s := RemoveLast(s);
    InReadLog(s, Mine(first));
  }
}
