/** The module state of source/src/history.ts as an object. Each method is one stretch of code that
    runs without interruption; together they realise the steps of `HistoryBuffer`. */
module HistoryStore {
  import opened Options
  import opened HistoryBuffer
  import opened HistoryReading

  class PromptHistory {
    // module variables of the program
    var pendingEntries: seq<LogEntry>
    var isWriting: bool
    var currentFlushPromise: Option<nat>
    var lastAddedEntry: Option<LogEntry>
    var skippedTimestamps: set<int>
    // what the program runs in: session, suspended calls, lock and file
    var session: string
    var tasks: seq<Task>
    var lock: Option<nat>
    var disk: seq<Line>
    // history, for specification only
    ghost var added: seq<LogEntry>
    ghost var undone: set<LogEntry>
    ghost var cleared: set<LogEntry>
    ghost var lost: set<LogEntry>
    ghost var raced: set<LogEntry>
    ghost var gaveUp: bool
    var entries: nat

    ghost function State(): Store
      reads this
    {
      Store(pendingEntries, isWriting, lastAddedEntry, skippedTimestamps, currentFlushPromise, session,
            tasks, lock, disk, added, undone, cleared, lost, raced, gaveUp)
    }

    ghost predicate Valid()
      reads this
    {
      Inv(State()) && entries == |added|
    }

    constructor (session: string, disk: seq<Line>)
      requires forall l | l in disk :: !l.Mine?
      ensures Valid() && State() == Fresh(session, disk)
    {
      InvFresh(session, disk);
      pendingEntries, isWriting, currentFlushPromise := [], false, None;
      lastAddedEntry, skippedTimestamps := None, {};
      this.session, tasks, lock, this.disk := session, [], None, disk;
      added, undone, cleared, lost, raced, gaveUp := [], {}, {}, {}, {}, false;
      entries := 0;
    }

    /** `addToPromptHistory`, up to the first await of the flush it starts. */
    method AddToPromptHistory(display: string, timestamp: int, project: Option<string>)
      requires Valid()
      modifies this
      ensures Valid() && State() == Apply(old(State()), Event.Add(display, timestamp, project))
    {
      hide Inv;
      ghost var before := State();
      InvStep(before, Event.Add(display, timestamp, project));
      assert Apply(before, Event.Add(display, timestamp, project))
          == AddEntry(before, Record(display, timestamp, project, None));
      hide Apply, StartFlush;
      PushEntry(Record(display, timestamp, project, Some(session)));
      ghost var pushed := State();
      var promise := FlushPromptHistory(0);
      currentFlushPromise := Some(promise);
      assert State() == StartFlush(pushed, 0).(currentFlush := Some(promise));
    }

    method PushEntry(record: Record)
      requires Valid()
      modifies this
      ensures entries == |added|
      ensures var s := old(State()); var e := LogEntry(|s.added|, record);
        State() == s.(pending := s.pending + [e], lastAdded := Some(e), added := s.added + [e], gaveUp := false)
    {
      hide Inv;
      var logEntry := LogEntry(entries, record);
      entries := entries + 1;
      pendingEntries, lastAddedEntry := pendingEntries + [logEntry], Some(logEntry);
      added, gaveUp := added + [logEntry], false;
    }

    /** `flushPromptHistory`, up to its first await; the result stands for its promise. */
    method FlushPromptHistory(retries: nat) returns (promise: nat)
      modifies this
      ensures State() == StartFlush(old(State()), retries)
      ensures promise == old(|tasks|) && entries == old(entries) && added == old(added)
    {
      promise := |tasks|;
      if isWriting || |pendingEntries| == 0 {
        tasks := tasks + [Task(Background(retries), Done)];
        return;
      }
      if retries > MAX_RETRIES {
        tasks := tasks + [Task(Background(retries), Done)];
        gaveUp := true;
        return;
      }
      isWriting := true;
      tasks := tasks + [Task(Background(retries), MakingFile)];
    }

    /** What follows `immediateFlushHistory` in the function that called it. */
    method AfterImmediateFlush(t: nat)
      requires t < |tasks|
      modifies this`tasks, this`isWriting
      ensures State() == FinishFlush(old(State()), t)
    {
      match tasks[t].kind
      case Cleanup =>
        tasks := tasks[t := tasks[t].(pc := Done)];
      case Background(_) =>
        isWriting := false;
        if |pendingEntries| > 0 {
          tasks := tasks[t := tasks[t].(pc := Sleeping)];
        } else {
          tasks := tasks[t := tasks[t].(pc := Done)];
        }
    }

    /** The file has been created, or creating it failed. */
    method OnFileMade(t: nat, ok: bool)
      requires Valid() && Enabled(State(), FileMade(t, ok))
      modifies this
      ensures Valid() && State() == Apply(old(State()), FileMade(t, ok))
    {
      hide Inv;
      InvStep(State(), FileMade(t, ok));
      if ok {
        tasks := tasks[t := tasks[t].(pc := Locking)];
      } else {
        AfterImmediateFlush(t);
      }
    }

    /** The lock has been acquired: the buffer is taken and emptied in one go. */
    method OnLocked(t: nat)
      requires Valid() && Enabled(State(), Locked(t))
      modifies this
      ensures Valid() && State() == Apply(old(State()), Locked(t))
    {
      hide Inv;
      InvStep(State(), Locked(t));
      lock := Some(t);
      var jsonLines := pendingEntries;
      pendingEntries := [];
      gaveUp := false;
      tasks := tasks[t := tasks[t].(pc := Appending(jsonLines))];
    }

    method OnLockFailed(t: nat)
      requires Valid() && Enabled(State(), LockFailed(t))
      modifies this
      ensures Valid() && State() == Apply(old(State()), LockFailed(t))
      ensures pendingEntries == old(pendingEntries) && disk == old(disk)
    {
      hide Inv;
      InvStep(State(), LockFailed(t));
      AfterImmediateFlush(t);
    }

    /** The append has ended. It writes every line of its batch, or none. */
    method OnAppended(t: nat, ok: bool)
      requires Valid() && Enabled(State(), Appended(t, ok))
      modifies this
      ensures Valid() && State() == Apply(old(State()), Appended(t, ok))
    {
      hide Inv;
      InvStep(State(), Appended(t, ok));
      var batch := tasks[t].pc.batch;
      if ok {
        disk := disk + Lines(batch);
      } else {
        lost := lost + Entries(batch);
      }
      tasks := tasks[t := tasks[t].(pc := Releasing)];
    }

    method OnReleased(t: nat)
      requires Valid() && Enabled(State(), Released(t))
      modifies this
      ensures Valid() && State() == Apply(old(State()), Released(t))
    {
      hide Inv;
      InvStep(State(), Released(t));
      lock := None;
      AfterImmediateFlush(t);
    }

    /** The pause of a background flush is over: it starts the next attempt and ends. */
    method OnWake(t: nat)
      requires Valid() && Enabled(State(), Wake(t))
      modifies this
      ensures Valid() && State() == Apply(old(State()), Wake(t))
    {
      hide Inv;
      InvStep(State(), Wake(t));
      var retries := tasks[t].kind.retries;
      tasks := tasks[t := tasks[t].(pc := Done)];
      var _ := FlushPromptHistory(retries + 1);
    }

    /** The registered cleanup starts: it waits for the flush that is current now. */
    method StartCleanupFlush()
      requires Valid()
      modifies this
      ensures Valid() && State() == Apply(old(State()), StartCleanup)
    {
      hide Inv;
      InvStep(State(), StartCleanup);
      tasks := tasks + [Task(Cleanup, AwaitingFlush(currentFlushPromise))];
    }

    method OnFlushAwaited(t: nat)
      requires Valid() && Enabled(State(), CleanupGo(t))
      modifies this
      ensures Valid() && State() == Apply(old(State()), CleanupGo(t))
    {
      hide Inv;
      InvStep(State(), CleanupGo(t));
      if |pendingEntries| > 0 {
        tasks := tasks[t := tasks[t].(pc := MakingFile)];
      } else {
        tasks := tasks[t := tasks[t].(pc := Done)];
      }
    }

    method RemoveLastFromHistory()
      requires Valid()
      modifies this
      ensures Valid() && State() == Apply(old(State()), Undo)
    {
      ghost var before := State();
      hide Inv, LastIndexOf, RemoveLast;
      InvStep(before, Undo);
      TakeBack();
    }

    /** Takes back the last entry: out of the buffer, or else out of sight of the readers. */
    method TakeBack()
      modifies this
      ensures State() == RemoveLast(old(State())) && entries == old(entries) && added == old(added)
    {
      hide LastIndexOf;
      if lastAddedEntry.None? {
        return;
      }
      var entry := lastAddedEntry.value;
      var idx := LastIndexOf(pendingEntries, entry);
      if idx.Some? {
        lastAddedEntry, pendingEntries, undone, gaveUp :=
          None, pendingEntries[..idx.value] + pendingEntries[idx.value + 1..], undone + {entry},
          gaveUp && |pendingEntries| > 1;
      } else {
        lastAddedEntry, skippedTimestamps, raced :=
          None, skippedTimestamps + {entry.record.timestamp}, raced + {entry};
      }
    }

    method ClearPendingHistoryEntries()
      requires Valid()
      modifies this
      ensures Valid() && State() == Apply(old(State()), Clear)
    {
      ghost var before := State();
      hide Inv, ClearAll;
      InvStep(before, Clear);
      ForgetAll();
    }

    method ForgetAll()
      modifies this
      ensures State() == ClearAll(old(State())) && entries == old(entries) && added == old(added)
    {
      hide Entries;
      cleared, raced, pendingEntries, lastAddedEntry, skippedTimestamps, gaveUp :=
        cleared + Entries(pendingEntries), {}, [], None, {}, false;
    }

    /** `makeLogEntryReader`, run to its end in one step. */
    method MakeLogEntryReader() returns (out: seq<Line>)
      ensures out == ReadLog(State())
    {
      hide Newest, NewestOnDisk, Shown, Hidden;
      out := [];
      var i := |pendingEntries|;
      assert pendingEntries[..i] == pendingEntries;
      while i > 0
        invariant 0 <= i <= |pendingEntries|
        invariant out + Newest(pendingEntries[..i]) == Newest(pendingEntries)
      {
        i := i - 1;
        NewestNext(pendingEntries, i, out);
        out := out + [Mine(pendingEntries[i])];
      }
      ghost var buffered := Newest(pendingEntries);
      NewestNone(session, skippedTimestamps);
      var k := |disk|;
      assert disk[..k] == disk;
      while k > 0
        invariant 0 <= k <= |disk|
        invariant out + NewestOnDisk(session, skippedTimestamps, disk[..k])
               == buffered + NewestOnDisk(session, skippedTimestamps, disk)
      {
        k := k - 1;
        var line := disk[k];
        NewestOnDiskNext(session, skippedTimestamps, disk, k, out);
        if line.Malformed? {
          continue;
        }
        var entry := RecordOf(line);
        if entry.session == Some(session) && entry.timestamp in skippedTimestamps {
          continue;
        }
        out := out + [line];
      }
    }
  }

  lemma NewestNone(session: string, skipped: set<int>)
    ensures Newest([]) == [] && NewestOnDisk(session, skipped, []) == []
    ensures forall out: seq<Line> :: out + [] == out
  {
  }

  lemma NewestNext(pending: seq<LogEntry>, i: nat, out: seq<Line>)
    requires i < |pending|
    ensures out + Newest(pending[..i + 1]) == (out + [Mine(pending[i])]) + Newest(pending[..i])
  {
    assert pending[..i + 1][..i] == pending[..i];
  }

  /** A line that is unreadable or hidden is passed over, any other one is yielded. */
  lemma NewestOnDiskNext(session: string, skipped: set<int>, disk: seq<Line>, k: nat, out: seq<Line>)
    requires k < |disk|
    ensures var l := disk[k];
      var passed := l.Malformed? || (RecordOf(l).session == Some(session) && RecordOf(l).timestamp in skipped);
      out + NewestOnDisk(session, skipped, disk[..k + 1])
      == (if passed then out else out + [l]) + NewestOnDisk(session, skipped, disk[..k])
  {
    assert disk[..k + 1][..k] == disk[..k];
  }
}
