/** The prompt-history write buffer of source/src/history.ts, as a state machine whose steps are
    the stretches of code between two awaits. Any number of background flushes, cleanup flushes,
    additions, undos and clears may interleave. */
module HistoryBuffer {
  import opened Options

  /** What is stored for one prompt. A project that is not a string is `None`. */
  datatype Record = Record(display: string, timestamp: int, project: Option<string>, session: Option<string>)

  /** An entry object of this process: `id` is its identity, in order of addition. */
  datatype LogEntry = LogEntry(id: nat, record: Record)

  /** A line of the shared file: written by this process, by another one, or unreadable. */
  datatype Line = Mine(entry: LogEntry) | Other(record: Record) | Malformed

  datatype Kind = Background(retries: nat) | Cleanup

  /** Where an asynchronous call is suspended. */
  datatype Pc =
    | MakingFile
    | Locking
    | Appending(batch: seq<LogEntry>)
    | Releasing
    | Sleeping
    | AwaitingFlush(on: Option<nat>)
    | Done

  datatype Task = Task(kind: Kind, pc: Pc)

  const MAX_RETRIES: nat := 5

  /** Module state, the suspended calls, the lock, the file, and what happened to each entry so far.
      The last six fields record history and are never read by the code; `gaveUp` says that what is
      pending was left there by a flush that ran out of retries. */
  datatype Store = Store(
    pending: seq<LogEntry>,
    isWriting: bool,
    lastAdded: Option<LogEntry>,
    skipped: set<int>,
    currentFlush: Option<nat>,
    session: string,
    tasks: seq<Task>,
    lock: Option<nat>,
    disk: seq<Line>,
    added: seq<LogEntry>,
    undone: set<LogEntry>,
    cleared: set<LogEntry>,
    lost: set<LogEntry>,
    raced: set<LogEntry>,
    gaveUp: bool)

  datatype Event =
    | Add(display: string, timestamp: int, project: Option<string>)
    | FileMade(task: nat, ok: bool)
    | Locked(task: nat)
    | LockFailed(task: nat)
    | Appended(task: nat, ok: bool)
    | Released(task: nat)
    | Wake(task: nat)
    | StartCleanup
    | CleanupGo(task: nat)
    | Undo
    | Clear
    | SwitchSession(session: string)
    | OthersAppend(lines: seq<Line>)

  // ---------------------------------------------------------------- steps

  function SetPc(s: Store, t: nat, pc: Pc): Store
    requires t < |s.tasks|
  {
    s.(tasks := s.tasks[t := s.tasks[t].(pc := pc)])
  }

  /** The synchronous start of `flushPromptHistory`. */
  function StartFlush(s: Store, retries: nat): Store {
    if s.isWriting || s.pending == [] then
      s.(tasks := s.tasks + [Task(Background(retries), Done)])
    else if retries > MAX_RETRIES then
      s.(tasks := s.tasks + [Task(Background(retries), Done)], gaveUp := true)
    else
      s.(tasks := s.tasks + [Task(Background(retries), MakingFile)], isWriting := true)
  }

  /** What the caller of `immediateFlushHistory` does when that call has ended. */
  function FinishFlush(s: Store, t: nat): Store
    requires t < |s.tasks|
  {
    match s.tasks[t].kind
    case Cleanup => SetPc(s, t, Done)
    case Background(_) =>
      SetPc(s.(isWriting := false), t, if s.pending != [] then Sleeping else Done)
  }

  function AddEntry(s: Store, record: Record): Store {
    var e := LogEntry(|s.added|, record.(session := Some(s.session)));
    var s1 := s.(pending := s.pending + [e], lastAdded := Some(e), added := s.added + [e], gaveUp := false);
    StartFlush(s1, 0).(currentFlush := Some(|s.tasks|))
  }

  /** Position of the last occurrence of `e`. */
  function LastIndexOf(q: seq<LogEntry>, e: LogEntry): (k: Option<nat>)
    ensures k.None? <==> e !in q
    ensures k.Some? ==> k.value < |q| && q[k.value] == e && e !in q[k.value + 1..]
  {
    if q == [] then None
    else if q[|q| - 1] == e then Some(|q| - 1)
    else
      var k := LastIndexOf(q[..|q| - 1], e);
      assert k.Some? ==> q[k.value + 1..] == q[..|q| - 1][k.value + 1..] + [q[|q| - 1]];
      k
  }

  function RemoveLast(s: Store): Store {
    match s.lastAdded
    case None => s
    case Some(e) =>
      match LastIndexOf(s.pending, e)
      case Some(k) =>
        s.(lastAdded := None, pending := s.pending[..k] + s.pending[k + 1..], undone := s.undone + {e},
           gaveUp := s.gaveUp && |s.pending| > 1)
      case None =>
        s.(lastAdded := None, skipped := s.skipped + {e.record.timestamp}, raced := s.raced + {e})
  }

  function Entries(q: seq<LogEntry>): set<LogEntry> {
    set e | e in q
  }

  /** `clearPendingHistoryEntries` */
  function ClearAll(s: Store): Store {
    s.(pending := [], lastAdded := None, skipped := {},
       cleared := s.cleared + Entries(s.pending), raced := {}, gaveUp := false)
  }

  function At(s: Store, t: nat): Pc {
    if t < |s.tasks| then s.tasks[t].pc else Done
  }

  /** When an event can happen. The lock is exclusive, also against other processes. */
  predicate Enabled(s: Store, ev: Event) {
    match ev
    case Add(_, _, _) => true
    case FileMade(t, _) => At(s, t) == MakingFile
    case Locked(t) => At(s, t) == Locking && s.lock == None
    case LockFailed(t) => At(s, t) == Locking
    case Appended(t, _) => At(s, t).Appending?
    case Released(t) => At(s, t) == Releasing
    case Wake(t) => At(s, t) == Sleeping && s.tasks[t].kind.Background?
    case StartCleanup => true
    case CleanupGo(t) =>
      At(s, t).AwaitingFlush? && (At(s, t).on.Some? ==> At(s, At(s, t).on.value) == Done)
    case Undo => true
    case Clear => true
    case SwitchSession(_) => true
    case OthersAppend(lines) => s.lock == None && forall l | l in lines :: !l.Mine?
  }

  function Lines(batch: seq<LogEntry>): seq<Line> {
    seq(|batch|, i requires 0 <= i < |batch| => Mine(batch[i]))
  }

  function Apply(s: Store, ev: Event): Store
    requires Enabled(s, ev)
  {
    match ev
    case Add(d, ts, p) => AddEntry(s, Record(d, ts, p, None))
    case FileMade(t, ok) => if ok then SetPc(s, t, Locking) else FinishFlush(s, t)
    case Locked(t) => SetPc(s.(lock := Some(t), pending := [], gaveUp := false), t, Appending(s.pending))
    case LockFailed(t) => FinishFlush(s, t)
    case Appended(t, ok) =>
      var batch := s.tasks[t].pc.batch;
      if ok then SetPc(s.(disk := s.disk + Lines(batch)), t, Releasing)
      else SetPc(s.(lost := s.lost + Entries(batch)), t, Releasing)
    case Released(t) => FinishFlush(s.(lock := None), t)
    case Wake(t) => StartFlush(SetPc(s, t, Done), s.tasks[t].kind.retries + 1)
    case StartCleanup => s.(tasks := s.tasks + [Task(Cleanup, AwaitingFlush(s.currentFlush))])
    case CleanupGo(t) => SetPc(s, t, if s.pending != [] then MakingFile else Done)
    case Undo => RemoveLast(s)
    case Clear => ClearAll(s)
    case SwitchSession(x) => s.(session := x)
    case OthersAppend(lines) => s.(disk := s.disk + lines)
  }

  function Fresh(session: string, disk: seq<Line>): Store {
    Store([], false, None, {}, None, session, [], None, disk, [], {}, {}, {}, {}, false)
  }

  ghost predicate Run(s: Store, evs: seq<Event>, s': Store)
    decreases |evs|
  {
    if evs == [] then s' == s
    else Enabled(s, evs[0]) && Run(Apply(s, evs[0]), evs[1..], s')
  }

  /** States a process can be in, when the file it found holds no line of its own. */
  ghost predicate Reachable(s: Store) {
    exists session, disk, evs ::
      (forall l: Line | l in disk :: !l.Mine?) && Run(Fresh(session, disk), evs, s)
  }

  // ---------------------------------------------------------------- where entries are

  /** The lines of this process, in file order. */
  function MineOf(disk: seq<Line>): seq<LogEntry> {
    if disk == [] then []
    else
      var l := disk[|disk| - 1];
      MineOf(disk[..|disk| - 1]) + (if l.Mine? then [l.entry] else [])
  }

  /** The batch that has left the buffer and whose append has not ended. */
  function InFlight(s: Store): seq<LogEntry> {
    match s.lock
    case None => []
    case Some(t) => if At(s, t).Appending? then At(s, t).batch else []
  }

  /** Entries on their way: on disk, then in flight, then pending. */
  function Flow(s: Store): seq<LogEntry> {
    MineOf(s.disk) + InFlight(s) + s.pending
  }

  predicate Increasing(q: seq<LogEntry>) {
    forall i, j | 0 <= i < j < |q| :: q[i].id < q[j].id
  }

  /** An active background flush is between setting and clearing `isWriting`. */
  predicate Writing(t: Task) {
    t.kind.Background? && (t.pc == MakingFile || t.pc == Locking || t.pc.Appending? || t.pc == Releasing)
  }

  predicate HoldsLock(t: Task) {
    t.pc.Appending? || t.pc == Releasing
  }

  // ---------------------------------------------------------------- the invariant

  /** The lock is held by exactly the calls between acquiring and releasing it. */
  ghost predicate LockInv(tasks: seq<Task>, lock: Option<nat>) {
    && (lock.Some? ==> lock.value < |tasks|)
    && (forall t | 0 <= t < |tasks| :: HoldsLock(tasks[t]) <==> lock == Some(t))
  }

  /** What a suspended call may look like: only background flushes sleep, only cleanups wait for one,
      and a background flush that is not over is within its retries. */
  predicate WellFormed(t: Task) {
    match t.kind
    case Background(r) => !t.pc.AwaitingFlush? && (t.pc == Done || r <= MAX_RETRIES)
    case Cleanup => t.pc != Sleeping
  }

  /** `isWriting` says whether a background flush is active, and there is never a second one. */
  ghost predicate WriterInv(tasks: seq<Task>, isWriting: bool) {
    && (isWriting <==> exists t :: 0 <= t < |tasks| && Writing(tasks[t]))
    && (forall t, u | 0 <= t < |tasks| && 0 <= u < |tasks| && Writing(tasks[t]) && Writing(tasks[u]) :: t == u)
    && (forall t | 0 <= t < |tasks| :: WellFormed(tasks[t]))
  }

  ghost predicate SomeoneSleeps(tasks: seq<Task>) {
    exists t :: 0 <= t < |tasks| && tasks[t].pc == Sleeping
  }

  /** Someone is still responsible for what is in the buffer, or it was given up. */
  ghost predicate Watched(s: Store) {
    && (s.pending != [] ==> s.isWriting || s.gaveUp || SomeoneSleeps(s.tasks))
    && (s.gaveUp ==> s.pending != [])
  }

  /** Entries flow in the order they were added, and each is in exactly one place. */
  ghost predicate Placed(added: seq<LogEntry>, flow: seq<LogEntry>,
                         undone: set<LogEntry>, cleared: set<LogEntry>, lost: set<LogEntry>) {
    && (forall i | 0 <= i < |added| :: added[i].id == i)
    && Increasing(flow)
    && (forall e :: e in added <==> e in flow || e in undone || e in cleared || e in lost)
    && (forall e | e in flow :: e !in undone && e !in cleared && e !in lost)
    && undone !! cleared && undone !! lost && cleared !! lost
  }

  ghost predicate FlowInv(s: Store) {
    Placed(s.added, Flow(s), s.undone, s.cleared, s.lost)
  }

  /** The skip-set holds the timestamps of the entries undone after they had left the buffer. */
  ghost predicate UndoInv(s: Store) {
    && (forall ts :: ts in s.skipped <==> exists e :: e in s.raced && e.record.timestamp == ts)
    && (forall e | e in s.raced :: e in s.added && e !in s.pending && e !in s.undone)
    && (s.lastAdded.Some? ==>
          && s.added != [] && s.lastAdded.value == s.added[|s.added| - 1]
          && s.lastAdded.value !in s.undone && s.lastAdded.value !in s.cleared && s.lastAdded.value !in s.raced)
  }

  /** The flush that a cleanup would wait for is one of the calls. */
  ghost predicate CurrentKnown(s: Store) {
    s.currentFlush.Some? ==> s.currentFlush.value < |s.tasks|
  }

  ghost predicate Inv(s: Store) {
    && LockInv(s.tasks, s.lock) && WriterInv(s.tasks, s.isWriting) && Watched(s) && CurrentKnown(s)
    && FlowInv(s) && UndoInv(s)
  }

  // ---------------------------------------------------------------- sequences

  lemma {:induction false} MineOfConcat(a: seq<Line>, b: seq<Line>)
    ensures MineOf(a + b) == MineOf(a) + MineOf(b)
  {
    if b == [] {
      assert a + b == a;
    } else {
      assert (a + b)[..|a + b| - 1] == a + b[..|b| - 1];
      MineOfConcat(a, b[..|b| - 1]);
    }
  }

  lemma {:induction false} MineOfLines(batch: seq<LogEntry>)
    ensures MineOf(Lines(batch)) == batch
  {
    if batch != [] {
      var init := batch[..|batch| - 1];
      assert Lines(batch)[..|batch| - 1] == Lines(init);
      MineOfLines(init);
      assert batch == init + [batch[|batch| - 1]];
    }
  }

  lemma {:induction false} MineOfOthers(lines: seq<Line>)
    requires forall l | l in lines :: !l.Mine?
    ensures MineOf(lines) == []
  {
    if lines != [] {
      MineOfOthers(lines[..|lines| - 1]);
      assert lines[|lines| - 1] in lines;
    }
  }

  /** Taking a stretch out of an increasing sequence. */
  lemma IncreasingWithout(a: seq<LogEntry>, b: seq<LogEntry>, c: seq<LogEntry>)
    requires Increasing(a + b + c)
    ensures Increasing(a + c)
    ensures forall e | e in b :: e !in a && e !in c
    ensures forall e | e in a :: e !in c
  {
    var q := a + b + c;
    forall i, j | 0 <= i < j < |a + c| ensures (a + c)[i].id < (a + c)[j].id {
      var i' := if i < |a| then i else i + |b|;
      var j' := if j < |a| then j else j + |b|;
      assert q[i'] == (a + c)[i] && q[j'] == (a + c)[j];
    }
    forall e | e in b ensures e !in a && e !in c {
      var k :| 0 <= k < |b| && b[k] == e;
      assert q[|a| + k] == e;
      forall i | 0 <= i < |a| ensures a[i] != e { assert q[i] == a[i]; }
      forall i | 0 <= i < |c| ensures c[i] != e { assert q[|a| + |b| + i] == c[i]; }
    }
    forall e | e in a ensures e !in c {
      var k :| 0 <= k < |a| && a[k] == e;
      assert q[k] == e;
      forall i | 0 <= i < |c| ensures c[i] != e { assert q[|a| + |b| + i] == c[i]; }
    }
  }

  // ---------------------------------------------------------------- every step keeps the invariant

  lemma LockKept(tasks: seq<Task>, lock: Option<nat>, t: nat, task: Task)
    requires LockInv(tasks, lock) && t < |tasks| && (HoldsLock(tasks[t]) <==> HoldsLock(task))
    ensures LockInv(tasks[t := task], lock)
  {
  }

  lemma LockTaken(tasks: seq<Task>, t: nat, task: Task)
    requires LockInv(tasks, None) && t < |tasks| && HoldsLock(task)
    ensures LockInv(tasks[t := task], Some(t))
  {
  }

  lemma LockGiven(tasks: seq<Task>, lock: Option<nat>, t: nat, task: Task)
    requires LockInv(tasks, lock) && t < |tasks| && HoldsLock(tasks[t]) && !HoldsLock(task)
    ensures LockInv(tasks[t := task], None)
  {
  }

  lemma LockNewTask(tasks: seq<Task>, lock: Option<nat>, task: Task)
    requires LockInv(tasks, lock) && !HoldsLock(task)
    ensures LockInv(tasks + [task], lock)
  {
  }

  lemma LockStep(s: Store, ev: Event)
    requires LockInv(s.tasks, s.lock) && Enabled(s, ev)
    ensures LockInv(Apply(s, ev).tasks, Apply(s, ev).lock)
  {
    hide LockInv;
    var s' := Apply(s, ev);
    match ev
    case Add(_, _, _) => LockNewTask(s.tasks, s.lock, s'.tasks[|s.tasks|]);
    case FileMade(t, _) => LockKept(s.tasks, s.lock, t, s'.tasks[t]);
    case Locked(t) => LockTaken(s.tasks, t, s'.tasks[t]);
    case LockFailed(t) => LockKept(s.tasks, s.lock, t, s'.tasks[t]);
    case Appended(t, _) => LockKept(s.tasks, s.lock, t, s'.tasks[t]);
    case Released(t) => LockGiven(s.tasks, s.lock, t, s'.tasks[t]);
    case Wake(t) =>
      LockKept(s.tasks, s.lock, t, s'.tasks[t]);
      LockNewTask(SetPc(s, t, Done).tasks, s.lock, s'.tasks[|s.tasks|]);
    case StartCleanup => LockNewTask(s.tasks, s.lock, s'.tasks[|s.tasks|]);
    case CleanupGo(t) => LockKept(s.tasks, s.lock, t, s'.tasks[t]);
    case _ =>
  }

  lemma WriterKept(tasks: seq<Task>, isWriting: bool, t: nat, task: Task)
    requires WriterInv(tasks, isWriting) && t < |tasks| && WellFormed(task)
    requires Writing(tasks[t]) <==> Writing(task)
    ensures WriterInv(tasks[t := task], isWriting)
  {
    if u :| 0 <= u < |tasks| && Writing(tasks[u]) {
      assert Writing(tasks[t := task][u]);
    }
  }

  lemma WriterEnded(tasks: seq<Task>, isWriting: bool, t: nat, task: Task)
    requires WriterInv(tasks, isWriting) && t < |tasks| && WellFormed(task)
    requires Writing(tasks[t]) && !Writing(task)
    ensures WriterInv(tasks[t := task], false)
  {
  }

  lemma WriterNewTask(tasks: seq<Task>, isWriting: bool, task: Task)
    requires WriterInv(tasks, isWriting) && WellFormed(task) && (Writing(task) ==> !isWriting)
    ensures WriterInv(tasks + [task], isWriting || Writing(task))
  {
    var tasks' := tasks + [task];
    if u :| 0 <= u < |tasks| && Writing(tasks[u]) {
      assert Writing(tasks'[u]);
    }
    assert tasks'[|tasks|] == task;
  }

  lemma TaskIs(s: Store, t: nat)
    requires WriterInv(s.tasks, s.isWriting) && t < |s.tasks|
    ensures WellFormed(s.tasks[t]) && (Writing(s.tasks[t]) ==> s.isWriting)
  {
  }

  /** The end of `immediateFlushHistory` ends the writing of a background flush only. */
  lemma WriterFinish(s: Store, t: nat)
    requires WriterInv(s.tasks, s.isWriting) && t < |s.tasks|
    requires s.tasks[t].pc == MakingFile || s.tasks[t].pc == Locking || s.tasks[t].pc == Releasing
    ensures WriterInv(FinishFlush(s, t).tasks, FinishFlush(s, t).isWriting)
  {
    TaskIs(s, t);
    hide WriterInv;
    var task := FinishFlush(s, t).tasks[t];
    if s.tasks[t].kind.Cleanup? {
      WriterKept(s.tasks, s.isWriting, t, task);
    } else {
      WriterEnded(s.tasks, s.isWriting, t, task);
    }
  }

  lemma WriterStart(s: Store, retries: nat)
    requires WriterInv(s.tasks, s.isWriting)
    ensures WriterInv(StartFlush(s, retries).tasks, StartFlush(s, retries).isWriting)
  {
    hide WriterInv;
    WriterNewTask(s.tasks, s.isWriting, StartFlush(s, retries).tasks[|s.tasks|]);
  }

  lemma WriterStep(s: Store, ev: Event)
    requires WriterInv(s.tasks, s.isWriting) && Enabled(s, ev)
    ensures WriterInv(Apply(s, ev).tasks, Apply(s, ev).isWriting)
  {
    hide WriterInv, FinishFlush, StartFlush;
    var s' := Apply(s, ev);
    match ev
    case Add(d, ts, p) =>
      var e := LogEntry(|s.added|, Record(d, ts, p, Some(s.session)));
      WriterStart(s.(pending := s.pending + [e], lastAdded := Some(e), added := s.added + [e], gaveUp := false), 0);
    case FileMade(t, ok) =>
      TaskIs(s, t);
      if ok { WriterKept(s.tasks, s.isWriting, t, s'.tasks[t]); } else { WriterFinish(s, t); }
    case Locked(t) => TaskIs(s, t); WriterKept(s.tasks, s.isWriting, t, s'.tasks[t]);
    case LockFailed(t) => WriterFinish(s, t);
    case Appended(t, _) => TaskIs(s, t); WriterKept(s.tasks, s.isWriting, t, s'.tasks[t]);
    case Released(t) => WriterFinish(s.(lock := None), t);
    case Wake(t) =>
      TaskIs(s, t);
      var s1 := SetPc(s, t, Done);
      WriterKept(s.tasks, s.isWriting, t, s1.tasks[t]);
      WriterStart(s1, s.tasks[t].kind.retries + 1);
    case StartCleanup => WriterNewTask(s.tasks, s.isWriting, s'.tasks[|s.tasks|]);
    case CleanupGo(t) => TaskIs(s, t); WriterKept(s.tasks, s.isWriting, t, s'.tasks[t]);
    case _ =>
  }

  /** A sleeping flush goes on sleeping unless it is the one that wakes. */
  lemma SleeperStays(s: Store, ev: Event)
    requires Enabled(s, ev) && SomeoneSleeps(s.tasks)
    ensures SomeoneSleeps(Apply(s, ev).tasks) || ev.Wake?
  {
    var u :| 0 <= u < |s.tasks| && s.tasks[u].pc == Sleeping;
    if !ev.Wake? {
      assert Apply(s, ev).tasks[u].pc == Sleeping;
    }
  }

  lemma WatchedStep(s: Store, ev: Event)
    requires WriterInv(s.tasks, s.isWriting) && Watched(s) && Enabled(s, ev)
    ensures Watched(Apply(s, ev))
  {
    var s' := Apply(s, ev);
    if SomeoneSleeps(s.tasks) { SleeperStays(s, ev); }
    hide SomeoneSleeps, WriterInv;
    match ev
    case FileMade(t, _) => TaskIs(s, t); NowSleeps(s', t);
    case LockFailed(t) => TaskIs(s, t); NowSleeps(s', t);
    case Released(t) => TaskIs(s, t); NowSleeps(s', t);
    case _ =>
  }

  lemma CurrentStep(s: Store, ev: Event)
    requires CurrentKnown(s) && Enabled(s, ev)
    ensures CurrentKnown(Apply(s, ev))
  {
    hide LastIndexOf;
  }

  lemma NowSleeps(s: Store, t: nat)
    requires t < |s.tasks|
    ensures s.tasks[t].pc == Sleeping ==> SomeoneSleeps(s.tasks)
  {
  }

  /** A step of a call that does not hold the lock leaves the batch in flight alone. */
  lemma InFlightKept(s: Store, s': Store, t: nat)
    requires LockInv(s.tasks, s.lock) && s'.lock == s.lock && t < |s.tasks| <= |s'.tasks|
    requires !HoldsLock(s.tasks[t])
    requires forall u | 0 <= u < |s.tasks| && u != t :: s'.tasks[u] == s.tasks[u]
    ensures InFlight(s') == InFlight(s)
  {
  }

  /** What one step does to the batch in flight. */
  lemma InFlightAfter(s: Store, ev: Event)
    requires LockInv(s.tasks, s.lock) && Enabled(s, ev)
    ensures InFlight(Apply(s, ev)) ==
      match ev
      case Locked(_) => s.pending
      case Appended(_, _) => []
      case Released(_) => []
      case _ => InFlight(s)
    ensures ev.Appended? ==> InFlight(s) == s.tasks[ev.task].pc.batch
    ensures ev.Locked? || ev.Released? ==> InFlight(s) == []
  {
    var s' := Apply(s, ev);
    match ev
    case FileMade(t, ok) => InFlightKept(s, s', t);
    case LockFailed(t) => InFlightKept(s, s', t);
    case Wake(t) => InFlightKept(s, s', t);
    case CleanupGo(t) => InFlightKept(s, s', t);
    case _ =>
  }

  /** What one step does to the lines of this process. */
  lemma MineAfter(s: Store, ev: Event)
    requires Enabled(s, ev)
    ensures MineOf(Apply(s, ev).disk)
         == MineOf(s.disk) + if ev.Appended? && ev.ok then s.tasks[ev.task].pc.batch else []
  {
    match ev
    case Appended(t, ok) =>
      MineOfConcat(s.disk, Lines(s.tasks[t].pc.batch));
      MineOfLines(s.tasks[t].pc.batch);
    case OthersAppend(lines) =>
      MineOfConcat(s.disk, lines);
      MineOfOthers(lines);
    case _ =>
  }

  /** What one step does to the entries on their way. */
  lemma FlowAfter(s: Store, ev: Event)
    requires LockInv(s.tasks, s.lock) && Enabled(s, ev)
    ensures var f := Flow(Apply(s, ev));
      match ev
      case Add(d, ts, p) => f == Flow(s) + [LogEntry(|s.added|, Record(d, ts, p, Some(s.session)))]
      case Appended(t, ok) => if ok then f == Flow(s) else f == MineOf(s.disk) + s.pending
      case Undo => f == MineOf(s.disk) + InFlight(s) + RemoveLast(s).pending
      case Clear => f == MineOf(s.disk) + InFlight(s)
      case _ => f == Flow(s)
  {
    InFlightAfter(s, ev);
    MineAfter(s, ev);
    PendingAfter(s, ev);
    hide MineOf, InFlight, LockInv, Apply, Enabled, RemoveLast;
    var m, f, p := MineOf(s.disk), InFlight(s), s.pending;
    assert m + [] == m && m + f + [] == m + f && m + [] + f == m + f;
    match ev
    case Add(_, _, _) =>
      SeqAssoc(m + f, p, [LogEntry(|s.added|, Record(ev.display, ev.timestamp, ev.project, Some(s.session)))]);
    case _ => assert m + p + [] == m + p;
  }

  lemma SeqAssoc(a: seq<LogEntry>, b: seq<LogEntry>, c: seq<LogEntry>)
    ensures a + (b + c) == a + b + c
  {
  }

  lemma PendingAfter(s: Store, ev: Event)
    requires Enabled(s, ev)
    ensures Apply(s, ev).pending ==
      match ev
      case Add(d, ts, p) => s.pending + [LogEntry(|s.added|, Record(d, ts, p, Some(s.session)))]
      case Locked(_) => []
      case Undo => RemoveLast(s).pending
      case Clear => []
      case _ => s.pending
  {
  }

  lemma PlacedAdd(added: seq<LogEntry>, flow: seq<LogEntry>,
                  undone: set<LogEntry>, cleared: set<LogEntry>, lost: set<LogEntry>, e: LogEntry)
    requires Placed(added, flow, undone, cleared, lost) && e.id == |added|
    ensures Placed(added + [e], flow + [e], undone, cleared, lost)
  {
    forall x | x in flow || x in undone || x in cleared || x in lost ensures x.id < |added| {
      assert x in added;
    }
  }

  /** Entries taken out of the flow and recorded as undone, cleared or lost. */
  lemma PlacedMove(added: seq<LogEntry>, a: seq<LogEntry>, b: seq<LogEntry>, c: seq<LogEntry>,
                   undone: set<LogEntry>, cleared: set<LogEntry>, lost: set<LogEntry>, moved: set<LogEntry>)
    requires Placed(added, a + b + c, undone, cleared, lost)
    requires forall e :: e in moved <==> e in b
    ensures Placed(added, a + c, undone + moved, cleared, lost)
    ensures Placed(added, a + c, undone, cleared + moved, lost)
    ensures Placed(added, a + c, undone, cleared, lost + moved)
  {
    IncreasingWithout(a, b, c);
    assert forall e :: e in a + b + c <==> e in a || e in b || e in c;
    assert forall e :: e in a + c <==> e in a || e in c;
  }

  lemma HistoryAfter(s: Store, ev: Event)
    requires Enabled(s, ev)
    ensures Apply(s, ev).added ==
      if ev.Add? then s.added + [LogEntry(|s.added|, Record(ev.display, ev.timestamp, ev.project, Some(s.session)))]
      else s.added
    ensures Apply(s, ev).undone == if ev.Undo? then RemoveLast(s).undone else s.undone
    ensures Apply(s, ev).cleared == if ev.Clear? then s.cleared + Entries(s.pending) else s.cleared
    ensures Apply(s, ev).lost ==
      if ev.Appended? && !ev.ok then s.lost + (set e | e in s.tasks[ev.task].pc.batch) else s.lost
  {
  }

  lemma PlacedUndo(s: Store, q: seq<LogEntry>)
    requires Placed(s.added, q + s.pending, s.undone, s.cleared, s.lost)
    ensures Placed(s.added, q + RemoveLast(s).pending, RemoveLast(s).undone, s.cleared, s.lost)
  {
    if s.lastAdded.Some? {
      var e := s.lastAdded.value;
      var k := LastIndexOf(s.pending, e);
      if k.Some? {
        var a, c := s.pending[..k.value], s.pending[k.value + 1..];
        assert q + s.pending == (q + a) + [e] + c;
        PlacedMove(s.added, q + a, [e], c, s.undone, s.cleared, s.lost, {e});
        SeqAssoc(q, a, c);
      }
    }
  }

  lemma FlowStep(s: Store, ev: Event)
    requires LockInv(s.tasks, s.lock) && FlowInv(s) && Enabled(s, ev)
    ensures FlowInv(Apply(s, ev))
  {
    FlowAfter(s, ev);
    HistoryAfter(s, ev);
    var m, f, p := MineOf(s.disk), InFlight(s), s.pending;
    hide Apply, Placed;
    match ev
    case Add(_, _, _) =>
      PlacedAdd(s.added, Flow(s), s.undone, s.cleared, s.lost, Apply(s, ev).added[|s.added|]);
    case Appended(t, ok) =>
      if !ok {
        InFlightAfter(s, ev);
        PlacedMove(s.added, m, f, p, s.undone, s.cleared, s.lost, set e | e in f);
      }
    case Undo => PlacedUndo(s, m + f);
    case Clear =>
      assert m + f + p + [] == m + f + p && m + f + [] == m + f;
      PlacedMove(s.added, m + f, p, [], s.undone, s.cleared, s.lost, set e | e in p);
    case _ =>
  }

  lemma PendingSubset(s: Store, ev: Event)
    requires Enabled(s, ev)
    ensures forall e | e in Apply(s, ev).pending :: e in s.pending || (ev.Add? && e == Apply(s, ev).added[|s.added|])
  {
    PendingAfter(s, ev);
  }

  lemma UndoAfter(s: Store, ev: Event)
    requires Enabled(s, ev)
    ensures var s' := Apply(s, ev);
      match ev
      case Add(_, _, _) => s'.skipped == s.skipped && s'.raced == s.raced && s'.added != []
                           && s'.lastAdded == Some(s'.added[|s.added|]) && |s'.added| == |s.added| + 1
      case Undo => s' == RemoveLast(s)
      case Clear => s'.skipped == {} && s'.raced == {} && s'.lastAdded == None
      case _ => s'.skipped == s.skipped && s'.raced == s.raced && s'.lastAdded == s.lastAdded
  {
  }

  lemma UndoStep(s: Store, ev: Event)
    requires FlowInv(s) && UndoInv(s) && Enabled(s, ev)
    ensures UndoInv(Apply(s, ev))
  {
    PendingSubset(s, ev);
    UndoAfter(s, ev);
    HistoryAfter(s, ev);
    if ev.Add? {
      NewEntry(s, Apply(s, ev).added[|s.added|]);
    } else if ev.Undo? {
      UndoLast(s);
    } else {
      hide Apply;
    }
  }

  lemma NewEntry(s: Store, e: LogEntry)
    requires FlowInv(s) && e.id == |s.added|
    ensures e !in s.added && e !in s.undone && e !in s.cleared
  {
    assert e !in s.added;
  }

  lemma UndoLast(s: Store)
    requires FlowInv(s) && UndoInv(s)
    ensures UndoInv(RemoveLast(s))
  {
    var s' := RemoveLast(s);
    if s.lastAdded.Some? {
      var e := s.lastAdded.value;
      if e !in s.pending {
        assert s'.raced == s.raced + {e};
        assert forall ts :: ts in s'.skipped <==> ts in s.skipped || ts == e.record.timestamp;
        assert e in s'.raced;
      } else {
        assert s'.undone == s.undone + {e};
        assert forall x | x in s'.pending :: x in s.pending;
      }
    }
  }

  lemma InvStep(s: Store, ev: Event)
    requires Inv(s) && Enabled(s, ev)
    ensures Inv(Apply(s, ev))
  {
    LockStep(s, ev);
    WriterStep(s, ev);
    WatchedStep(s, ev);
    CurrentStep(s, ev);
    FlowStep(s, ev);
    UndoStep(s, ev);
  }

  lemma {:induction false} InvRun(s: Store, evs: seq<Event>, s': Store)
    requires Inv(s) && Run(s, evs, s')
    ensures Inv(s')
    decreases |evs|
  {
    hide Inv, Apply, Enabled;
    if evs != [] {
      InvStep(s, evs[0]);
      InvRun(Apply(s, evs[0]), evs[1..], s');
    }
  }

  lemma InvFresh(session: string, disk: seq<Line>)
    requires forall l | l in disk :: !l.Mine?
    ensures Inv(Fresh(session, disk))
  {
    MineOfOthers(disk);
  }

  lemma InvReachable(s: Store)
    requires Reachable(s)
    ensures Inv(s)
  {
    hide Run, Inv;
    var session, disk, evs :| (forall l: Line | l in disk :: !l.Mine?) && Run(Fresh(session, disk), evs, s);
    InvFresh(session, disk);
    InvRun(Fresh(session, disk), evs, s);
  }
}
