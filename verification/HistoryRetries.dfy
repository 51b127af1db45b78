/** When a flush of the prompt history runs out of retries, and what becomes of the entries it leaves. */
module HistoryRetries {
  import opened Options
  import opened HistoryBuffer
  import opened HistoryProperties

  // ---------------------------------------------------------------- runs, step by step

  /** The state after the given events, if each of them was possible. */
  function Path(s: Store, evs: seq<Event>): Option<Store> {
    if evs == [] then Some(s)
    else
      match Path(s, evs[..|evs| - 1])
      case None => None
      case Some(m) => if Enabled(m, evs[|evs| - 1]) then Some(Apply(m, evs[|evs| - 1])) else None
  }

  lemma {:induction false} PathCons(s: Store, ev: Event, evs: seq<Event>)
    requires Enabled(s, ev)
    ensures Path(s, [ev] + evs) == Path(Apply(s, ev), evs)
  {
    hide Apply, Enabled;
    if evs == [] {
      assert [ev] + evs == [ev] && [ev][..0] == [];
    } else {
      var init := evs[..|evs| - 1];
      PathCons(s, ev, init);
      assert ([ev] + evs)[..|evs|] == [ev] + init;
    }
  }

  lemma {:induction false} RunIsPath(s: Store, evs: seq<Event>, s': Store)
    requires Run(s, evs, s')
    ensures Path(s, evs) == Some(s')
    decreases |evs|
  {
    hide Apply, Enabled;
    if evs != [] {
      RunIsPath(Apply(s, evs[0]), evs[1..], s');
      PathCons(s, evs[0], evs[1..]);
      assert [evs[0]] + evs[1..] == evs;
    }
  }

  /** The state just before the event at a position. */
  function Before(s: Store, evs: seq<Event>, i: nat): Option<Store>
    requires i <= |evs|
  {
    Path(s, evs[..i])
  }

  lemma {:induction false} BeforeDefined(s: Store, evs: seq<Event>, i: nat)
    requires Path(s, evs).Some? && i <= |evs|
    ensures Before(s, evs, i).Some?
    ensures i < |evs| ==> Enabled(Before(s, evs, i).value, evs[i])
    ensures i < |evs| ==> Before(s, evs, i + 1) == Some(Apply(Before(s, evs, i).value, evs[i]))
    decreases |evs|
  {
    hide Apply, Enabled;
    if i == |evs| {
      assert evs[..i] == evs;
    } else if i == |evs| - 1 {
      assert evs[..i + 1] == evs;
    } else {
      var init := evs[..|evs| - 1];
      BeforeDefined(s, init, i);
      assert init[..i] == evs[..i] && init[..i + 1] == evs[..i + 1];
    }
  }

  lemma {:induction false} PathInv(s: Store, evs: seq<Event>)
    requires Inv(s) && Path(s, evs).Some?
    ensures Inv(Path(s, evs).value)
  {
    hide Inv, Apply, Enabled;
    if evs != [] {
      PathInv(s, evs[..|evs| - 1]);
      InvStep(Path(s, evs[..|evs| - 1]).value, evs[|evs| - 1]);
    }
  }

  // ---------------------------------------------------------------- giving up

  /** A flush that has used up its retries wakes, finds entries, and nobody is writing them. */
  predicate OutOfRetries(s: Store, ev: Event) {
    && ev.Wake? && At(s, ev.task) == Sleeping && s.tasks[ev.task].kind == Background(MAX_RETRIES)
    && s.pending != [] && !s.isWriting
  }

  lemma FlushGivesUp(s: Store, retries: nat)
    ensures StartFlush(s, retries).gaveUp <==>
              s.gaveUp || (!s.isWriting && s.pending != [] && retries > MAX_RETRIES)
    ensures StartFlush(s, retries).pending == s.pending
  {
  }

  lemma FinishKeeps(s: Store, t: nat)
    requires t < |s.tasks|
    ensures FinishFlush(s, t).gaveUp == s.gaveUp && FinishFlush(s, t).pending == s.pending
  {
  }

  lemma UndoGivesUp(s: Store)
    requires s.gaveUp ==> s.pending != []
    ensures RemoveLast(s).gaveUp <==> s.gaveUp && RemoveLast(s).pending != []
  {
    hide LastIndexOf;
  }

  /** Where the flag that records giving up comes from, and where it goes. */
  lemma GaveUpAfter(s: Store, ev: Event)
    requires Enabled(s, ev) && (s.gaveUp ==> s.pending != [])
    requires ev.Wake? ==> s.tasks[ev.task].kind.retries <= MAX_RETRIES
    ensures Apply(s, ev).gaveUp <==>
              OutOfRetries(s, ev) || (s.gaveUp && !ev.Add? && Apply(s, ev).pending != [])
  {
    hide StartFlush, FinishFlush, RemoveLast;
    match ev
    case Add(d, ts, p) =>
      var e := LogEntry(|s.added|, Record(d, ts, p, Some(s.session)));
      FlushGivesUp(s.(pending := s.pending + [e], lastAdded := Some(e), added := s.added + [e], gaveUp := false), 0);
    case FileMade(t, _) => FinishKeeps(s, t);
    case LockFailed(t) => FinishKeeps(s, t);
    case Released(t) => FinishKeeps(s.(lock := None), t);
    case Wake(t) => FlushGivesUp(SetPc(s, t, Done), s.tasks[t].kind.retries + 1);
    case Undo => UndoGivesUp(s);
    case _ =>
  }

  lemma InvGaveUp(s: Store, ev: Event)
    requires Inv(s) && Enabled(s, ev)
    ensures s.gaveUp ==> s.pending != []
    ensures ev.Wake? ==> s.tasks[ev.task].kind.retries <= MAX_RETRIES
  {
    if ev.Wake? {
      TaskIs(s, ev.task);
    }
  }

  /** The event at a position adds no prompt and leaves the buffer non-empty. */
  predicate Leaves(s: Store, evs: seq<Event>, j: nat)
    requires j < |evs|
  {
    !evs[j].Add? && Before(s, evs, j + 1).Some? && Before(s, evs, j + 1).value.pending != []
  }

  /** Since the given position no prompt was added and the buffer was never empty. */
  ghost predicate LeftAlone(s: Store, evs: seq<Event>, from: nat) {
    forall j: nat | from <= j < |evs| :: Leaves(s, evs, j)
  }

  /** The entries in the buffer were given up at the given position. */
  ghost predicate GivenUpAt(s: Store, evs: seq<Event>, i: nat) {
    && i < |evs|
    && Before(s, evs, i).Some? && OutOfRetries(Before(s, evs, i).value, evs[i])
    && LeftAlone(s, evs, i + 1)
  }

  lemma BeforeInit(s: Store, evs: seq<Event>, i: nat)
    requires i < |evs|
    ensures Before(s, evs, i) == Before(s, evs[..|evs| - 1], i)
  {
    assert evs[..|evs| - 1][..i] == evs[..i];
  }

  lemma LeftAloneNext(s: Store, evs: seq<Event>, from: nat)
    requires from < |evs| && Path(s, evs).Some?
    ensures LeftAlone(s, evs, from) <==>
              LeftAlone(s, evs[..|evs| - 1], from) && !evs[|evs| - 1].Add? && Path(s, evs).value.pending != []
  {
    var n, init := |evs| - 1, evs[..|evs| - 1];
    assert evs[..n + 1] == evs;
    assert Leaves(s, evs, n) <==> !evs[n].Add? && Path(s, evs).value.pending != [];
    forall j: nat | j < n ensures Leaves(s, init, j) <==> Leaves(s, evs, j) {
      assert init[..j + 1] == evs[..j + 1];
    }
    hide Path, Leaves;
  }

  lemma {:induction false} GaveUpWhen(s: Store, evs: seq<Event>)
    requires Inv(s) && !s.gaveUp && Path(s, evs).Some?
    ensures Path(s, evs).value.gaveUp <==> exists i: nat :: GivenUpAt(s, evs, i)
  {
    hide Inv, Apply, Enabled, LeftAlone, OutOfRetries;
    if evs != [] {
      var n, init := |evs| - 1, evs[..|evs| - 1];
      var m := Path(s, init).value;
      GaveUpWhen(s, init);
      PathInv(s, init);
      InvGaveUp(m, evs[n]);
      GaveUpAfter(m, evs[n]);
      GivenUpNext(s, evs);
    }
  }

  /** One event more: given up by it, or earlier and left alone by it. */
  lemma GivenUpNext(s: Store, evs: seq<Event>)
    requires evs != [] && Path(s, evs).Some?
    ensures var n := |evs| - 1; var init := evs[..n];
      (exists i: nat :: GivenUpAt(s, evs, i)) <==>
        OutOfRetries(Path(s, init).value, evs[n])
        || ((exists i: nat :: GivenUpAt(s, init, i)) && !evs[n].Add? && Path(s, evs).value.pending != [])
  {
    hide OutOfRetries, Apply, Enabled, LeftAlone;
    var n, init := |evs| - 1, evs[..|evs| - 1];
    var passes := !evs[n].Add? && Path(s, evs).value.pending != [];
    forall i: nat | i < n ensures GivenUpAt(s, evs, i) <==> GivenUpAt(s, init, i) && passes {
      BeforeInit(s, evs, i);
      LeftAloneNext(s, evs, i + 1);
    }
    NothingAfter(s, evs);
    assert GivenUpAt(s, evs, n) <==> OutOfRetries(Path(s, init).value, evs[n]);
    hide GivenUpAt;
    if i: nat :| GivenUpAt(s, evs, i) {
      GivenUpWithin(s, evs, i);
    }
    if (exists i: nat :: GivenUpAt(s, init, i)) && passes {
      var i: nat :| GivenUpAt(s, init, i);
      GivenUpWithin(s, init, i);
      assert GivenUpAt(s, evs, i);
    }
  }

  lemma GivenUpWithin(s: Store, evs: seq<Event>, i: nat)
    requires GivenUpAt(s, evs, i)
    ensures i < |evs|
  {
  }

  lemma NothingAfter(s: Store, evs: seq<Event>)
    ensures LeftAlone(s, evs, |evs|)
  {
  }

  /** Main result: when every call has ended, entries are left in the buffer exactly if some flush that had
      used up its retries found entries while nobody was writing, and since then no prompt was added and
      the buffer was never empty. */
  lemma StuckIff(session: string, disk: seq<Line>, evs: seq<Event>, s: Store)
    requires (forall l | l in disk :: !l.Mine?) && Run(Fresh(session, disk), evs, s) && Quiet(s)
    ensures s.pending != [] <==> exists i: nat :: GivenUpAt(Fresh(session, disk), evs, i)
  {
    var start := Fresh(session, disk);
    InvFresh(session, disk);
    RunIsPath(start, evs, s);
    PathInv(start, evs);
    GaveUpWhen(start, evs);
    QuietMeansFlushed(s);
    hide Inv, Run, Path, GivenUpAt, Quiet;
  }

  // ---------------------------------------------------------------- the chain of attempts

  /** One attempt of a background flush, and the position of the event that ended it. */
  datatype Attempt = Attempt(task: nat, end: nat)

  /** The attempt with the given number of retries ended while entries were left. */
  predicate EndsBehind(s: Store, evs: seq<Event>, a: Attempt, retries: nat) {
    && a.end < |evs| && Before(s, evs, a.end).Some? && IsBehind(Before(s, evs, a.end).value, a.task, retries)
    && evs[a.end] in {FileMade(a.task, false), LockFailed(a.task), Released(a.task)}
  }

  predicate IsBehind(m: Store, t: nat, retries: nat) {
    t < |m.tasks| && m.tasks[t].kind == Background(retries) && m.pending != []
  }

  /** A flush was started when another one woke. */
  predicate StartedBy(s: Store, evs: seq<Event>, t: nat, w: nat, waker: nat) {
    w < |evs| && evs[w] == Wake(waker) && Before(s, evs, w).Some? && |Before(s, evs, w).value.tasks| == t
  }

  /** Attempts of which each started when the one before it woke, and all of which ended behind. */
  ghost predicate Chain(s: Store, evs: seq<Event>, attempts: seq<Attempt>) {
    && (forall k: nat | k < |attempts| :: EndsBehind(s, evs, attempts[k], k))
    && (forall k: nat | 0 < k < |attempts| :: Linked(s, evs, attempts[k - 1], attempts[k]))
  }

  ghost predicate Linked(s: Store, evs: seq<Event>, a: Attempt, b: Attempt) {
    exists w: nat :: a.end < w < b.end && StartedBy(s, evs, b.task, w, a.task)
  }

  /** The flush is its chain's first, or the chain before it ended behind. */
  ghost predicate Born(s: Store, evs: seq<Event>, t: nat, retries: nat) {
    retries == 0 || exists attempts: seq<Attempt>, w: nat :: BornOf(s, evs, t, retries, attempts, w)
  }

  ghost predicate BornOf(s: Store, evs: seq<Event>, t: nat, retries: nat, attempts: seq<Attempt>, w: nat) {
    && |attempts| == retries > 0 && Chain(s, evs, attempts)
    && attempts[retries - 1].end < w && StartedBy(s, evs, t, w, attempts[retries - 1].task)
  }

  ghost predicate ChainTo(s: Store, evs: seq<Event>, t: nat, retries: nat, attempts: seq<Attempt>) {
    |attempts| == retries + 1 && Chain(s, evs, attempts) && attempts[retries].task == t
  }

  ghost predicate Tracked(s: Store, evs: seq<Event>, m: Store) {
    forall t: nat | t < |m.tasks| && m.tasks[t].kind.Background? ::
      && Born(s, evs, t, m.tasks[t].kind.retries)
      && (m.tasks[t].pc == Sleeping ==> exists attempts :: ChainTo(s, evs, t, m.tasks[t].kind.retries, attempts))
  }

  lemma BeforeMore(s: Store, evs: seq<Event>, ev: Event, i: nat)
    requires i <= |evs|
    ensures Before(s, evs + [ev], i) == Before(s, evs, i)
  {
    assert (evs + [ev])[..i] == evs[..i];
  }

  lemma EndsMore(s: Store, evs: seq<Event>, ev: Event, a: Attempt, retries: nat)
    requires EndsBehind(s, evs, a, retries)
    ensures EndsBehind(s, evs + [ev], a, retries)
  {
    BeforeMore(s, evs, ev, a.end);
    hide Before;
  }

  lemma StartedMore(s: Store, evs: seq<Event>, ev: Event, t: nat, w: nat, waker: nat)
    requires StartedBy(s, evs, t, w, waker)
    ensures StartedBy(s, evs + [ev], t, w, waker)
  {
    BeforeMore(s, evs, ev, w);
    hide Before;
  }

  /** A chain stays a chain when the run goes on. */
  lemma ChainMore(s: Store, evs: seq<Event>, ev: Event, attempts: seq<Attempt>)
    requires Chain(s, evs, attempts)
    ensures Chain(s, evs + [ev], attempts)
  {
    hide EndsBehind, StartedBy;
    forall k: nat | k < |attempts| ensures EndsBehind(s, evs + [ev], attempts[k], k) {
      EndsMore(s, evs, ev, attempts[k], k);
    }
    forall k: nat | 0 < k < |attempts| ensures Linked(s, evs + [ev], attempts[k - 1], attempts[k]) {
      assert Linked(s, evs, attempts[k - 1], attempts[k]);
      var w: nat :|
        attempts[k - 1].end < w < attempts[k].end && StartedBy(s, evs, attempts[k].task, w, attempts[k - 1].task);
      StartedMore(s, evs, ev, attempts[k].task, w, attempts[k - 1].task);
    }
  }

  lemma BornMore(s: Store, evs: seq<Event>, ev: Event, t: nat, retries: nat)
    requires Born(s, evs, t, retries)
    ensures Born(s, evs + [ev], t, retries)
  {
    hide Chain, StartedBy;
    if retries > 0 {
      var attempts: seq<Attempt>, w: nat :| BornOf(s, evs, t, retries, attempts, w);
      ChainMore(s, evs, ev, attempts);
      StartedMore(s, evs, ev, t, w, attempts[retries - 1].task);
      assert BornOf(s, evs + [ev], t, retries, attempts, w);
    }
  }

  /** An attempt that ends behind extends its chain. */
  lemma ChainEnds(s: Store, evs: seq<Event>, ev: Event, t: nat, retries: nat) returns (attempts: seq<Attempt>)
    requires Born(s, evs, t, retries) && EndsBehind(s, evs + [ev], Attempt(t, |evs|), retries)
    ensures ChainTo(s, evs + [ev], t, retries, attempts)
  {
    hide EndsBehind, StartedBy;
    attempts := [Attempt(t, |evs|)];
    if retries > 0 {
      var before: seq<Attempt>, w: nat :| BornOf(s, evs, t, retries, before, w);
      ChainMore(s, evs, ev, before);
      StartedWithin(s, evs, t, w, before[retries - 1].task);
      StartedMore(s, evs, ev, t, w, before[retries - 1].task);
      attempts := before + [Attempt(t, |evs|)];
      assert Linked(s, evs + [ev], before[retries - 1], Attempt(t, |evs|));
    }
  }

  lemma StartedWithin(s: Store, evs: seq<Event>, t: nat, w: nat, waker: nat)
    requires StartedBy(s, evs, t, w, waker)
    ensures w < |evs|
  {
  }

  /** What one event does to the calls that exist, and which one it adds. */
  lemma TasksAfter(m: Store, ev: Event, t: nat)
    requires Enabled(m, ev)
    ensures |m.tasks| <= |Apply(m, ev).tasks| <= |m.tasks| + 1
    ensures t < |m.tasks| ==> Apply(m, ev).tasks[t].kind == m.tasks[t].kind
    ensures t < |m.tasks| && Apply(m, ev).tasks[t].pc == Sleeping ==>
              m.tasks[t].pc == Sleeping
              || (m.tasks[t].kind.Background? && m.pending != []
                  && ev in {FileMade(t, false), LockFailed(t), Released(t)})
    ensures t == |m.tasks| < |Apply(m, ev).tasks| ==>
              var task := Apply(m, ev).tasks[t];
              && task.pc != Sleeping
              && (task.kind.Background? ==>
                    task.kind.retries == 0
                    || (ev.Wake? && At(m, ev.task) == Sleeping && m.tasks[ev.task].kind.Background?
                        && task.kind.retries == m.tasks[ev.task].kind.retries + 1))
  {
    hide LastIndexOf, FinishFlush, StartFlush;
    match ev
    case Add(d, ts, p) =>
      var e := LogEntry(|m.added|, Record(d, ts, p, Some(m.session)));
      StartTasks(m.(pending := m.pending + [e], lastAdded := Some(e), added := m.added + [e], gaveUp := false), 0);
    case FileMade(u, ok) => FinishTasks(m, u);
    case LockFailed(u) => FinishTasks(m, u);
    case Released(u) => FinishTasks(m.(lock := None), u);
    case Wake(u) => StartTasks(SetPc(m, u, Done), m.tasks[u].kind.retries + 1);
    case _ =>
  }

  lemma StartTasks(s: Store, retries: nat)
    ensures exists pc :: StartFlush(s, retries).tasks == s.tasks + [Task(Background(retries), pc)] && pc != Sleeping
  {
    assert StartFlush(s, retries).tasks[|s.tasks|].pc != Sleeping;
  }

  lemma FinishTasks(s: Store, u: nat)
    requires u < |s.tasks|
    ensures exists pc :: FinishFlush(s, u).tasks == s.tasks[u := s.tasks[u].(pc := pc)]
              && (pc == Sleeping ==> s.tasks[u].kind.Background? && s.pending != [])
  {
    assert FinishFlush(s, u).tasks == s.tasks[u := s.tasks[u].(pc := FinishFlush(s, u).tasks[u].pc)];
  }

  lemma TrackedNext(s: Store, evs: seq<Event>, ev: Event, m: Store)
    requires Path(s, evs) == Some(m) && Enabled(m, ev) && Tracked(s, evs, m)
    ensures Tracked(s, evs + [ev], Apply(m, ev))
  {
    var m' := Apply(m, ev);
    hide Born, Chain, Apply, Enabled, Path;
    forall t: nat | t < |m'.tasks| && m'.tasks[t].kind.Background?
      ensures Born(s, evs + [ev], t, m'.tasks[t].kind.retries)
      ensures m'.tasks[t].pc == Sleeping ==>
                exists attempts :: ChainTo(s, evs + [ev], t, m'.tasks[t].kind.retries, attempts)
    {
      TasksAfter(m, ev, t);
      var r := m'.tasks[t].kind.retries;
      if t < |m.tasks| {
        BornMore(s, evs, ev, t, r);
        if m.tasks[t].pc == Sleeping {
          var attempts :| ChainTo(s, evs, t, r, attempts);
          ChainMore(s, evs, ev, attempts);
          assert ChainTo(s, evs + [ev], t, r, attempts);
        } else if m'.tasks[t].pc == Sleeping {
          EndsHere(s, evs, ev, m, t);
          var attempts := ChainEnds(s, evs, ev, t, r);
        }
      } else {
        NewBorn(s, evs, ev, m, r);
      }
    }
  }

  lemma EndsHere(s: Store, evs: seq<Event>, ev: Event, m: Store, t: nat)
    requires Path(s, evs) == Some(m) && t < |m.tasks| && m.tasks[t].kind.Background? && m.pending != []
    requires ev in {FileMade(t, false), LockFailed(t), Released(t)}
    ensures EndsBehind(s, evs + [ev], Attempt(t, |evs|), m.tasks[t].kind.retries)
  {
    assert (evs + [ev])[..|evs|] == evs;
  }

  lemma NewBorn(s: Store, evs: seq<Event>, ev: Event, m: Store, r: nat)
    requires Path(s, evs) == Some(m) && Tracked(s, evs, m)
    requires r == 0 || (ev.Wake? && At(m, ev.task) == Sleeping && m.tasks[ev.task].kind.Background?
                        && r == m.tasks[ev.task].kind.retries + 1)
    ensures Born(s, evs + [ev], |m.tasks|, r)
  {
    if r > 0 {
      var attempts :| ChainTo(s, evs, ev.task, r - 1, attempts);
      ChainMore(s, evs, ev, attempts);
      ChainWithin(s, evs, attempts);
      assert (evs + [ev])[..|evs|] == evs;
      assert StartedBy(s, evs + [ev], |m.tasks|, |evs|, ev.task);
      hide Chain, Path, StartedBy;
      assert BornOf(s, evs + [ev], |m.tasks|, r, attempts, |evs|);
    }
  }

  lemma ChainWithin(s: Store, evs: seq<Event>, attempts: seq<Attempt>)
    requires Chain(s, evs, attempts) && attempts != []
    ensures attempts[|attempts| - 1].end < |evs|
  {
    assert EndsBehind(s, evs, attempts[|attempts| - 1], |attempts| - 1);
  }

  lemma {:induction false} PathTracked(s: Store, evs: seq<Event>)
    requires s.tasks == [] && Path(s, evs).Some?
    ensures Tracked(s, evs, Path(s, evs).value)
  {
    hide Tracked, Apply, Enabled;
    if evs == [] {
      NothingTracked(s);
    } else {
      var init := evs[..|evs| - 1];
      PathTracked(s, init);
      TrackedNext(s, init, evs[|evs| - 1], Path(s, init).value);
      assert init + [evs[|evs| - 1]] == evs;
    }
  }

  lemma NothingTracked(s: Store)
    requires s.tasks == []
    ensures Tracked(s, [], s)
  {
  }

  lemma {:induction false} KindStays(s: Store, evs: seq<Event>, i: nat, t: nat)
    requires Path(s, evs).Some? && i <= |evs| && Before(s, evs, i).Some? && t < |Before(s, evs, i).value.tasks|
    ensures t < |Path(s, evs).value.tasks|
    ensures Path(s, evs).value.tasks[t].kind == Before(s, evs, i).value.tasks[t].kind
    decreases |evs|
  {
    hide Apply, Enabled;
    if i == |evs| {
      assert evs[..i] == evs;
    } else {
      var init := evs[..|evs| - 1];
      assert init[..i] == evs[..i];
      KindStays(s, init, i, t);
      TasksAfter(Path(s, init).value, evs[|evs| - 1], t);
    }
  }

  /** Main result: a flush is out of retries exactly if it wakes with entries in the buffer and nobody
      writing them, as the last of six attempts of one chain, each of which ended while entries were
      left. Whether those attempts wrote what they had taken makes no difference. */
  lemma OutOfRetriesIff(session: string, disk: seq<Line>, evs: seq<Event>, m: Store, ev: Event)
    requires Path(Fresh(session, disk), evs) == Some(m) && Enabled(m, ev)
    ensures OutOfRetries(m, ev) <==>
              && ev.Wake? && m.pending != [] && !m.isWriting
              && exists attempts :: ChainTo(Fresh(session, disk), evs, ev.task, MAX_RETRIES, attempts)
  {
    var s := Fresh(session, disk);
    if ev.Wake? {
      PathTracked(s, evs);
      hide Chain, Path;
      assert At(m, ev.task) == Sleeping;
      if attempts :| ChainTo(s, evs, ev.task, MAX_RETRIES, attempts) {
        ChainKind(s, evs, attempts);
      }
    }
  }

  lemma ChainKind(s: Store, evs: seq<Event>, attempts: seq<Attempt>)
    requires Path(s, evs).Some? && Chain(s, evs, attempts) && attempts != []
    ensures var t := attempts[|attempts| - 1].task;
      t < |Path(s, evs).value.tasks| && Path(s, evs).value.tasks[t].kind == Background(|attempts| - 1)
  {
    var a := attempts[|attempts| - 1];
    assert EndsBehind(s, evs, a, |attempts| - 1);
    hide Path;
    KindStays(s, evs, a.end, a.task);
  }

  // ---------------------------------------------------------------- what becomes of the entries

  /** The next prompt starts a flush with all retries. */
  lemma NextPromptRevives(s: Store, display: string, timestamp: int, project: Option<string>)
    requires Inv(s) && Quiet(s)
    ensures var s' := Apply(s, Event.Add(display, timestamp, project));
      && !s'.gaveUp && s'.isWriting
      && s'.tasks == s.tasks + [Task(Background(0), MakingFile)]
  {
    QuietMeansFlushed(s);
    hide Inv;
  }

  /** The cleanup writes them, if file, lock and append succeed. */
  lemma CleanupWrites(s: Store) returns (s': Store)
    requires Inv(s) && Quiet(s) && s.pending != []
    ensures var t := |s.tasks|;
      Run(s, [StartCleanup, CleanupGo(t), FileMade(t, true), Locked(t), Appended(t, true)], s')
    ensures MineOf(s'.disk) == MineOf(s.disk) + s.pending && s'.pending == []
  {
    QuietMeansFlushed(s);
    var t := |s.tasks|;
    var s1 := Apply(s, StartCleanup);
    var s2 := Apply(s1, CleanupGo(t));
    assert s2.pending == s.pending && At(s2, t) == MakingFile && s2.lock == None && s2.disk == s.disk;
    s' := WritesAll(s2, t);
    hide Apply, Enabled, Run;
    var writes := [FileMade(t, true), Locked(t), Appended(t, true)];
    RunCons(s1, CleanupGo(t), writes, s');
    RunCons(s, StartCleanup, [CleanupGo(t)] + writes, s');
    assert [StartCleanup] + ([CleanupGo(t)] + writes)
        == [StartCleanup, CleanupGo(t), FileMade(t, true), Locked(t), Appended(t, true)];
  }

  lemma RunCons(s: Store, ev: Event, evs: seq<Event>, s': Store)
    requires Enabled(s, ev) && Run(Apply(s, ev), evs, s')
    ensures Run(s, [ev] + evs, s')
  {
    assert ([ev] + evs)[1..] == evs;
    hide Apply, Enabled;
  }

  lemma WritesAll(s: Store, t: nat) returns (s': Store)
    requires At(s, t) == MakingFile && s.lock == None
    ensures Run(s, [FileMade(t, true), Locked(t), Appended(t, true)], s')
    ensures MineOf(s'.disk) == MineOf(s.disk) + s.pending && s'.pending == []
  {
    hide MineOf, Run;
    var s1 := Apply(s, FileMade(t, true));
    var s2 := Apply(s1, Locked(t));
    s' := Apply(s2, Appended(t, true));
    MineOfConcat(s.disk, Lines(s.pending));
    MineOfLines(s.pending);
    NoRun(s');
    hide Apply, Enabled;
    RunCons(s2, Appended(t, true), [], s');
    RunCons(s1, Locked(t), [Appended(t, true)] + [], s');
    RunCons(s, FileMade(t, true), [Locked(t)] + ([Appended(t, true)] + []), s');
    assert [FileMade(t, true)] + ([Locked(t)] + ([Appended(t, true)] + []))
        == [FileMade(t, true), Locked(t), Appended(t, true)];
  }

  lemma NoRun(s: Store)
    ensures Run(s, [], s)
  {
  }

  // ---------------------------------------------------------------- a run without any failure

  /** A step in which no file, lock or append failure occurs. */
  predicate Succeeds(ev: Event) {
    !ev.LockFailed? && !(ev.FileMade? && !ev.ok) && !Destroys(ev)
  }

  ghost predicate Leads(s: Store, s': Store) {
    exists evs :: Run(s, evs, s') && forall ev | ev in evs :: Succeeds(ev)
  }

  lemma LeadsStep(s: Store, m: Store, ev: Event)
    requires Leads(s, m) && Enabled(m, ev) && Succeeds(ev)
    ensures Leads(s, Apply(m, ev))
  {
    hide Apply, Enabled;
    var evs :| Run(s, evs, m) && forall x | x in evs :: Succeeds(x);
    assert Run(Apply(m, ev), [], Apply(m, ev));
    assert Run(m, [ev], Apply(m, ev)) by { assert [ev][1..] == []; }
    RunConcat(s, evs, m, [ev], Apply(m, ev));
    assert forall x | x in evs + [ev] :: Succeeds(x);
  }

  /** The latest flush sleeps after its attempt number `retries`, with one entry left to write. */
  ghost predicate Behind(s: Store, retries: nat) {
    && s.lock == None && !s.isWriting && |s.pending| == 1
    && exists t :: 0 <= t < |s.tasks| && s.tasks[t] == Task(Background(retries), Sleeping)
         && forall u | 0 <= u < |s.tasks| && u != t :: s.tasks[u].pc == Done
  }

  /** One flush whose every step succeeds, with one prompt arriving while it appends. */
  lemma OneRound(start: Store, s: Store, u: nat, r: nat) returns (s': Store)
    requires Leads(start, s) && s.lock == None && s.isWriting && |s.pending| == 1
    requires u < |s.tasks| && s.tasks[u] == Task(Background(r), MakingFile)
    requires forall v | 0 <= v < |s.tasks| && v != u :: s.tasks[v].pc == Done
    ensures Leads(start, s') && Behind(s', r)
  {
    hide Leads;
    var s1 := Apply(s, FileMade(u, true));
    LeadsStep(start, s, FileMade(u, true));
    var s2 := Apply(s1, Locked(u));
    LeadsStep(start, s1, Locked(u));
    var add := Event.Add("", 0, None);
    var s3 := Apply(s2, add);
    LeadsStep(start, s2, add);
    s' := RoundEnds(start, s3, u, r);
  }

  lemma RoundEnds(start: Store, s: Store, u: nat, r: nat) returns (s': Store)
    requires Leads(start, s) && |s.pending| == 1
    requires u < |s.tasks| && s.tasks[u].kind == Background(r) && s.tasks[u].pc.Appending?
    requires forall v | 0 <= v < |s.tasks| && v != u :: s.tasks[v].pc == Done
    ensures Leads(start, s') && Behind(s', r)
  {
    hide Leads;
    var s1 := Apply(s, Appended(u, true));
    LeadsStep(start, s, Appended(u, true));
    s' := Apply(s1, Released(u));
    LeadsStep(start, s1, Released(u));
    assert s'.tasks[u] == Task(Background(r), Sleeping);
  }

  lemma NextRound(start: Store, s: Store, r: nat) returns (s': Store)
    requires Leads(start, s) && Behind(s, r) && r < MAX_RETRIES
    ensures Leads(start, s') && Behind(s', r + 1)
  {
    var t :| 0 <= t < |s.tasks| && s.tasks[t] == Task(Background(r), Sleeping)
             && forall u | 0 <= u < |s.tasks| && u != t :: s.tasks[u].pc == Done;
    LeadsStep(start, s, Wake(t));
    s' := OneRound(start, Apply(s, Wake(t)), |s.tasks|, r + 1);
  }

  lemma {:induction false} Rounds(start: Store, s: Store, r: nat) returns (s': Store)
    requires Leads(start, s) && Behind(s, r) && r <= MAX_RETRIES
    ensures Leads(start, s') && Behind(s', MAX_RETRIES)
    decreases MAX_RETRIES - r
  {
    s' := s;
    if r < MAX_RETRIES {
      s' := NextRound(start, s, r);
      s' := Rounds(start, s', r + 1);
    }
  }

  /** Retries count flushes and not failures: when a prompt arrives during each of six flushes that all
      succeed, the last prompt stays in the buffer until the next prompt or the cleanup. */
  lemma GivesUpWithoutFailure(session: string) returns (s: Store)
    ensures Leads(Fresh(session, []), s) && Quiet(s) && s.gaveUp && |s.pending| == 1
  {
    var start := Fresh(session, []);
    assert Run(start, [], start);
    assert Leads(start, start);
    var add := Event.Add("", 0, None);
    LeadsStep(start, start, add);
    var m := OneRound(start, Apply(start, add), 0, 0);
    hide Leads, Behind, Apply;
    m := Rounds(start, m, 0);
    s := LastWake(start, m);
  }

  lemma LastWake(start: Store, m: Store) returns (s: Store)
    requires Leads(start, m) && Behind(m, MAX_RETRIES)
    ensures Leads(start, s) && Quiet(s) && s.gaveUp && |s.pending| == 1
  {
    hide Leads;
    var t :| 0 <= t < |m.tasks| && m.tasks[t] == Task(Background(MAX_RETRIES), Sleeping)
             && forall u | 0 <= u < |m.tasks| && u != t :: m.tasks[u].pc == Done;
    LeadsStep(start, m, Wake(t));
    s := Apply(m, Wake(t));
  }
}
