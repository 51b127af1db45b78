/** Several query loops draining one command queue, with arbitrary steps of the others between the moment
    a loop looks at the queue and the moment it takes what it saw. */
module CommandRuns {
  import opened Options
  import opened CommandQueue

  /** One loop: what it is about to take, and the lifecycle notices it has sent. */
  datatype Drain = Drain(
    who: Drainer,
    pending: Option<seq<Command>>,
    started: seq<nat>,
    completed: seq<nat>,
    finished: bool)

  datatype Entry = Entry(loop: nat, command: Command)

  /** The shared queue, the loops, and the history of commands: all that arrived, those taken by loops,
      and those that other consumers removed. */
  datatype World = World(
    queue: seq<Command>,
    loops: seq<Drain>,
    arrived: seq<Command>,
    log: seq<Entry>,
    outside: seq<Command>)

  datatype Event =
    | Enqueue(command: Command)
    | Look(loop: nat, sleepRan: bool)
    | Take(loop: nat)
    | Return(loop: nat)
    | Throw(loop: nat)
    | RemoveOutside(at: nat)

  function Fresh(who: Drainer): Drain { Drain(who, None, [], [], false) }

  function Start(drainers: seq<Drainer>): World {
    World([], seq(|drainers|, i requires 0 <= i < |drainers| => Fresh(drainers[i])), [], [], [])
  }

  function Entries(loop: nat, cs: seq<Command>): seq<Entry> {
    seq(|cs|, i requires 0 <= i < |cs| => Entry(loop, cs[i]))
  }

  function Uuids(cs: seq<Command>): seq<nat> {
    if cs == [] then []
    else Uuids(cs[..|cs| - 1]) + if cs[|cs| - 1].uuid.Some? then [cs[|cs| - 1].uuid.value] else []
  }

  predicate Idle(w: World, i: nat) {
    i < |w.loops| && !w.loops[i].finished && w.loops[i].pending.None?
  }

  predicate Enabled(w: World, e: Event) {
    match e
    case Enqueue(_) => true
    case Look(i, _) => Idle(w, i)
    case Take(i) => i < |w.loops| && !w.loops[i].finished && w.loops[i].pending.Some?
    case Return(i) => Idle(w, i)
    case Throw(i) => i < |w.loops| && !w.loops[i].finished
    case RemoveOutside(k) => k < |w.queue|
  }

  function Apply(w: World, e: Event): World
    requires Enabled(w, e)
  {
    match e
    case Enqueue(c) =>
      var d := c.(serial := |w.arrived|);
      w.(queue := w.queue + [d], arrived := w.arrived + [d])
    case Look(i, sleepRan) =>
      var seen := Consumed(Snapshot(w.queue, w.loops[i].who, sleepRan));
      w.(loops := w.loops[i := w.loops[i].(pending := Some(seen))])
    case Take(i) =>
      var cs := w.loops[i].pending.value;
      w.(queue := Without(w.queue, cs), log := w.log + Entries(i, cs),
         loops := w.loops[i := w.loops[i].(pending := None, started := w.loops[i].started + Uuids(cs))])
    case Return(i) =>
      w.(loops := w.loops[i := w.loops[i].(completed := w.loops[i].started, finished := true)])
    case Throw(i) =>
      w.(loops := w.loops[i := w.loops[i].(pending := None, finished := true)])
    case RemoveOutside(k) =>
      w.(queue := w.queue[..k] + w.queue[k + 1..], outside := w.outside + [w.queue[k]])
  }

  ghost predicate Runs(w: World, events: seq<Event>, w': World)
    decreases |events|
  {
    if events == [] then w' == w
    else Enabled(w, events[0]) && Runs(Apply(w, events[0]), events[1..], w')
  }

  // ---------------------------------------------------------------- what is to hold

  /** The address a loop drains: the main thread drains what has no agent. */
  function Address(who: Drainer): Option<nat> {
    if who.Main? then None else who.agent
  }

  predicate PairwiseDistinct(drainers: seq<Drainer>) {
    forall i, j | 0 <= i < j < |drainers| :: Address(drainers[i]) != Address(drainers[j])
  }

  /** No command is taken twice. */
  ghost predicate Once(log: seq<Entry>) {
    forall a, b | 0 <= a < b < |log| :: log[a].command != log[b].command
  }

  // ---------------------------------------------------------------- subsequences

  ghost predicate Increasing(cs: seq<Command>) {
    forall a, b | 0 <= a < b < |cs| :: cs[a].serial < cs[b].serial
  }

  ghost predicate AllBelow(cs: seq<Command>, n: nat) {
    forall c | c in cs :: c.serial < n
  }

  lemma IncreasingInit(cs: seq<Command>)
    requires Increasing(cs) && cs != []
    ensures Increasing(cs[..|cs| - 1]) && AllBelow(cs[..|cs| - 1], cs[|cs| - 1].serial)
    ensures Increasing(cs[1..]) && forall c | c in cs[1..] :: cs[0].serial < c.serial
  {
  }

  lemma IncreasingSnoc(cs: seq<Command>, c: Command)
    requires Increasing(cs) && AllBelow(cs, c.serial)
    ensures Increasing(cs + [c])
  {
  }

  lemma {:induction false} FilterIncreasing(cs: seq<Command>, keep: Command -> bool)
    requires Increasing(cs)
    ensures Increasing(Filter(cs, keep))
  {
    if cs != [] {
      IncreasingInit(cs);
      FilterIncreasing(cs[..|cs| - 1], keep);
      if keep(cs[|cs| - 1]) {
        IncreasingSnoc(Filter(cs[..|cs| - 1], keep), cs[|cs| - 1]);
      }
    }
  }

  lemma {:induction false} AttachIncreasing(cs: seq<Command>)
    requires Increasing(cs)
    ensures Increasing(AttachNow(cs)) && forall c | c in AttachNow(cs) :: c in cs
  {
    if cs != [] {
      IncreasingInit(cs);
      AttachIncreasing(cs[..|cs| - 1]);
      hide IsTaken;
      if IsTaken(cs[..|cs| - 1], cs[|cs| - 1]) {
        IncreasingSnoc(AttachNow(cs[..|cs| - 1]), cs[|cs| - 1]);
      }
    }
  }

  lemma {:induction false} WithoutIncreasing(queue: seq<Command>, gone: seq<Command>)
    requires Increasing(queue)
    ensures Increasing(Without(queue, gone))
  {
    if queue != [] {
      IncreasingInit(queue);
      WithoutIncreasing(queue[1..], gone);
      assert forall c | c in Without(queue[1..], gone) :: queue[0].serial < c.serial;
    }
  }

  /** What a loop is about to take: distinct commands of the queue that are addressed to it. */
  lemma Seen(queue: seq<Command>, who: Drainer, sleepRan: bool)
    requires Increasing(queue)
    ensures var seen := Consumed(Snapshot(queue, who, sleepRan));
      && Increasing(seen)
      && forall c | c in seen :: c in queue && Addressed(who, c) && IsConsumed(c)
  {
    var snapshot := Snapshot(queue, who, sleepRan);
    FilterIncreasing(queue, (c: Command) => Visible(who, sleepRan, c));
    assert Increasing(snapshot);
    AttachIncreasing(snapshot);
    FilterIncreasing(AttachNow(snapshot), IsConsumed);
    hide Filter, AttachNow;
  }

  // ---------------------------------------------------------------- the invariant

  predicate Logged(log: seq<Entry>, c: Command) { exists e :: e in log && e.command == c }

  ghost predicate Roster(w: World, drainers: seq<Drainer>) {
    |w.loops| == |drainers| && forall i | 0 <= i < |drainers| :: w.loops[i].who == drainers[i]
  }

  ghost predicate Queued(w: World) {
    Increasing(w.queue) && AllBelow(w.queue, |w.arrived|)
  }

  /** A command that a loop took or is about to take. */
  predicate Proper(who: Drainer, c: Command, arrived: nat) {
    Addressed(who, c) && IsConsumed(c) && c.serial < arrived
  }

  ghost predicate LogOk(w: World) {
    forall e | e in w.log ::
      e.loop < |w.loops| && Proper(w.loops[e.loop].who, e.command, |w.arrived|) && e.command !in w.queue
  }

  ghost predicate OutsideOk(w: World) {
    forall c | c in w.outside :: c.serial < |w.arrived| && c !in w.queue
  }

  ghost predicate PendingOk(d: Drain, arrived: nat) {
    d.pending.Some? ==> Increasing(d.pending.value) && forall c | c in d.pending.value :: Proper(d.who, c, arrived)
  }

  ghost predicate AllPendingOk(w: World) {
    forall i | 0 <= i < |w.loops| :: PendingOk(w.loops[i], |w.arrived|)
  }

  /** Every command that arrived is still queued, or was taken by a loop or by another consumer. */
  ghost predicate Kept(w: World) {
    forall c | c in w.arrived :: c in w.queue || c in w.outside || Logged(w.log, c)
  }

  ghost predicate Sound(w: World, drainers: seq<Drainer>) {
    Roster(w, drainers) && Queued(w) && LogOk(w) && OutsideOk(w) && AllPendingOk(w) && Kept(w)
  }

  lemma LoggedMore(log: seq<Entry>, more: seq<Entry>, c: Command)
    ensures Logged(log + more, c) <==> Logged(log, c) || Logged(more, c)
  {
    if Logged(log, c) {
      var e :| e in log && e.command == c;
      assert e in log + more;
    }
    if Logged(more, c) {
      var e :| e in more && e.command == c;
      assert e in log + more;
    }
  }

  lemma LoggedEntries(loop: nat, cs: seq<Command>, c: Command)
    ensures Logged(Entries(loop, cs), c) <==> c in cs
  {
    if c in cs {
      var k: nat :| k < |cs| && cs[k] == c;
      assert Entries(loop, cs)[k] == Entry(loop, c);
    }
  }

  lemma EnqueueSound(w: World, c: Command, drainers: seq<Drainer>)
    requires Sound(w, drainers)
    ensures Sound(Apply(w, Enqueue(c)), drainers)
  {
    var d := c.(serial := |w.arrived|);
    IncreasingSnoc(w.queue, d);
    var w' := Apply(w, Enqueue(c));
    assert d in w'.queue && forall x | x in w.queue :: x in w'.queue;
    hide Increasing, Addressed, IsConsumed, Logged;
  }

  lemma LookSound(w: World, i: nat, sleepRan: bool, drainers: seq<Drainer>)
    requires Sound(w, drainers) && Enabled(w, Look(i, sleepRan))
    ensures Sound(Apply(w, Look(i, sleepRan)), drainers)
  {
    Seen(w.queue, w.loops[i].who, sleepRan);
    hide Increasing, Addressed, IsConsumed, Logged, Consumed, Snapshot;
  }

  lemma TakeSound(w: World, i: nat, drainers: seq<Drainer>)
    requires Sound(w, drainers) && Enabled(w, Take(i))
    ensures Sound(Apply(w, Take(i)), drainers)
  {
    var cs := w.loops[i].pending.value;
    var w' := Apply(w, Take(i));
    WithoutIncreasing(w.queue, cs);
    assert PendingOk(w.loops[i], |w.arrived|);
    hide Increasing, Addressed, IsConsumed, Logged, Without, Uuids;
    forall c | c in w.arrived ensures c in w'.queue || c in w'.outside || Logged(w'.log, c) {
      LoggedMore(w.log, Entries(i, cs), c);
      LoggedEntries(i, cs, c);
    }
    forall e | e in w'.log
      ensures e.loop < |w'.loops| && Proper(w'.loops[e.loop].who, e.command, |w'.arrived|) && e.command !in w'.queue
    {
      if e in w.log {
      } else {
        assert e in Entries(i, cs);
      }
    }
  }

  lemma LeaveSound(w: World, e: Event, drainers: seq<Drainer>)
    requires Sound(w, drainers) && Enabled(w, e) && (e.Return? || e.Throw?)
    ensures Sound(Apply(w, e), drainers)
  {
    hide Increasing, Addressed, IsConsumed, Logged;
  }

  lemma DropAtIncreasing(queue: seq<Command>, k: nat)
    requires Increasing(queue) && k < |queue|
    ensures var rest := queue[..k] + queue[k + 1..];
      && Increasing(rest) && forall c :: c in rest <==> c in queue && c != queue[k]
  {
    var rest := queue[..k] + queue[k + 1..];
    forall c ensures c in rest <==> c in queue && c != queue[k] {
      if c in queue && c != queue[k] {
        var j: nat :| j < |queue| && queue[j] == c;
        assert if j < k then rest[j] == c else rest[j - 1] == c;
      }
    }
  }

  lemma OutsideSound(w: World, k: nat, drainers: seq<Drainer>)
    requires Sound(w, drainers) && k < |w.queue|
    ensures Sound(Apply(w, RemoveOutside(k)), drainers)
  {
    DropAtIncreasing(w.queue, k);
    hide Increasing, Addressed, IsConsumed, Logged;
  }

  lemma StepSound(w: World, e: Event, drainers: seq<Drainer>)
    requires Sound(w, drainers) && Enabled(w, e)
    ensures Sound(Apply(w, e), drainers)
  {
    hide Sound, Apply;
    match e
    case Enqueue(c) => EnqueueSound(w, c, drainers);
    case Look(i, sleepRan) => LookSound(w, i, sleepRan, drainers);
    case Take(i) => TakeSound(w, i, drainers);
    case Return(i) => LeaveSound(w, e, drainers);
    case Throw(i) => LeaveSound(w, e, drainers);
    case RemoveOutside(k) => OutsideSound(w, k, drainers);
  }

  lemma StartSound(drainers: seq<Drainer>)
    ensures Sound(Start(drainers), drainers)
  {
  }

  // ---------------------------------------------------------------- at most once

  /** No command is addressed to two loops with different addresses. */
  lemma AddressedToOne(a: Drainer, b: Drainer, c: Command)
    requires Addressed(a, c) && Addressed(b, c)
    ensures Address(a) == Address(b) == c.agent
  {
  }

  /** What a loop is about to take has not been taken. */
  ghost predicate Untaken(w: World) {
    forall i, c | 0 <= i < |w.loops| && w.loops[i].pending.Some? && c in w.loops[i].pending.value :: !Logged(w.log, c)
  }

  ghost predicate Exclusive(w: World) {
    Untaken(w) && Once(w.log)
  }

  lemma LookExclusive(w: World, i: nat, sleepRan: bool, drainers: seq<Drainer>)
    requires Sound(w, drainers) && Exclusive(w) && Enabled(w, Look(i, sleepRan))
    ensures Exclusive(Apply(w, Look(i, sleepRan)))
  {
    Seen(w.queue, w.loops[i].who, sleepRan);
    hide Increasing, Addressed, IsConsumed, Consumed, Snapshot, Proper;
  }

  lemma OnceMore(log: seq<Entry>, loop: nat, cs: seq<Command>)
    requires Once(log) && Increasing(cs) && forall c | c in cs :: !Logged(log, c)
    ensures Once(log + Entries(loop, cs))
  {
    var all := log + Entries(loop, cs);
    forall a, b | 0 <= a < b < |all| ensures all[a].command != all[b].command {
      if b < |log| {
      } else if a < |log| {
        assert log[a] in log && all[b].command in cs;
      } else {
        assert cs[a - |log|].serial < cs[b - |log|].serial;
      }
    }
  }

  lemma TakeExclusive(w: World, i: nat, drainers: seq<Drainer>)
    requires Sound(w, drainers) && Exclusive(w) && Enabled(w, Take(i)) && PairwiseDistinct(drainers)
    ensures Exclusive(Apply(w, Take(i)))
  {
    var cs := w.loops[i].pending.value;
    var w' := Apply(w, Take(i));
    assert PendingOk(w.loops[i], |w.arrived|);
    OnceMore(w.log, i, cs);
    hide Increasing, Once, Logged, Without, Uuids, IsConsumed, LogOk, Kept, Queued, OutsideOk;
    forall j, c | 0 <= j < |w'.loops| && w'.loops[j].pending.Some? && c in w'.loops[j].pending.value
      ensures !Logged(w'.log, c)
    {
      assert j != i && w'.loops[j] == w.loops[j] && PendingOk(w.loops[j], |w.arrived|);
      LoggedMore(w.log, Entries(i, cs), c);
      LoggedEntries(i, cs, c);
      if c in cs {
        hide Addressed;
        AddressedToOne(w.loops[i].who, w.loops[j].who, c);
      }
    }
  }

  lemma StepExclusive(w: World, e: Event, drainers: seq<Drainer>)
    requires Sound(w, drainers) && Exclusive(w) && Enabled(w, e) && PairwiseDistinct(drainers)
    ensures Exclusive(Apply(w, e))
  {
    if e.Look? {
      hide *;
      LookExclusive(w, e.loop, e.sleepRan, drainers);
    } else if e.Take? {
      hide *;
      TakeExclusive(w, e.loop, drainers);
    } else {
      hide Once, Logged, LogOk, Kept, Queued, OutsideOk, AllPendingOk;
    }
  }

  lemma {:induction false} RunExclusive(w: World, events: seq<Event>, w': World, drainers: seq<Drainer>)
    requires Runs(w, events, w') && Sound(w, drainers)
    ensures Sound(w', drainers)
    ensures PairwiseDistinct(drainers) && Exclusive(w) ==> Exclusive(w')
    decreases |events|
  {
    hide Sound, Exclusive, Apply;
    if events != [] {
      StepSound(w, events[0], drainers);
      if PairwiseDistinct(drainers) && Exclusive(w) {
        StepExclusive(w, events[0], drainers);
      }
      RunExclusive(Apply(w, events[0]), events[1..], w', drainers);
    }
  }

  // ---------------------------------------------------------------- a shared address

  /** A notification for whoever drains the given address. */
  function NoticeFor(who: Drainer): Command {
    Command(0, None, TaskNotification, Now, Address(who), false, false, Unclassified)
  }

  lemma SeesNotice(who: Drainer)
    ensures Consumed(Snapshot([NoticeFor(who)], who, false)) == [NoticeFor(who)]
  {
    var c := NoticeFor(who);
    assert Addressed(who, c) && Visible(who, false, c) && IsConsumed(c);
    FilterOne(c, (c: Command) => Visible(who, false, c));
    assert Snapshot([c], who, false) == [c];
    assert [c][..0] == [] && AttachNow([c]) == [c];
    FilterOne(c, IsConsumed);
  }

  lemma FilterOne(c: Command, keep: Command -> bool)
    ensures Filter([c], keep) == if keep(c) then [c] else []
  {
    assert [c][..0] == [];
  }

  lemma {:induction false} RunsConcat(w0: World, first: seq<Event>, w1: World, second: seq<Event>, w2: World)
    requires Runs(w0, first, w1) && Runs(w1, second, w2)
    ensures Runs(w0, first + second, w2)
    decreases |first|
  {
    hide Apply, Enabled;
    if first == [] {
      assert first + second == second;
    } else {
      RunsConcat(Apply(w0, first[0]), first[1..], w1, second, w2);
      assert (first + second)[1..] == first[1..] + second;
    }
  }

  lemma RunsOne(w: World, e: Event)
    requires Enabled(w, e)
    ensures Runs(w, [e], Apply(w, e))
  {
    assert [e][1..] == [];
  }

  /** A loop that looks at a queue with one command for it is about to take that command. */
  lemma LooksAt(w: World, i: nat, c: Command) returns (w': World)
    requires w.queue == [c] && Idle(w, i) && c == NoticeFor(w.loops[i].who)
    ensures Runs(w, [Look(i, false)], w')
    ensures w' == w.(loops := w.loops[i := w.loops[i].(pending := Some([c]))])
  {
    SeesNotice(w.loops[i].who);
    hide Consumed, Snapshot;
    w' := Apply(w, Look(i, false));
    hide Apply;
    RunsOne(w, Look(i, false));
  }

  /** Two loops with the same address, looking one after the other, see the same notification. */
  lemma BothLook(drainers: seq<Drainer>, i: nat, j: nat) returns (c: Command, w: World)
    requires i < j < |drainers| && Address(drainers[i]) == Address(drainers[j])
    ensures Runs(Start(drainers), [Enqueue(c)] + [Look(i, false)] + [Look(j, false)], w)
    ensures w.log == [] && |w.loops| == |drainers|
    ensures forall k | k in {i, j} :: w.loops[k].pending == Some([c]) && !w.loops[k].finished
  {
    c := NoticeFor(drainers[i]);
    var w0 := Start(drainers);
    RunsOne(w0, Enqueue(c));
    var w1 := Apply(w0, Enqueue(c));
    assert w1.queue == [c];
    hide Runs;
    var w2 := LooksAt(w1, i, c);
    w := LooksAt(w2, j, c);
    hide *;
    RunsConcat(w0, [Enqueue(c)], w1, [Look(i, false)], w2);
    RunsConcat(w0, [Enqueue(c)] + [Look(i, false)], w2, [Look(j, false)], w);
  }

  lemma BothTake(w: World, i: nat, j: nat, c: Command) returns (w': World)
    requires i < j < |w.loops| && w.log == []
    requires forall k | k in {i, j} :: w.loops[k].pending == Some([c]) && !w.loops[k].finished
    ensures Runs(w, [Take(i)] + [Take(j)], w') && !Once(w'.log)
  {
    hide Without, Uuids;
    assert Enabled(w, Take(i));
    var w1 := Apply(w, Take(i));
    assert w1.log == [Entry(i, c)] && Enabled(w1, Take(j));
    w' := Apply(w1, Take(j));
    assert w'.log == [Entry(i, c), Entry(j, c)];
    assert w'.log[0].command == w'.log[1].command;
    RunsOne(w, Take(i));
    RunsOne(w1, Take(j));
    hide *;
    RunsConcat(w, [Take(i)], w1, [Take(j)], w');
  }

  /** Both loops look before either takes. */
  lemma SharedAddressTakesTwice(drainers: seq<Drainer>, i: nat, j: nat) returns (events: seq<Event>, w: World)
    requires i < j < |drainers| && Address(drainers[i]) == Address(drainers[j])
    ensures Runs(Start(drainers), events, w) && !Once(w.log)
  {
    hide *;
    var c, looked := BothLook(drainers, i, j);
    w := BothTake(looked, i, j, c);
    var looks := [Enqueue(c)] + [Look(i, false)] + [Look(j, false)];
    RunsConcat(Start(drainers), looks, looked, [Take(i)] + [Take(j)], w);
    events := looks + ([Take(i)] + [Take(j)]);
  }

  ghost predicate NeverTwice(drainers: seq<Drainer>) {
    forall events, w | Runs(Start(drainers), events, w) :: Once(w.log)
  }

  /** Main result: whatever the interleaving, no command is taken twice, exactly if no two loops drain the
      same address; a subagent without an id drains the address of the main thread. */
  lemma NeverTwiceIff(drainers: seq<Drainer>)
    ensures NeverTwice(drainers) <==> PairwiseDistinct(drainers)
  {
    if PairwiseDistinct(drainers) {
      forall events, w | Runs(Start(drainers), events, w) ensures Once(w.log) {
        StartSound(drainers);
        assert Exclusive(Start(drainers));
        hide Sound, Runs, Start;
        RunExclusive(Start(drainers), events, w, drainers);
      }
    } else {
      var i, j :| 0 <= i < j < |drainers| && Address(drainers[i]) == Address(drainers[j]);
      hide Runs, Start, Once;
      var events, w := SharedAddressTakesTwice(drainers, i, j);
      assert Runs(Start(drainers), events, w);
    }
  }

  /** Main result: no loop ever takes a slash command, and a subagent takes nothing but its own task
      notifications. */
  lemma OnlyOwnCommands(drainers: seq<Drainer>, events: seq<Event>, w: World, e: Entry)
    requires Runs(Start(drainers), events, w) && e in w.log
    ensures e.loop < |drainers| && !e.command.slash
    ensures drainers[e.loop].Main? ==> e.command.agent.None?
    ensures drainers[e.loop].Subagent? ==>
              e.command.mode == TaskNotification && e.command.agent == drainers[e.loop].agent
  {
    StartSound(drainers);
    hide Runs, Start, Increasing, Kept;
    RunExclusive(Start(drainers), events, w, drainers);
  }

  // ---------------------------------------------------------------- nothing is lost

  function Commands(log: seq<Entry>): seq<Command> {
    seq(|log|, i requires 0 <= i < |log| => log[i].command)
  }

  /** Every command that arrived is in exactly one place. */
  ghost predicate Conserved(w: World) {
    multiset(w.arrived) == multiset(w.queue) + multiset(Commands(w.log)) + multiset(w.outside)
  }

  /** A loop takes a command that it saw and that has left the queue since. */
  ghost predicate Stale(w: World, e: Event) {
    && e.Take? && e.loop < |w.loops| && w.loops[e.loop].pending.Some?
    && exists c :: c in w.loops[e.loop].pending.value && c !in w.queue
  }

  ghost predicate NeverStale(w: World, events: seq<Event>)
    decreases |events|
  {
    events != [] ==> !Stale(w, events[0]) && (Enabled(w, events[0]) ==> NeverStale(Apply(w, events[0]), events[1..]))
  }

  /** How many deliveries there are beyond the commands that arrived. */
  function Surplus(w: World): int {
    |w.queue| + |w.log| + |w.outside| - |w.arrived|
  }

  lemma {:induction false} IncreasingCount(cs: seq<Command>, c: Command)
    requires Increasing(cs)
    ensures multiset(cs)[c] == if c in cs then 1 else 0
  {
    if cs != [] {
      var init, last := cs[..|cs| - 1], cs[|cs| - 1];
      IncreasingInit(cs);
      IncreasingCount(init, c);
      assert cs == init + [last];
    }
  }

  /** Taking commands off the queue: exact if they are all there, too many are taken if not. */
  lemma WithoutCount(queue: seq<Command>, cs: seq<Command>)
    requires Increasing(queue) && Increasing(cs)
    ensures multiset(queue) <= multiset(Without(queue, cs)) + multiset(cs)
    ensures (forall c | c in cs :: c in queue) ==> multiset(queue) == multiset(Without(queue, cs)) + multiset(cs)
    ensures (exists c :: c in cs && c !in queue) ==> |queue| < |Without(queue, cs)| + |cs|
    ensures |queue| <= |Without(queue, cs)| + |cs|
  {
    WithoutIncreasing(queue, cs);
    hide Without, Increasing;
    forall c
      ensures multiset(cs)[c] == (if c in cs then 1 else 0) && multiset(queue)[c] == (if c in queue then 1 else 0)
      && multiset(Without(queue, cs))[c] == (if c in queue && c !in cs then 1 else 0)
    {
      IncreasingCount(queue, c);
      IncreasingCount(cs, c);
      IncreasingCount(Without(queue, cs), c);
    }
    var more, all := multiset(Without(queue, cs)) + multiset(cs), multiset(queue);
    Larger(all, more);
    if c :| c in cs && c !in queue {
      assert more[c] > all[c];
    }
  }

  lemma Larger(a: multiset<Command>, b: multiset<Command>)
    requires a <= b
    ensures |a| <= |b|
    ensures (exists c :: b[c] > a[c]) ==> |a| < |b|
  {
    assert b == a + (b - a);
    if c :| b[c] > a[c] {
      assert c in b - a;
    }
  }

  lemma CommandsMore(log: seq<Entry>, i: nat, cs: seq<Command>)
    ensures multiset(Commands(log + Entries(i, cs))) == multiset(Commands(log)) + multiset(cs)
  {
    assert Commands(log + Entries(i, cs)) == Commands(log) + cs;
  }

  lemma TakeCounts(w: World, i: nat, drainers: seq<Drainer>)
    requires Sound(w, drainers) && Enabled(w, Take(i))
    ensures var w' := Apply(w, Take(i));
      if Stale(w, Take(i)) then Surplus(w') > Surplus(w)
      else Surplus(w') >= Surplus(w) && (Conserved(w) ==> Conserved(w'))
  {
    var cs := w.loops[i].pending.value;
    assert PendingOk(w.loops[i], |w.arrived|);
    WithoutCount(w.queue, cs);
    CommandsMore(w.log, i, cs);
    hide Increasing, Logged, Uuids, IsConsumed, LogOk, Kept, OutsideOk, Without, Commands, Addressed,
         AllPendingOk;
  }

  lemma OutsideCounts(w: World, k: nat)
    requires k < |w.queue|
    ensures Surplus(Apply(w, RemoveOutside(k))) == Surplus(w)
    ensures Conserved(w) ==> Conserved(Apply(w, RemoveOutside(k)))
  {
    assert w.queue == w.queue[..k] + [w.queue[k]] + w.queue[k + 1..];
    hide Commands;
  }

  /** Only a stale take upsets the count, and nothing makes up for it afterwards. */
  lemma StepCounts(w: World, e: Event, drainers: seq<Drainer>)
    requires Sound(w, drainers) && Enabled(w, e)
    ensures var w' := Apply(w, e);
      if Stale(w, e) then Surplus(w') > Surplus(w)
      else Surplus(w') >= Surplus(w) && (Conserved(w) ==> Conserved(w'))
  {
    if e.Take? {
      hide *;
      TakeCounts(w, e.loop, drainers);
    } else if e.RemoveOutside? {
      OutsideCounts(w, e.at);
    } else {
      hide Commands, Increasing, LogOk, Kept, AllPendingOk, OutsideOk, Consumed, Snapshot;
    }
  }

  lemma ConservedCount(w: World)
    requires Conserved(w)
    ensures Surplus(w) == 0
  {
    assert |multiset(w.arrived)| == |w.arrived| && |multiset(w.queue)| == |w.queue|;
    assert |multiset(Commands(w.log))| == |w.log| && |multiset(w.outside)| == |w.outside|;
    hide Commands;
  }

  lemma {:induction false} RunCounts(w: World, events: seq<Event>, w': World, drainers: seq<Drainer>)
    requires Runs(w, events, w') && Sound(w, drainers)
    ensures Surplus(w') >= Surplus(w)
    ensures NeverStale(w, events) && Conserved(w) ==> Conserved(w')
    ensures !NeverStale(w, events) ==> Surplus(w') > Surplus(w)
    decreases |events|
  {
    hide Sound, Conserved, Apply, Stale, Surplus;
    if events != [] {
      StepSound(w, events[0], drainers);
      StepCounts(w, events[0], drainers);
      RunCounts(Apply(w, events[0]), events[1..], w', drainers);
    }
  }

  /** Main result: for any loops and any interleaving, what arrived is what is queued, plus what the loops
      took, plus what others removed, exactly if no loop takes a command that has left the queue since the
      loop saw it. */
  lemma ConservedIff(drainers: seq<Drainer>, events: seq<Event>, w: World)
    requires Runs(Start(drainers), events, w)
    ensures Conserved(w) <==> NeverStale(Start(drainers), events)
  {
    StartSound(drainers);
    assert Conserved(Start(drainers)) && Surplus(Start(drainers)) == 0;
    hide Start, Runs, NeverStale, Conserved, Sound, Surplus;
    RunCounts(Start(drainers), events, w, drainers);
    if Conserved(w) {
      ConservedCount(w);
    }
  }

  // ---------------------------------------------------------------- when nothing goes stale

  /** Another consumer removes a command that a loop is about to take. */
  ghost predicate Races(w: World, e: Event) {
    e.RemoveOutside? && e.at < |w.queue| &&
    exists i :: 0 <= i < |w.loops| && w.loops[i].pending.Some? && w.queue[e.at] in w.loops[i].pending.value
  }

  ghost predicate RaceFree(w: World, events: seq<Event>)
    decreases |events|
  {
    events != [] ==> !Races(w, events[0]) && (Enabled(w, events[0]) ==> RaceFree(Apply(w, events[0]), events[1..]))
  }

  /** What the loops are about to take is still in the queue. */
  ghost predicate Held(w: World) {
    forall i, c | 0 <= i < |w.loops| && w.loops[i].pending.Some? && c in w.loops[i].pending.value :: c in w.queue
  }

  lemma TakeHeld(w: World, i: nat, drainers: seq<Drainer>)
    requires Sound(w, drainers) && Held(w) && Enabled(w, Take(i)) && PairwiseDistinct(drainers)
    ensures Held(Apply(w, Take(i)))
  {
    var cs := w.loops[i].pending.value;
    var w' := Apply(w, Take(i));
    assert PendingOk(w.loops[i], |w.arrived|);
    hide Increasing, Logged, Uuids, IsConsumed, LogOk, Kept, OutsideOk, Queued, Entries;
    forall j, c | 0 <= j < |w'.loops| && w'.loops[j].pending.Some? && c in w'.loops[j].pending.value
      ensures c in w'.queue
    {
      assert j != i && w'.loops[j] == w.loops[j] && PendingOk(w.loops[j], |w.arrived|);
      if c in cs {
        hide Addressed, Without;
        AddressedToOne(w.loops[i].who, w.loops[j].who, c);
      }
    }
  }

  lemma LookHeld(w: World, i: nat, sleepRan: bool)
    requires Queued(w) && Held(w) && Enabled(w, Look(i, sleepRan))
    ensures Held(Apply(w, Look(i, sleepRan)))
  {
    Seen(w.queue, w.loops[i].who, sleepRan);
    hide Increasing, Consumed, Snapshot, Addressed, IsConsumed;
  }

  lemma StepHeld(w: World, e: Event, drainers: seq<Drainer>)
    requires Sound(w, drainers) && Held(w) && Enabled(w, e) && PairwiseDistinct(drainers) && !Races(w, e)
    ensures Held(Apply(w, e)) && !Stale(w, e)
  {
    if e.Look? {
      LookHeld(w, e.loop, e.sleepRan);
    } else if e.Take? {
      TakeHeld(w, e.loop, drainers);
      hide Apply;
    } else if e.RemoveOutside? {
      DropAtIncreasing(w.queue, e.at);
      hide Increasing;
    } else {
      hide Increasing, LogOk, Kept, AllPendingOk, OutsideOk;
    }
  }

  lemma {:induction false} RaceFreeNeverStale(w: World, events: seq<Event>, w': World, drainers: seq<Drainer>)
    requires Runs(w, events, w') && RaceFree(w, events) && PairwiseDistinct(drainers)
    requires Sound(w, drainers) && Held(w)
    ensures NeverStale(w, events)
    decreases |events|
  {
    hide Sound, Held, Apply, Races, PairwiseDistinct, Stale;
    if events != [] {
      StepSound(w, events[0], drainers);
      StepHeld(w, events[0], drainers);
      RaceFreeNeverStale(Apply(w, events[0]), events[1..], w', drainers);
    }
  }

  /** With distinct addresses, and as long as no other consumer removes what a loop is about to take,
      nothing goes stale. */
  lemma NothingLost(drainers: seq<Drainer>, events: seq<Event>, w: World)
    requires PairwiseDistinct(drainers) && Runs(Start(drainers), events, w) && RaceFree(Start(drainers), events)
    ensures Conserved(w)
  {
    StartSound(drainers);
    assert Held(Start(drainers));
    hide Start, Runs, RaceFree, Conserved, Held, Sound, NeverStale;
    RaceFreeNeverStale(Start(drainers), events, w, drainers);
    ConservedIff(drainers, events, w);
  }

  /** A stale take: a command is delivered by a loop and by the other consumer: the loop looks,
      the other removes, and the loop takes what it saw. */
  lemma RacedTwice(who: Drainer) returns (events: seq<Event>, w: World)
    ensures Runs(Start([who]), events, w) && !Conserved(w)
    ensures exists c :: c in w.outside && Logged(w.log, c)
  {
    var c := NoticeFor(who);
    var w0 := Start([who]);
    RunsOne(w0, Enqueue(c));
    var w1 := Apply(w0, Enqueue(c));
    assert w1.queue == [c];
    hide Runs;
    var w2 := LooksAt(w1, 0, c);
    hide *;
    w := RemovedThenTaken(w2, c);
    RunsConcat(w0, [Enqueue(c)], w1, [Look(0, false)], w2);
    events := [Enqueue(c)] + [Look(0, false)] + ([RemoveOutside(0)] + [Take(0)]);
    RunsConcat(w0, [Enqueue(c)] + [Look(0, false)], w2, [RemoveOutside(0)] + [Take(0)], w);
  }

  lemma RemovedThenTaken(w: World, c: Command) returns (w': World)
    requires w.queue == [c] && w.arrived == [c] && w.log == [] && w.outside == []
    requires |w.loops| == 1 && w.loops[0].pending == Some([c]) && !w.loops[0].finished
    ensures Runs(w, [RemoveOutside(0)] + [Take(0)], w') && !Conserved(w')
    ensures c in w'.outside && Logged(w'.log, c)
  {
    hide Uuids;
    RunsOne(w, RemoveOutside(0));
    var w1 := Apply(w, RemoveOutside(0));
    RunsOne(w1, Take(0));
    w' := Apply(w1, Take(0));
    assert w'.log == [Entry(0, c)] && w'.outside == [c] && w'.arrived == [c];
    assert Entry(0, c) in w'.log && Commands(w'.log) == [c];
    hide Runs, Apply, Commands, Without, Entries;
    assert multiset(w'.arrived)[c] == 1 && multiset(Commands(w'.log))[c] == 1 && multiset(w'.outside)[c] == 1;
    RunsConcat(w, [RemoveOutside(0)], w1, [Take(0)], w');
  }

  // ---------------------------------------------------------------- lifecycle notices

  /** What one loop took, in order. */
  function TakenBy(log: seq<Entry>, loop: nat): seq<Command> {
    if log == [] then []
    else TakenBy(log[..|log| - 1], loop) + if log[|log| - 1].loop == loop then [log[|log| - 1].command] else []
  }

  lemma {:induction false} TakenByMore(log: seq<Entry>, more: seq<Entry>, loop: nat)
    ensures TakenBy(log + more, loop) == TakenBy(log, loop) + TakenBy(more, loop)
  {
    if more == [] {
      assert log + more == log;
    } else {
      assert (log + more)[..|log + more| - 1] == log + more[..|more| - 1];
      TakenByMore(log, more[..|more| - 1], loop);
    }
  }

  lemma {:induction false} TakenByOne(i: nat, cs: seq<Command>, loop: nat)
    ensures TakenBy(Entries(i, cs), loop) == if i == loop then cs else []
  {
    if cs != [] {
      var init := cs[..|cs| - 1];
      assert Entries(i, cs)[..|cs| - 1] == Entries(i, init);
      TakenByOne(i, init, loop);
      assert cs == init + [cs[|cs| - 1]];
    }
  }

  lemma {:induction false} UuidsMore(cs: seq<Command>, more: seq<Command>)
    ensures Uuids(cs + more) == Uuids(cs) + Uuids(more)
  {
    if more == [] {
      assert cs + more == cs;
    } else {
      assert (cs + more)[..|cs + more| - 1] == cs + more[..|more| - 1];
      UuidsMore(cs, more[..|more| - 1]);
    }
  }

  /** A loop has announced as started what it took, in order; and as completed nothing, or all of it once
      it has returned. */
  ghost predicate Announced(w: World, i: nat, returned: bool)
    requires i < |w.loops|
  {
    && w.loops[i].started == Uuids(TakenBy(w.log, i))
    && w.loops[i].completed == (if returned then w.loops[i].started else [])
  }

  /** Whether the loop returns in the given events. */
  predicate Returns(events: seq<Event>, i: nat) { Return(i) in events }

  lemma TakeAnnounced(w: World, j: nat, i: nat, returned: bool)
    requires Enabled(w, Take(j)) && i < |w.loops| && Announced(w, i, returned) && (returned ==> w.loops[i].finished)
    ensures Announced(Apply(w, Take(j)), i, returned)
  {
    var cs := w.loops[j].pending.value;
    TakenByMore(w.log, Entries(j, cs), i);
    TakenByOne(j, cs, i);
    UuidsMore(TakenBy(w.log, i), cs);
    hide Uuids, TakenBy, Without, Entries;
    assert TakenBy(w.log, i) + [] == TakenBy(w.log, i);
  }

  lemma StepAnnounced(w: World, e: Event, i: nat, returned: bool)
    requires Enabled(w, e) && i < |w.loops| && Announced(w, i, returned) && (returned ==> w.loops[i].finished)
    ensures |Apply(w, e).loops| == |w.loops|
    ensures Announced(Apply(w, e), i, returned || e == Return(i))
    ensures returned || e == Return(i) ==> Apply(w, e).loops[i].finished
  {
    hide Uuids, TakenBy, Without, Entries, Consumed, Snapshot;
    if e.Take? {
      TakeAnnounced(w, e.loop, i, returned);
    }
  }

  /** Main result: on normal return a loop has announced as completed exactly what it announced as started,
      which is what it took, in order; a loop that threw has announced nothing as completed. */
  lemma {:induction false} NoticesMatch(w: World, events: seq<Event>, w': World, i: nat, returned: bool)
    requires Runs(w, events, w') && i < |w.loops| && Announced(w, i, returned) && (returned ==> w.loops[i].finished)
    ensures |w'.loops| == |w.loops| && Announced(w', i, returned || Returns(events, i))
    decreases |events|
  {
    if events != [] {
      StepAnnounced(w, events[0], i, returned);
      hide Apply, Enabled, Announced;
      NoticesMatch(Apply(w, events[0]), events[1..], w', i, returned || events[0] == Return(i));
      assert Return(i) in events <==> events[0] == Return(i) || Return(i) in events[1..];
    }
  }
}
