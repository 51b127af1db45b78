/** The command queue that all query loops of the process share (source/src/query.ts:1571-1680,
    source/src/utils/messageQueueManager.ts, source/src/utils/steerCheckpoint.ts). */
module CommandQueue {
  import opened Options

  /** Input modes, grouped by how the boundary treats them: `OtherPromptLike` are the prompt-like modes
      besides the plain prompt. */
  datatype Mode = Prompt | OtherPromptLike | TaskNotification | Bash | OrphanedPermission

  /** How urgent a command is; `Soon` is the urgency that the source calls next. */
  datatype Priority = Now | Soon | Later

  datatype Intent = SameTask | ParkForLater | SideQuestion | Unclassified

  /** A queued command. `serial` is the identity of the queued object, which is a fresh copy made when it
      is enqueued. `slash` and `continuation` are what the source reads off the text. */
  datatype Command = Command(
    serial: nat,
    uuid: Option<nat>,
    mode: Mode,
    priority: Priority,
    agent: Option<nat>,
    slash: bool,
    continuation: bool,
    intent: Intent)

  /** Which loop drains: the main thread, or a subagent with its id. */
  datatype Drainer = Main | Subagent(agent: Option<nat>)

  predicate IsPromptLike(m: Mode) { m == Prompt || m == OtherPromptLike }

  // ---------------------------------------------------------------- the boundary of one turn

  function Rank(p: Priority): nat {
    match p
    case Now => 0
    case Soon => 1
    case Later => 2
  }

  /** The commands a loop may drain. */
  predicate Addressed(who: Drainer, c: Command) {
    && !c.slash
    && match who
       case Main => c.agent.None?
       case Subagent(agent) => c.mode == TaskNotification && c.agent == agent
  }

  function Filter(cs: seq<Command>, keep: Command -> bool): (kept: seq<Command>)
    ensures forall c :: c in kept <==> c in cs && keep(c)
  {
    if cs == [] then []
    else Filter(cs[..|cs| - 1], keep) + if keep(cs[|cs| - 1]) then [cs[|cs| - 1]] else []
  }

  /** What a loop may drain now: without a sleep in this turn only urgent commands. */
  predicate Visible(who: Drainer, sleepRan: bool, c: Command) {
    Rank(c.priority) <= (if sleepRan then Rank(Later) else Rank(Soon)) && Addressed(who, c)
  }

  /** The queue as a loop sees it at the end of its tool calls. */
  function Snapshot(queue: seq<Command>, who: Drainer, sleepRan: bool): (seen: seq<Command>)
    ensures forall c :: c in seen <==> c in queue && Visible(who, sleepRan, c)
  {
    Filter(queue, (c: Command) => Visible(who, sleepRan, c))
  }

  /** A prompt that continues the task at hand. */
  predicate Steers(c: Command) { IsPromptLike(c.mode) && !c.continuation && c.intent == SameTask }

  predicate NoneSteers(cs: seq<Command>) { forall c | c in cs :: !Steers(c) }

  /** Whether a command that comes after the given ones is taken into the turn. */
  predicate IsTaken(before: seq<Command>, c: Command) {
    !IsPromptLike(c.mode) || (Steers(c) && NoneSteers(before))
  }

  /** The commands attached to this turn: everything that is not a prompt, and of the prompts the first
      that steers. */
  function AttachNow(cs: seq<Command>): seq<Command> {
    if cs == [] then []
    else
      var before, c := cs[..|cs| - 1], cs[|cs| - 1];
      AttachNow(before)
      + if IsTaken(before, c) then [c] else []
  }

  function LeaveQueued(cs: seq<Command>): seq<Command> {
    if cs == [] then []
    else
      var before, c := cs[..|cs| - 1], cs[|cs| - 1];
      LeaveQueued(before)
      + if IsTaken(before, c) then [] else [c]
  }

  predicate IsConsumed(c: Command) { IsPromptLike(c.mode) || c.mode == TaskNotification }

  /** The commands removed from the queue at the end of the turn. */
  function Consumed(cs: seq<Command>): seq<Command> { Filter(AttachNow(cs), IsConsumed) }

  predicate IsDelivered(c: Command) { c.mode == Prompt || c.mode == TaskNotification }

  /** The commands that are turned into messages for the model. */
  function Delivered(cs: seq<Command>): seq<Command> { Filter(AttachNow(cs), IsDelivered) }

  /** The source's loop over the snapshot. */
  method PartitionQueuedCommandsForBoundary(queuedCommands: seq<Command>)
      returns (attachNow: seq<Command>, leaveQueued: seq<Command>)
    ensures attachNow == AttachNow(queuedCommands) && leaveQueued == LeaveQueued(queuedCommands)
  {
    attachNow, leaveQueued := [], [];
    var consumedPromptLike := false;
    for i := 0 to |queuedCommands|
      invariant attachNow == AttachNow(queuedCommands[..i]) && leaveQueued == LeaveQueued(queuedCommands[..i])
      invariant consumedPromptLike <==> !NoneSteers(queuedCommands[..i])
    {
      var cmd := queuedCommands[i];
      TakeNext(queuedCommands, i);
      hide NoneSteers, AttachNow, LeaveQueued;
      if !IsPromptLike(cmd.mode) {
        attachNow := attachNow + [cmd];
      } else if consumedPromptLike {
        leaveQueued := leaveQueued + [cmd];
      } else if cmd.continuation {
        leaveQueued := leaveQueued + [cmd];
      } else if cmd.intent == SameTask {
        attachNow := attachNow + [cmd];
        consumedPromptLike := true;
      } else {
        leaveQueued := leaveQueued + [cmd];
      }
    }
    assert queuedCommands[..|queuedCommands|] == queuedCommands;
  }

  lemma TakeNext(cs: seq<Command>, i: nat)
    requires i < |cs|
    ensures AttachNow(cs[..i + 1]) == AttachNow(cs[..i]) + if IsTaken(cs[..i], cs[i]) then [cs[i]] else []
    ensures LeaveQueued(cs[..i + 1]) == LeaveQueued(cs[..i]) + if IsTaken(cs[..i], cs[i]) then [] else [cs[i]]
    ensures NoneSteers(cs[..i + 1]) <==> NoneSteers(cs[..i]) && !Steers(cs[i])
  {
    assert cs[..i + 1] == cs[..i] + [cs[i]];
    assert cs[..i + 1][..i] == cs[..i];
  }

  /** Nothing is lost or doubled by the partition. */
  lemma {:induction false} PartitionKeepsAll(cs: seq<Command>)
    ensures multiset(AttachNow(cs)) + multiset(LeaveQueued(cs)) == multiset(cs)
  {
    if cs != [] {
      PartitionKeepsAll(cs[..|cs| - 1]);
      assert cs == cs[..|cs| - 1] + [cs[|cs| - 1]];
    }
  }

  /** An attached command was taken at its place in the snapshot. */
  lemma {:induction false} AttachedFrom(cs: seq<Command>, c: Command) returns (i: nat)
    requires c in AttachNow(cs)
    ensures i < |cs| && cs[i] == c && IsTaken(cs[..i], c)
  {
    var n := |cs| - 1;
    if c in AttachNow(cs[..n]) {
      i := AttachedFrom(cs[..n], c);
      assert cs[..n][..i] == cs[..i];
    } else {
      i := n;
    }
  }

  lemma {:induction false} AttachedWhen(cs: seq<Command>, i: nat)
    requires i < |cs| && IsTaken(cs[..i], cs[i])
    ensures cs[i] in AttachNow(cs)
  {
    var n := |cs| - 1;
    if i < n {
      assert cs[..n][..i] == cs[..i];
      AttachedWhen(cs[..n], i);
    }
  }

  /** A command is attached exactly if it is not a prompt or is the first prompt that steers. */
  lemma AttachedIff(cs: seq<Command>, c: Command)
    ensures c in AttachNow(cs) <==> exists i: nat :: i < |cs| && cs[i] == c && IsTaken(cs[..i], c)
  {
    if c in AttachNow(cs) {
      var i := AttachedFrom(cs, c);
    } else {
      forall i: nat | i < |cs| && cs[i] == c ensures !IsTaken(cs[..i], c) {
        if IsTaken(cs[..i], c) {
          AttachedWhen(cs, i);
        }
      }
    }
  }

  /** At most one prompt is taken into a turn. */
  lemma {:induction false} OnePrompt(cs: seq<Command>, i: nat, j: nat)
    requires i < j < |AttachNow(cs)|
    ensures !IsPromptLike(AttachNow(cs)[i].mode) || !IsPromptLike(AttachNow(cs)[j].mode)
  {
    var before := cs[..|cs| - 1];
    if j < |AttachNow(before)| {
      OnePrompt(before, i, j);
    } else {
      var a := AttachNow(before)[i];
      var k := AttachedFrom(before, a);
      assert a in before;
    }
  }

  lemma {:induction false} FilterTwice(cs: seq<Command>)
    requires forall c | c in cs && IsConsumed(c) :: IsDelivered(c)
    ensures Filter(cs, IsConsumed) == Filter(cs, IsDelivered)
  {
    if cs != [] {
      FilterTwice(cs[..|cs| - 1]);
      assert cs[|cs| - 1] in cs;
    }
  }

  /** What a turn removes from the queue reaches the model exactly when the prompt it takes, if any, is in
      plain prompt mode. In the other prompt-like modes it is removed, reported as started and completed,
      and never shown to the model. */
  lemma ConsumedIsDelivered(cs: seq<Command>)
    ensures Consumed(cs) == Delivered(cs) <==> forall c | c in AttachNow(cs) :: c.mode != OtherPromptLike
  {
    var now := AttachNow(cs);
    if forall c | c in now :: c.mode != OtherPromptLike {
      FilterTwice(now);
    } else {
      var c :| c in now && c.mode == OtherPromptLike;
      assert c in Consumed(cs) && c !in Delivered(cs);
    }
  }

  /** Which commands a turn takes from the queue: every notification it can see, and the first prompt it
      can see that steers. Without a sleep in the turn no command of low priority is seen. */
  lemma TakesIff(queue: seq<Command>, who: Drainer, sleepRan: bool, c: Command)
    ensures var seen := Snapshot(queue, who, sleepRan);
      c in Consumed(seen) <==>
        (c in queue && Visible(who, sleepRan, c) && c.mode == TaskNotification)
        || (IsPromptLike(c.mode) && exists i: nat :: i < |seen| && seen[i] == c && IsTaken(seen[..i], c))
    ensures c in Consumed(Snapshot(queue, who, sleepRan)) && c.priority == Later ==> sleepRan
  {
    var seen := Snapshot(queue, who, sleepRan);
    AttachedIff(seen, c);
    if c in seen && c.mode == TaskNotification {
      var i: nat :| i < |seen| && seen[i] == c;
      assert IsTaken(seen[..i], c);
    }
    hide AttachNow, Filter;
  }

  // ---------------------------------------------------------------- the queue itself

  /** The queue without the given commands, which are compared by identity. */
  function Without(queue: seq<Command>, gone: seq<Command>): (kept: seq<Command>)
    ensures forall c :: c in kept <==> c in queue && c !in gone
  {
    if queue == [] then []
    else (if queue[0] in gone then [] else [queue[0]]) + Without(queue[1..], gone)
  }

  /** One step of the backward removal: what it keeps of the rest is kept of one command more. */
  lemma RemoveStep(all: seq<Command>, gone: seq<Command>, i: nat)
    requires i < |all|
    ensures var now := all[..i + 1] + Without(all[i + 1..], gone);
      && now[i] == all[i]
      && all[..i] + Without(all[i..], gone) == if all[i] in gone then now[..i] + now[i + 1..] else now
  {
    var kept := Without(all[i + 1..], gone);
    assert all[i..][0] == all[i] && all[i..][1..] == all[i + 1..];
    assert Without(all[i..], gone) == (if all[i] in gone then [] else [all[i]]) + kept;
    assert all[..i + 1] == all[..i] + [all[i]];
    hide *;
    DropAt(all[..i], all[i], kept);
  }

  lemma DropAt(before: seq<Command>, c: Command, after: seq<Command>)
    ensures var now := before + [c] + after;
      now[|before|] == c && now[..|before|] + now[|before| + 1..] == before + after
      && before + ([c] + after) == now && [] + after == after
  {
  }

  /** A better command to take next: more urgent, or as urgent and earlier. */
  predicate Before(queue: seq<Command>, i: nat, j: nat)
    requires i < |queue| && j < |queue|
  {
    Rank(queue[i].priority) < Rank(queue[j].priority)
    || (Rank(queue[i].priority) == Rank(queue[j].priority) && i <= j)
  }

  /** The best of the commands that pass the filter. */
  ghost predicate IsBest(queue: seq<Command>, filter: Command -> bool, best: nat) {
    && best < |queue| && filter(queue[best])
    && forall j: nat | j < |queue| && filter(queue[j]) :: Before(queue, best, j)
  }

  /** The command at that place is the best, and taking it leaves the rest. */
  ghost predicate TakenAt(queue: seq<Command>, filter: Command -> bool, best: nat, c: Command, rest: seq<Command>) {
    IsBest(queue, filter, best) && c == queue[best] && rest == queue[..best] + queue[best + 1..]
  }

  /** One step of the search. */
  lemma BestNext(queue: seq<Command>, filter: Command -> bool, i: nat, best: Option<nat>)
    requires i < |queue|
    requires best.None? ==> forall j: nat | j < i :: !filter(queue[j])
    requires best.Some? ==> best.value < i && IsBest(queue[..i], filter, best.value)
    ensures var better := filter(queue[i])
                && (best.None? || Rank(queue[i].priority) < Rank(queue[best.value].priority));
      && (better ==> IsBest(queue[..i + 1], filter, i))
      && (!better && best.Some? ==> IsBest(queue[..i + 1], filter, best.value))
      && (!better && best.None? ==> !filter(queue[i]))
  {
    var now := queue[..i + 1];
    forall j: nat | j < i && filter(now[j]) && best.Some? ensures Before(now, best.value, j) {
      assert queue[..i][j] == now[j] && Before(queue[..i], best.value, j);
    }
  }

  class Queue {
    var commands: seq<Command>
    var enqueued: nat

    constructor ()
      ensures commands == [] && enqueued == 0
    {
      commands, enqueued := [], 0;
    }

    /** Appends a fresh copy of the command, unless it is a disallowed prompt of the system's own. */
    method Push(c: Command, priority: Priority, disallowed: bool)
      modifies this
      ensures commands == if disallowed then old(commands)
                          else old(commands) + [c.(serial := old(enqueued), priority := priority)]
      ensures enqueued == old(enqueued) + if disallowed then 0 else 1
    {
      if disallowed {
        return;
      }
      commands := commands + [c.(serial := enqueued, priority := priority)];
      enqueued := enqueued + 1;
    }

    /** User input goes before notifications unless it says otherwise. */
    method Enqueue(c: Command, priority: Option<Priority>, disallowed: bool)
      modifies this
      ensures commands == if disallowed then old(commands)
                          else old(commands) + [c.(serial := old(enqueued), priority := priority.Or(Soon))]
      ensures enqueued == old(enqueued) + if disallowed then 0 else 1
    {
      Push(c, priority.Or(Soon), disallowed);
    }

    method EnqueuePendingNotification(c: Command, priority: Option<Priority>, disallowed: bool)
      modifies this
      ensures commands == if disallowed then old(commands)
                          else old(commands) + [c.(serial := old(enqueued), priority := priority.Or(Later))]
      ensures enqueued == old(enqueued) + if disallowed then 0 else 1
    {
      Push(c, priority.Or(Later), disallowed);
    }

    /** Removes the given commands, from the back of the queue to the front. */
    method Remove(commandsToRemove: seq<Command>)
      modifies this`commands
      ensures commands == Without(old(commands), commandsToRemove)
    {
      ghost var all := commands;
      var i := |commands|;
      while i > 0
        invariant 0 <= i <= |all|
        invariant commands == all[..i] + Without(all[i..], commandsToRemove)
      {
        i := i - 1;
        RemoveStep(all, commandsToRemove, i);
        if commands[i] in commandsToRemove {
          commands := commands[..i] + commands[i + 1..];
        }
      }
      assert all[0..] == all && all[..0] == [];
    }

    /** Removes and returns the most urgent of the commands that pass the filter, the earliest of them. */
    method Dequeue(filter: Command -> bool) returns (c: Option<Command>)
      modifies this`commands
      ensures c.None? ==> commands == old(commands) && forall d | d in commands :: !filter(d)
      ensures c.Some? ==> exists best: nat :: TakenAt(old(commands), filter, best, c.value, commands)
    {
      var best: Option<nat> := None;
      for i := 0 to |commands|
        invariant commands == old(commands)
        invariant best.None? ==> forall j: nat | j < i :: !filter(commands[j])
        invariant best.Some? ==> best.value < i && IsBest(commands[..i], filter, best.value)
      {
        BestNext(commands, filter, i, best);
        if filter(commands[i])
           && (best.None? || Rank(commands[i].priority) < Rank(commands[best.value].priority)) {
          best := Some(i);
        }
      }
      if best.None? {
        return None;
      }
      assert commands[..|commands|] == commands;
      c := Some(commands[best.value]);
      commands := commands[..best.value] + commands[best.value + 1..];
      assert TakenAt(old(commands), filter, best.value, c.value, commands);
    }
  }
}
