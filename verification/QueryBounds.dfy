/** How long the agentic loop can go on: the retries between two resets, the turns, and the task budget. */
module QueryBounds {
  import opened Options
  import opened QueryMessages
  import opened QueryStream
  import opened QueryLoop

  // ---------------------------------------------------------------- what one transition does

  /** The counters and guards of the loop, as each transition changes them. */
  ghost predicate Moves(cfg: Config, st: Loop, why: Transition, st': Loop) {
    && (why == CollapseDrain ==> st.transition != Some(CollapseDrain))
    && (why == ReactiveCompact ==> !st.attempted)
    && (why == Escalate ==> st.override.None?)
    && (why.Recovery? ==> why.attempt == st.recoveryCount + 1 <= MAX_OUTPUT_TOKENS_RECOVERY_LIMIT)
    && (why == NextTurn && cfg.maxTurns > 0 ==> st.turnCount + 1 <= cfg.maxTurns)
    && st'.transition == Some(why)
    && st'.trace == st.trace + [why]
    && st'.override == (if why == Escalate then Some(ESCALATED_MAX_TOKENS) else None)
    && st'.turnCount == st.turnCount + (if why == NextTurn then 1 else 0)
    && st'.recoveryCount == (if Resets(why) then 0 else if why.Recovery? then why.attempt else st.recoveryCount)
    && st'.stopHookActive == (why == StopHookBlocking || (why == NextTurn && st.stopHookActive))
    && st'.attempted == (if why == ReactiveCompact then true
                         else if RearmsCompaction(why) then false else st.attempted)
  }

  /** Transitions after which output recoveries are counted from zero. */
  predicate Resets(why: Transition) { why in {StopHookBlocking, BudgetContinuation, NextTurn} }

  /** Transitions after which reactive compaction may be tried again. A blocking stop hook is not one. */
  predicate RearmsCompaction(why: Transition) { why in {BudgetContinuation, NextTurn} }

  predicate SameCounters(a: Loop, b: Loop) {
    && a.recoveryCount == b.recoveryCount && a.attempted == b.attempted && a.override == b.override
    && a.turnCount == b.turnCount && a.stopHookActive == b.stopHookActive
    && a.transition == b.transition && a.trace == b.trace
  }

  lemma FinishMoves(cfg: Config, st: Loop, env: Iteration, s: Stream)
    requires Finish(cfg, st, env, s).Next?
    ensures Moves(cfg, st, StopHookBlocking, Finish(cfg, st, env, s).loop)
            || Moves(cfg, st, BudgetContinuation, Finish(cfg, st, env, s).loop)
  {
    hide Sent, Notes, EmitAll, Last;
  }

  lemma SameMoves(cfg: Config, st: Loop, same: Loop, why: Transition, st': Loop)
    requires SameCounters(st, same) && Moves(cfg, same, why, st')
    ensures Moves(cfg, st, why, st')
  {
  }

  lemma OutputMoves(cfg: Config, st: Loop, env: Iteration, s: Stream, error: Message) returns (why: Transition)
    requires RecoverOutput(cfg, st, env, s, error).Next?
    ensures Moves(cfg, st, why, RecoverOutput(cfg, st, env, s, error).loop)
  {
    hide Sent, Finish;
    if env.capEnabled && st.override.None? {
      why := Escalate;
    } else if st.recoveryCount < MAX_OUTPUT_TOKENS_RECOVERY_LIMIT {
      why := Recovery(st.recoveryCount + 1);
    } else {
      var st1 := Yielding(st, [Emit(error)]);
      FinishMoves(cfg, st1, env, s);
      hide Moves;
      var st' := Finish(cfg, st1, env, s).loop;
      why := if Moves(cfg, st1, StopHookBlocking, st') then StopHookBlocking else BudgetContinuation;
      SameMoves(cfg, st, st1, why, st');
    }
  }

  lemma CompactMoves(cfg: Config, st: Loop, c: Compaction)
    requires !st.attempted
    ensures Moves(cfg, st, ReactiveCompact, CompactRetry(cfg, st, c).loop)
  {
    hide EmitAll, Charge;
  }

  lemma DrainMoves(cfg: Config, st: Loop, ms: seq<Message>)
    requires st.transition != Some(CollapseDrain)
    ensures Moves(cfg, st, CollapseDrain, Continue(st, ms, CollapseDrain))
  {
  }

  lemma RecoverMoves(cfg: Config, st: Loop, env: Iteration, s: Stream) returns (why: Transition)
    requires Recover(cfg, st, env, s).Next? && (st.attempted ==> env.compacted.None?)
    ensures Moves(cfg, st, why, Recover(cfg, st, env, s).loop)
  {
    hide Sent, IsTooLong, MediaError, Finish, Moves, CompactRetry, RecoverOutput, Continue, Yielding;
    var last := Last(s);
    var tooLong := last.Some? && IsTooLong(last.value);
    var media := last.Some? && MediaError(cfg, env.mediaRecovery, last.value);
    if tooLong && cfg.collapse && st.transition != Some(CollapseDrain) && env.drained.Some? {
      why := CollapseDrain;
      DrainMoves(cfg, st, env.drained.value);
    } else if (tooLong || media) && cfg.reactive {
      why := ReactiveCompact;
      CompactMoves(cfg, st, env.compacted.value);
    } else if last.Some? && last.value.Assistant? && last.value.problem == MaxOutputTokens {
      why := OutputMoves(cfg, st, env, s, last.value);
    } else {
      FinishMoves(cfg, st, env, s);
      why := if Moves(cfg, st, StopHookBlocking, Finish(cfg, st, env, s).loop) then StopHookBlocking
             else BudgetContinuation;
    }
  }

  lemma ToolMoves(cfg: Config, st: Loop, env: Iteration, s: Stream)
    requires RunTools(cfg, st, env, s).Next?
    ensures Moves(cfg, st, NextTurn, RunTools(cfg, st, env, s).loop)
  {
    hide RestOfTools, Answers, EmitAll, Notes, Sent;
  }

  lemma RepliedSame(cfg: Config, st: Loop, env: Iteration, s: Stream)
    ensures SameCounters(st, Replied(Prepare(cfg, st, env), env, s))
  {
    hide EmitAll, Charge;
  }

  /** Every continuation of the loop is one of the seven transitions, under its guard. */
  lemma IterateMoves(cfg: Config, st: Loop, env: Iteration) returns (why: Transition)
    requires IterationOk(cfg, st, env) && Iterate(cfg, st, env).Next?
    ensures Moves(cfg, st, why, Iterate(cfg, st, env).loop)
  {
    var s := Request(cfg, st, env);
    var st1 := Replied(Prepare(cfg, st, env), env, s);
    hide Request, Recover, RunTools, Moves, Prepare, Replied, Interrupt, Fail, Sent;
    RepliedSame(cfg, st, env, s);
    if s.followUp {
      ToolMoves(cfg, st1, env, s);
      why := NextTurn;
    } else {
      why := RecoverMoves(cfg, st1, env, s);
    }
    SameMoves(cfg, st, st1, why, Iterate(cfg, st, env).loop);
  }

  // ---------------------------------------------------------------- reading a trace

  /** Output recoveries since the last reset. */
  function RecoveriesSince(trace: seq<Transition>): nat {
    if trace == [] then 0
    else
      var why := trace[|trace| - 1];
      if Resets(why) then 0 else RecoveriesSince(trace[..|trace| - 1]) + if why.Recovery? then 1 else 0
  }

  /** Reactive compactions since the last transition that re-arms them. */
  function CompactionsSince(trace: seq<Transition>): nat {
    if trace == [] then 0
    else
      var why := trace[|trace| - 1];
      if RearmsCompaction(why) then 0
      else CompactionsSince(trace[..|trace| - 1]) + if why == ReactiveCompact then 1 else 0
  }

  /** All retries since the last reset, and how many of them were collapse drains. */
  function RetriesSince(trace: seq<Transition>): nat {
    if trace == [] || Resets(trace[|trace| - 1]) then 0 else RetriesSince(trace[..|trace| - 1]) + 1
  }

  function DrainsSince(trace: seq<Transition>): nat {
    if trace == [] || Resets(trace[|trace| - 1]) then 0
    else DrainsSince(trace[..|trace| - 1]) + if trace[|trace| - 1] == CollapseDrain then 1 else 0
  }

  /** Whether a stop hook blocked and only whole turns have followed. */
  predicate HookHolds(trace: seq<Transition>) {
    trace != [] &&
    (trace[|trace| - 1] == StopHookBlocking || (trace[|trace| - 1] == NextTurn && HookHolds(trace[..|trace| - 1])))
  }

  predicate EndsWith(trace: seq<Transition>, why: Transition) {
    trace != [] && trace[|trace| - 1] == why
  }

  /** A transition that may follow the given ones. */
  predicate MayFollow(before: seq<Transition>, why: Transition) {
    && (why.Recovery? ==> why.attempt == RecoveriesSince(before) + 1 <= MAX_OUTPUT_TOKENS_RECOVERY_LIMIT)
    && (why == ReactiveCompact ==> CompactionsSince(before) == 0)
    && (why == CollapseDrain ==> !EndsWith(before, CollapseDrain))
    && (why == Escalate ==> !EndsWith(before, Escalate))
  }

  /** Recoveries are numbered 1, 2, 3 between resets, reactive compaction runs once between the
      transitions that re-arm it, and neither a drain nor an escalation directly follows its like. */
  ghost predicate Orderly(trace: seq<Transition>) {
    forall i: nat | i < |trace| :: MayFollow(trace[..i], trace[i])
  }

  /** How many retries the guards still allow. */
  function Allowance(st: Loop): int {
    2 * (MAX_OUTPUT_TOKENS_RECOVERY_LIMIT - st.recoveryCount)
    + (if st.attempted then 0 else 2) + (if st.override.None? then 1 else 0)
  }

  function Drains(trace: seq<Transition>): nat { multiset(trace)[CollapseDrain] }

  function Turns(trace: seq<Transition>): nat { multiset(trace)[NextTurn] }

  function Blocks(trace: seq<Transition>): nat { multiset(trace)[StopHookBlocking] }

  function Continuations(trace: seq<Transition>): nat { multiset(trace)[BudgetContinuation] }

  /** Whether the output limit is raised: by the caller before the first iteration, and from then on
      exactly if the previous transition raised it. */
  predicate IsRaised(override: Option<nat>, trace: seq<Transition>) {
    if trace == [] then override.Some? else EndsWith(trace, Escalate)
  }

  /** The counters and guards of the loop are what its trace says; `override` is what the caller gave. */
  ghost predicate Counted(cfg: Config, override: Option<nat>, st: Loop) {
    && st.transition == (if st.trace == [] then None else Some(st.trace[|st.trace| - 1]))
    && (st.override.Some? <==> IsRaised(override, st.trace))
    && st.recoveryCount == RecoveriesSince(st.trace) <= MAX_OUTPUT_TOKENS_RECOVERY_LIMIT
    && CompactionsSince(st.trace) == (if st.attempted then 1 else 0)
    && st.stopHookActive == HookHolds(st.trace)
    && st.turnCount == 1 + Turns(st.trace)
    && (cfg.maxTurns > 0 ==> st.turnCount <= cfg.maxTurns)
  }

  /** What the trace has used up, and what is still allowed. */
  ghost predicate Within(st: Loop) {
    && RetriesSince(st.trace) + Allowance(st) <= 9 + 2 * DrainsSince(st.trace)
    && |st.trace| + Allowance(st)
       <= 9 + 10 * (Turns(st.trace) + Blocks(st.trace) + Continuations(st.trace)) + 2 * Drains(st.trace)
  }

  // ---------------------------------------------------------------- every run

  lemma Snoc(trace: seq<Transition>, why: Transition)
    ensures (trace + [why])[..|trace|] == trace
    ensures multiset(trace + [why]) == multiset(trace) + multiset{why}
  {
  }

  lemma OrderlyNext(trace: seq<Transition>, why: Transition)
    requires Orderly(trace) && MayFollow(trace, why)
    ensures Orderly(trace + [why])
  {
    hide MayFollow;
    forall i: nat | i < |trace + [why]| ensures MayFollow((trace + [why])[..i], (trace + [why])[i]) {
      if i < |trace| {
        assert (trace + [why])[..i] == trace[..i];
      } else {
        Snoc(trace, why);
      }
    }
  }

  lemma CountedNext(cfg: Config, override: Option<nat>, st: Loop, why: Transition, st': Loop)
    requires Counted(cfg, override, st) && Moves(cfg, st, why, st')
    ensures Counted(cfg, override, st') && MayFollow(st.trace, why)
  {
    Snoc(st.trace, why);
  }

  lemma WithinNext(cfg: Config, st: Loop, why: Transition, st': Loop)
    requires Within(st) && Moves(cfg, st, why, st') && st.recoveryCount <= MAX_OUTPUT_TOKENS_RECOVERY_LIMIT
    ensures Within(st')
  {
    Snoc(st.trace, why);
  }

  /** Main result: at every loop head of every run the trace is orderly and within its bounds. */
  lemma {:induction false} RunIsOrderly(cfg: Config, override: Option<nat>, st: Loop, envs: seq<Iteration>, st': Loop)
    requires Runs(cfg, st, envs, st') && Counted(cfg, override, st) && Within(st) && Orderly(st.trace)
    ensures Counted(cfg, override, st') && Within(st') && Orderly(st'.trace)
    ensures |st'.trace| == |st.trace| + |envs|
    decreases |envs|
  {
    if envs != [] {
      var st1 := Iterate(cfg, st, envs[0]).loop;
      var why := IterateMoves(cfg, st, envs[0]);
      CountedNext(cfg, override, st, why, st1);
      WithinNext(cfg, st, why, st1);
      OrderlyNext(st.trace, why);
      hide Counted, Within, Orderly, Iterate, IterationOk;
      RunIsOrderly(cfg, override, st1, envs[1..], st');
    }
  }

  lemma InitialCounted(cfg: Config, messages: seq<Message>, override: Option<nat>)
    ensures Counted(cfg, override, Initial(messages, override)) && Within(Initial(messages, override))
    ensures Orderly([])
  {
  }

  /** Main result: with a turn limit, every run stops within ten iterations for each turn, each blocking
      stop hook and each budget continuation, and two more for each collapse drain. */
  lemma RunIsBounded(cfg: Config, messages: seq<Message>, override: Option<nat>, envs: seq<Iteration>, st: Loop)
    requires Runs(cfg, Initial(messages, override), envs, st) && cfg.maxTurns > 0
    ensures st.turnCount == 1 + Turns(st.trace) <= cfg.maxTurns
    ensures |envs| + 1 <= 10 * (cfg.maxTurns + Blocks(st.trace) + Continuations(st.trace)) + 2 * Drains(st.trace)
  {
    InitialCounted(cfg, messages, override);
    RunIsOrderly(cfg, override, Initial(messages, override), envs, st);
    hide Runs, Turns, Blocks, Continuations, Drains, RecoveriesSince, CompactionsSince, RetriesSince, DrainsSince;
  }

  /** Between two resets: at most nine retries, and two more for each drain. */
  lemma SegmentIsBounded(cfg: Config, messages: seq<Message>, override: Option<nat>, envs: seq<Iteration>, st: Loop)
    requires Runs(cfg, Initial(messages, override), envs, st)
    ensures Orderly(st.trace) && RetriesSince(st.trace) <= 9 + 2 * DrainsSince(st.trace)
  {
    InitialCounted(cfg, messages, override);
    RunIsOrderly(cfg, override, Initial(messages, override), envs, st);
    hide Runs, Turns, Blocks, Continuations, Drains, RecoveriesSince, CompactionsSince, RetriesSince,
         DrainsSince, Orderly;
  }

  // ---------------------------------------------------------------- the bound is reached

  /** An iteration whose only reply is an error, with every recovery available. */
  function ErrorIteration(st: Loop, m: Message): Iteration {
    Iteration(
      prepared := st.messages, compaction := None, mediaRecovery := false, preemptOff := true,
      collapseOwns := false, atLimit := false,
      attempts := [Attempt([Reply(m, {})], Finished)],
      abortAfterStream := false, interrupt := false, summary := false, drained := None,
      compacted := if st.attempted then None else Some(Compaction([], 0)),
      capEnabled := true, hookNotes := 0, hookPrevents := false, hookBlocks := 0, budgetContinues := false,
      batches := [], abortInTools := false, hookStopped := false, attachments := 0)
  }

  const OUTPUT_LIMIT_HIT := Assistant(0, [], MaxOutputTokens, true)
  const PROMPT_TOO_LONG := Assistant(0, [], PromptTooLong, true)

  lemma ErrorStream(cfg: Config, media: bool, m: Message)
    requires m in {OUTPUT_LIMIT_HIT, PROMPT_TOO_LONG}
    ensures AttemptsOk(cfg, [Attempt([Reply(m, {})], Finished)])
    ensures var s := RunAttempts(cfg, media, Start(cfg, false), [Attempt([Reply(m, {})], Finished)]);
      s.assistants == [m] && !s.followUp && !s.aborted
  {
    var items := [Reply(m, {})];
    var s0 := Start(cfg, false);
    assert s0.(fallback := false) == s0;
    assert items[..0] == [];
    assert RunItems(cfg, media, s0, []) == s0;
    assert RunItems(cfg, media, s0, items) == StepItem(cfg, media, s0, items[0]);
    hide Withheld, NewResults;
  }

  /** Which retry an error leads to. */
  function RetryFor(st: Loop, m: Message): Transition {
    if m == PROMPT_TOO_LONG then ReactiveCompact
    else if st.override.None? then Escalate
    else Recovery(st.recoveryCount + 1)
  }

  predicate CanRetry(st: Loop, m: Message) {
    && !st.aborted
    && m in {OUTPUT_LIMIT_HIT, PROMPT_TOO_LONG}
    && (m == PROMPT_TOO_LONG ==> !st.attempted)
    && (m == OUTPUT_LIMIT_HIT ==> st.override.None? || st.recoveryCount < MAX_OUTPUT_TOKENS_RECOVERY_LIMIT)
  }

  lemma RetryRecovers(cfg: Config, st: Loop, env: Iteration, s: Stream, m: Message)
    requires cfg.reactive && CanRetry(st, m) && s.assistants == [m]
    requires env.drained.None? && env.capEnabled && !env.mediaRecovery && (m == PROMPT_TOO_LONG ==> env.compacted.Some?)
    ensures Recover(cfg, st, env, s).Next?
    ensures Recover(cfg, st, env, s).loop.transition == Some(RetryFor(st, m))
    ensures !Recover(cfg, st, env, s).loop.aborted
  {
    hide Sent, EmitAll, Charge, Finish;
    assert Last(s) == Some(m);
    hide Last;
    if m == PROMPT_TOO_LONG {
      assert IsTooLong(m);
    } else {
      assert !IsTooLong(m) && !MediaError(cfg, env.mediaRecovery, m);
    }
  }

  lemma RetryReplies(cfg: Config, st: Loop, m: Message) returns (s: Stream)
    requires cfg.reactive && CanRetry(st, m)
    ensures AttemptsOk(cfg, ErrorIteration(st, m).attempts) && IterationOk(cfg, st, ErrorIteration(st, m))
    ensures s.assistants == [m]
    ensures var env := ErrorIteration(st, m); var st1 := Replied(Prepare(cfg, st, env), env, s);
      && Iterate(cfg, st, env) == Recover(cfg, st1, env, s)
      && SameCounters(st, st1) && !st1.aborted
  {
    var env := ErrorIteration(st, m);
    ErrorStream(cfg, false, m);
    assert WellPaired([]);
    hide WellPaired, Recover, RunAttempts, Start;
    s := Request(cfg, st, env);
  }

  /** Each of these errors is answered by its retry. */
  lemma RetryIterates(cfg: Config, st: Loop, m: Message)
    requires cfg.reactive && CanRetry(st, m)
    ensures AttemptsOk(cfg, ErrorIteration(st, m).attempts) && IterationOk(cfg, st, ErrorIteration(st, m))
    ensures Iterate(cfg, st, ErrorIteration(st, m)).Next?
    ensures !Iterate(cfg, st, ErrorIteration(st, m)).loop.aborted
    ensures Moves(cfg, st, RetryFor(st, m), Iterate(cfg, st, ErrorIteration(st, m)).loop)
  {
    var env := ErrorIteration(st, m);
    var s := RetryReplies(cfg, st, m);
    var st1 := Replied(Prepare(cfg, st, env), env, s);
    hide IterationOk, Iterate, Recover, Prepare, Replied;
    RetryRecovers(cfg, st1, env, s, m);
    var why := IterateMoves(cfg, st, env);
  }

  ghost predicate Leads(cfg: Config, st: Loop, n: nat, st': Loop) {
    exists envs: seq<Iteration> :: |envs| == n && Runs(cfg, st, envs, st')
  }

  lemma {:induction false} RunsOn(cfg: Config, st: Loop, envs: seq<Iteration>, st': Loop, env: Iteration)
    requires Runs(cfg, st, envs, st') && AttemptsOk(cfg, env.attempts)
    requires IterationOk(cfg, st', env) && Iterate(cfg, st', env).Next?
    ensures Runs(cfg, st, envs + [env], Iterate(cfg, st', env).loop)
    decreases |envs|
  {
    if envs == [] {
      assert [] + [env] == [env] && [env][1..] == [];
      hide Iterate, IterationOk;
    } else {
      assert AttemptsOk(cfg, envs[0].attempts);
      hide Iterate, IterationOk;
      RunsOn(cfg, Iterate(cfg, st, envs[0]).loop, envs[1..], st', env);
      assert (envs + [env])[1..] == envs[1..] + [env];
    }
  }

  lemma RetryLeads(cfg: Config, st0: Loop, n: nat, st: Loop, m: Message) returns (st': Loop)
    requires cfg.reactive && CanRetry(st, m) && Leads(cfg, st0, n, st)
    ensures Leads(cfg, st0, n + 1, st') && !st'.aborted && Moves(cfg, st, RetryFor(st, m), st')
  {
    RetryIterates(cfg, st, m);
    hide Iterate, IterationOk, Moves, RetryFor, CanRetry, Runs;
    var envs :| |envs| == n && Runs(cfg, st0, envs, st);
    var env := ErrorIteration(st, m);
    RunsOn(cfg, st0, envs, st, env);
    st' := Iterate(cfg, st, env).loop;
    assert |envs + [env]| == n + 1;
  }

  /** Hitting the output limit twice: the limit is raised, and then the model is asked to resume, which
      takes the raised limit back. */
  lemma RaisedAndTakenBack(cfg: Config, st0: Loop, n: nat, st: Loop) returns (st': Loop)
    requires cfg.reactive && !st.aborted && st.override.None? && Leads(cfg, st0, n, st)
    requires st.recoveryCount < MAX_OUTPUT_TOKENS_RECOVERY_LIMIT
    ensures Leads(cfg, st0, n + 2, st') && !st'.aborted && st'.override.None?
    ensures st'.recoveryCount == st.recoveryCount + 1 && st'.attempted == st.attempted && st'.turnCount == st.turnCount
    ensures st'.trace == st.trace + [Escalate, Recovery(st.recoveryCount + 1)]
  {
    hide Leads;
    var st1 := RetryLeads(cfg, st0, n, st, OUTPUT_LIMIT_HIT);
    assert st1.trace == st.trace + [Escalate];
    st' := RetryLeads(cfg, st0, n + 1, st1, OUTPUT_LIMIT_HIT);
  }

  /** The escalation that follows a compaction which follows an escalation. */
  lemma RaisedAroundCompaction(cfg: Config, st0: Loop, n: nat, st: Loop) returns (st': Loop)
    requires cfg.reactive && !st.aborted && st.override.None? && !st.attempted && Leads(cfg, st0, n, st)
    ensures Leads(cfg, st0, n + 3, st') && st'.turnCount == st.turnCount
    ensures st'.trace == st.trace + [Escalate, ReactiveCompact, Escalate]
  {
    hide Leads;
    var st1 := RetryLeads(cfg, st0, n, st, OUTPUT_LIMIT_HIT);
    assert st1.trace == st.trace + [Escalate];
    var st2 := RetryLeads(cfg, st0, n + 1, st1, PROMPT_TOO_LONG);
    assert st2.trace == st.trace + [Escalate, ReactiveCompact];
    st' := RetryLeads(cfg, st0, n + 2, st2, OUTPUT_LIMIT_HIT);
  }

  /** The bound of nine retries without a drain is reached, and the escalation, which the source says
      fires once per turn (source/src/query.ts:1191-1195), fires five times in the first turn. */
  lemma EscalatesAgain(cfg: Config, messages: seq<Message>) returns (st: Loop)
    requires cfg.reactive
    ensures Leads(cfg, Initial(messages, None), 9, st) && st.turnCount == 1
    ensures st.trace == [Escalate, Recovery(1), Escalate, Recovery(2), Escalate, Recovery(3), Escalate,
                         ReactiveCompact, Escalate]
  {
    var st0 := Initial(messages, None);
    LeadsNowhere(cfg, st0);
    hide Leads;
    st := RaisedAndTakenBack(cfg, st0, 0, st0);
    st := RaisedAndTakenBack(cfg, st0, 2, st);
    st := RaisedAndTakenBack(cfg, st0, 4, st);
    st := RaisedAroundCompaction(cfg, st0, 6, st);
  }

  lemma LeadsNowhere(cfg: Config, st: Loop)
    ensures Leads(cfg, st, 0, st)
  {
    var none: seq<Iteration> := [];
    assert |none| == 0 && Runs(cfg, st, none, st);
  }

  // ---------------------------------------------------------------- the task budget

  function Sum(contexts: seq<nat>): nat {
    if contexts == [] then 0 else Sum(contexts[..|contexts| - 1]) + contexts[|contexts| - 1]
  }

  /** What is left of the task budget after compactions that replaced contexts of the given sizes. */
  function Remaining(cfg: Config, contexts: seq<nat>): Option<nat> {
    if contexts == [] || cfg.taskBudget.None? then None
    else
      var left := cfg.taskBudget.value - Sum(contexts);
      Some(if left < 0 then 0 else left)
  }

  ghost predicate BudgetOk(cfg: Config, st: Loop) { st.budget == Remaining(cfg, st.contexts) }

  lemma Charged(cfg: Config, contexts: seq<nat>, context: nat)
    ensures Charge(cfg, Remaining(cfg, contexts), context) == Remaining(cfg, contexts + [context])
  {
    assert (contexts + [context])[..|contexts|] == contexts;
  }

  lemma PrepareBudget(cfg: Config, st: Loop, env: Iteration)
    requires BudgetOk(cfg, st)
    ensures BudgetOk(cfg, Prepare(cfg, st, env)) && st.contexts <= Prepare(cfg, st, env).contexts
  {
    if env.compaction.Some? {
      Charged(cfg, st.contexts, env.compaction.value.context);
    }
    hide Remaining, Charge, EmitAll;
  }

  lemma FinishBudget(cfg: Config, st: Loop, env: Iteration, s: Stream)
    ensures SameBudget(st, Finish(cfg, st, env, s).loop)
  {
    hide EmitAll, Sent, Notes, Last;
  }

  lemma OutputBudget(cfg: Config, st: Loop, env: Iteration, s: Stream, error: Message)
    ensures SameBudget(st, RecoverOutput(cfg, st, env, s, error).loop)
  {
    FinishBudget(cfg, Yielding(st, [Emit(error)]), env, s);
    hide Sent, Finish;
  }

  predicate SameBudget(a: Loop, b: Loop) { a.budget == b.budget && a.contexts == b.contexts }

  lemma CompactBudget(cfg: Config, st: Loop, c: Compaction)
    requires BudgetOk(cfg, st)
    ensures BudgetOk(cfg, CompactRetry(cfg, st, c).loop) && st.contexts <= CompactRetry(cfg, st, c).loop.contexts
  {
    Charged(cfg, st.contexts, c.context);
    hide Remaining, Charge, EmitAll;
  }

  lemma RecoverBudget(cfg: Config, st: Loop, env: Iteration, s: Stream)
    requires BudgetOk(cfg, st)
    ensures BudgetOk(cfg, Recover(cfg, st, env, s).loop) && st.contexts <= Recover(cfg, st, env, s).loop.contexts
  {
    hide Remaining, EmitAll, IsTooLong, MediaError, Sent, Notes, CompactRetry, RecoverOutput, Finish;
    var last := Last(s);
    FinishBudget(cfg, st, env, s);
    if last.Some? {
      OutputBudget(cfg, st, env, s, last.value);
    }
    if env.compacted.Some? {
      CompactBudget(cfg, st, env.compacted.value);
    }
  }

  lemma ToolBudget(cfg: Config, st: Loop, env: Iteration, s: Stream)
    ensures SameBudget(st, RunTools(cfg, st, env, s).loop)
  {
    hide RestOfTools, Answers, EmitAll, Notes, Sent;
  }

  lemma StopBudget(st: Loop, end: End, env: Iteration, s: Stream)
    ensures SameBudget(st, Fail(st, end, s).loop) && SameBudget(st, Interrupt(st, env, s).loop)
    ensures SameBudget(st, Replied(st, env, s))
  {
    hide EmitAll, Answers, AbortAnswers, UseIds;
  }

  lemma IterateBudget(cfg: Config, st: Loop, env: Iteration)
    requires BudgetOk(cfg, st) && AttemptsOk(cfg, env.attempts)
    ensures BudgetOk(cfg, Iterate(cfg, st, env).loop) && st.contexts <= Iterate(cfg, st, env).loop.contexts
  {
    PrepareBudget(cfg, st, env);
    var s := Request(cfg, st, env);
    var st1 := Prepare(cfg, st, env);
    hide Remaining, Recover, RunTools, Prepare, Request, Fail, Interrupt, Replied, Preempted, Aborted;
    StopBudget(st1, EndOf(env.attempts), env, s);
    RecoverBudget(cfg, Replied(st1, env, s), env, s);
    ToolBudget(cfg, Replied(st1, env, s), env, s);
  }

  lemma {:induction false} SumPrefix(a: seq<nat>, b: seq<nat>)
    requires a <= b
    ensures Sum(a) <= Sum(b)
    decreases |b|
  {
    if a == b {
    } else {
      SumPrefix(a, b[..|b| - 1]);
    }
  }

  /** Main result: after any mixture of automatic and reactive compactions the budget is what the
      compacted contexts leave of the total, and it never grows. */
  lemma {:induction false} RunBudget(cfg: Config, st: Loop, envs: seq<Iteration>, st': Loop)
    requires Runs(cfg, st, envs, st') && BudgetOk(cfg, st)
    ensures BudgetOk(cfg, st') && st.contexts <= st'.contexts
    ensures st.budget.Some? ==> st'.budget.Some? && st'.budget.value <= st.budget.value
    decreases |envs|
  {
    if envs != [] {
      var st1 := Iterate(cfg, st, envs[0]).loop;
      IterateBudget(cfg, st, envs[0]);
      hide Iterate, IterationOk, Sum;
      RunBudget(cfg, st1, envs[1..], st');
      SumPrefix(st.contexts, st'.contexts);
    }
  }
}
