/** What decides how an iteration of the loop goes on or stops: conditions on the transitions taken so far,
    on the request and on the environment, of which exactly one holds. */
module QueryDecisions {
  import opened Options
  import opened QueryMessages
  import opened QueryStream
  import opened QueryLoop
  import opened QueryBounds

  datatype Outcome = Continues(why: Transition) | Stops(reason: Reason)

  /** What a caller sees of a step. */
  predicate HasOutcome(step: Step, o: Outcome) {
    match o
    case Continues(why) => step.Next? && step.loop.transition == Some(why)
    case Stops(reason) => step.End? && step.reason == reason
  }

  // ---------------------------------------------------------------- the conditions

  /** The reply arrived in full and nothing was aborted. */
  predicate Arrives(cfg: Config, env: Iteration, s: Stream)
    requires env.attempts != []
  {
    !Preempted(cfg, env) && EndOf(env.attempts) == Finished && !Aborted(s, env)
  }

  predicate LastIsTooLong(s: Stream) { Last(s).Some? && IsTooLong(Last(s).value) }

  predicate LastIsMedia(cfg: Config, env: Iteration, s: Stream) {
    Last(s).Some? && MediaError(cfg, env.mediaRecovery, Last(s).value)
  }

  predicate LastIsCutOff(s: Stream) {
    Last(s).Some? && Last(s).value.Assistant? && Last(s).value.problem == MaxOutputTokens
  }

  predicate LastIsApiError(s: Stream) {
    Last(s).Some? && Last(s).value.Assistant? && Last(s).value.isApiError
  }

  /** Staged collapses are drained, but not twice in a row. */
  predicate Drains(cfg: Config, trace: seq<Transition>, env: Iteration, s: Stream) {
    LastIsTooLong(s) && cfg.collapse && env.drained.Some? && !EndsWith(trace, CollapseDrain)
  }

  predicate Compacts(cfg: Config, trace: seq<Transition>, env: Iteration, s: Stream) {
    (LastIsTooLong(s) || LastIsMedia(cfg, env, s)) && cfg.reactive && env.compacted.Some? && !Drains(cfg, trace, env, s)
  }

  /** An error that only draining or compaction could have helped with. */
  predicate Overflows(cfg: Config, trace: seq<Transition>, env: Iteration, s: Stream) {
    && ((LastIsTooLong(s) && (cfg.collapse || cfg.reactive)) || LastIsMedia(cfg, env, s))
    && !Drains(cfg, trace, env, s) && !Compacts(cfg, trace, env, s)
  }

  /** The output limit is raised unless it is raised already. */
  predicate Raises(override: Option<nat>, trace: seq<Transition>, env: Iteration, s: Stream) {
    LastIsCutOff(s) && env.capEnabled && !IsRaised(override, trace)
  }

  predicate Resumes(override: Option<nat>, trace: seq<Transition>, env: Iteration, s: Stream) {
    && LastIsCutOff(s) && !Raises(override, trace, env, s)
    && RecoveriesSince(trace) < MAX_OUTPUT_TOKENS_RECOVERY_LIMIT
  }

  /** A reply without tool calls that nothing recovers from or needs to. */
  predicate EndsTurn(cfg: Config, override: Option<nat>, trace: seq<Transition>, env: Iteration, s: Stream)
    requires env.attempts != []
  {
    && Arrives(cfg, env, s) && !s.followUp
    && !Drains(cfg, trace, env, s) && !Compacts(cfg, trace, env, s) && !Overflows(cfg, trace, env, s)
    && !Raises(override, trace, env, s) && !Resumes(override, trace, env, s)
  }

  predicate HooksDecide(cfg: Config, override: Option<nat>, trace: seq<Transition>, env: Iteration, s: Stream)
    requires env.attempts != []
  {
    EndsTurn(cfg, override, trace, env, s) && !LastIsApiError(s)
  }

  predicate AtTurnLimit(cfg: Config, trace: seq<Transition>) {
    cfg.maxTurns > 0 && 1 + Turns(trace) >= cfg.maxTurns
  }

  /** The condition under which an iteration has the given outcome. */
  predicate Guard(cfg: Config, override: Option<nat>, trace: seq<Transition>, env: Iteration, s: Stream, o: Outcome)
    requires env.attempts != []
  {
    match o
    case Continues(CollapseDrain) => Arrives(cfg, env, s) && !s.followUp && Drains(cfg, trace, env, s)
    case Continues(ReactiveCompact) => Arrives(cfg, env, s) && !s.followUp && Compacts(cfg, trace, env, s)
    case Continues(Escalate) => Arrives(cfg, env, s) && !s.followUp && Raises(override, trace, env, s)
    case Continues(Recovery(n)) =>
      Arrives(cfg, env, s) && !s.followUp && Resumes(override, trace, env, s) && n == RecoveriesSince(trace) + 1
    case Continues(StopHookBlocking) =>
      HooksDecide(cfg, override, trace, env, s) && !env.hookPrevents && env.hookBlocks > 0
    case Continues(BudgetContinuation) =>
      && HooksDecide(cfg, override, trace, env, s) && !env.hookPrevents && env.hookBlocks == 0
      && cfg.tokenBudget && env.budgetContinues
    case Continues(NextTurn) =>
      Arrives(cfg, env, s) && s.followUp && !env.abortInTools && !env.hookStopped && !AtTurnLimit(cfg, trace)
    case Stops(BlockingLimit) => Preempted(cfg, env)
    case Stops(ModelError) => !Preempted(cfg, env) && EndOf(env.attempts) in {OtherFailure, ModelFallback}
    case Stops(ImageError) =>
      || (!Preempted(cfg, env) && EndOf(env.attempts) == ImageFailure)
      || (Arrives(cfg, env, s) && !s.followUp && Overflows(cfg, trace, env, s) && LastIsMedia(cfg, env, s))
    case Stops(PromptTooLongReason) =>
      Arrives(cfg, env, s) && !s.followUp && Overflows(cfg, trace, env, s) && LastIsTooLong(s)
    case Stops(AbortedStreaming) => !Preempted(cfg, env) && EndOf(env.attempts) == Finished && Aborted(s, env)
    case Stops(Completed) =>
      || (EndsTurn(cfg, override, trace, env, s) && LastIsApiError(s))
      || (HooksDecide(cfg, override, trace, env, s) && !env.hookPrevents && env.hookBlocks == 0
          && !(cfg.tokenBudget && env.budgetContinues))
    case Stops(StopHookPrevented) => HooksDecide(cfg, override, trace, env, s) && env.hookPrevents
    case Stops(AbortedTools) => Arrives(cfg, env, s) && s.followUp && env.abortInTools
    case Stops(HookStopped) => Arrives(cfg, env, s) && s.followUp && !env.abortInTools && env.hookStopped
    case Stops(MaxTurns) =>
      Arrives(cfg, env, s) && s.followUp && !env.abortInTools && !env.hookStopped && AtTurnLimit(cfg, trace)
  }

  // ---------------------------------------------------------------- exactly one holds

  lemma ErrorsDiffer(cfg: Config, env: Iteration, s: Stream)
    ensures !(LastIsTooLong(s) && LastIsMedia(cfg, env, s))
    ensures LastIsCutOff(s) ==> !LastIsTooLong(s) && !LastIsMedia(cfg, env, s)
    ensures LastIsMedia(cfg, env, s) ==> cfg.reactive
  {
  }

  lemma GuardsExclude(cfg: Config, override: Option<nat>, trace: seq<Transition>, env: Iteration, s: Stream,
                      o: Outcome, p: Outcome)
    requires env.attempts != []
    requires Guard(cfg, override, trace, env, s, o) && Guard(cfg, override, trace, env, s, p)
    ensures o == p
  {
    ErrorsDiffer(cfg, env, s);
    hide LastIsTooLong, LastIsMedia, LastIsCutOff, LastIsApiError, AtTurnLimit, RecoveriesSince, IsRaised, Preempted,
         Aborted, EndOf;
  }

  // ---------------------------------------------------------------- and it decides

  /** The guards of the loop state are what the trace says. */
  predicate Agrees(override: Option<nat>, trace: seq<Transition>, st: Loop) {
    && (st.transition == Some(CollapseDrain) <==> EndsWith(trace, CollapseDrain))
    && (st.override.Some? <==> IsRaised(override, trace))
    && st.recoveryCount == RecoveriesSince(trace)
    && st.turnCount == 1 + Turns(trace)
  }

  lemma FinishDecides(cfg: Config, override: Option<nat>, trace: seq<Transition>, st: Loop, env: Iteration, s: Stream)
      returns (o: Outcome)
    requires env.attempts != [] && EndsTurn(cfg, override, trace, env, s)
    ensures HasOutcome(Finish(cfg, st, env, s), o) && Guard(cfg, override, trace, env, s, o)
  {
    o := if LastIsApiError(s) then Stops(Completed)
         else if env.hookPrevents then Stops(StopHookPrevented)
         else if env.hookBlocks > 0 then Continues(StopHookBlocking)
         else if cfg.tokenBudget && env.budgetContinues then Continues(BudgetContinuation)
         else Stops(Completed);
    hide EndsTurn, Sent, EmitAll, Notes, Last;
  }

  lemma OutputDecides(cfg: Config, override: Option<nat>, trace: seq<Transition>, st: Loop, env: Iteration, s: Stream,
                      error: Message) returns (o: Outcome)
    requires env.attempts != [] && Arrives(cfg, env, s) && !s.followUp && LastIsCutOff(s) && Agrees(override, trace, st)
    ensures HasOutcome(RecoverOutput(cfg, st, env, s, error), o) && Guard(cfg, override, trace, env, s, o)
  {
    ErrorsDiffer(cfg, env, s);
    hide Sent, Finish, Last, LastIsTooLong, LastIsMedia, LastIsCutOff, IsRaised, RecoveriesSince, Turns, Arrives;
    if env.capEnabled && st.override.None? {
      o := Continues(Escalate);
    } else if st.recoveryCount < MAX_OUTPUT_TOKENS_RECOVERY_LIMIT {
      o := Continues(Recovery(st.recoveryCount + 1));
    } else {
      assert EndsTurn(cfg, override, trace, env, s);
      hide Guard, EndsTurn;
      o := FinishDecides(cfg, override, trace, Yielding(st, [Emit(error)]), env, s);
    }
  }

  lemma RecoverDecides(cfg: Config, override: Option<nat>, trace: seq<Transition>, st: Loop, env: Iteration, s: Stream)
      returns (o: Outcome)
    requires env.attempts != [] && Arrives(cfg, env, s) && !s.followUp && Agrees(override, trace, st)
    ensures HasOutcome(Recover(cfg, st, env, s), o) && Guard(cfg, override, trace, env, s, o)
  {
    ErrorsDiffer(cfg, env, s);
    hide RecoverOutput, Finish, CompactRetry, Sent, IsTooLong, MediaError, IsRaised, RecoveriesSince, Turns, Arrives;
    if Drains(cfg, trace, env, s) {
      o := Continues(CollapseDrain);
    } else if Compacts(cfg, trace, env, s) {
      o := Continues(ReactiveCompact);
      CompactContinues(cfg, st, env.compacted.value);
    } else if Overflows(cfg, trace, env, s) {
      o := Stops(if LastIsMedia(cfg, env, s) then ImageError else PromptTooLongReason);
    } else if LastIsCutOff(s) {
      hide Guard;
      o := OutputDecides(cfg, override, trace, st, env, s, Last(s).value);
    } else {
      assert EndsTurn(cfg, override, trace, env, s);
      hide Guard, EndsTurn;
      o := FinishDecides(cfg, override, trace, st, env, s);
    }
  }

  lemma CompactContinues(cfg: Config, st: Loop, c: Compaction)
    ensures HasOutcome(CompactRetry(cfg, st, c), Continues(ReactiveCompact))
  {
    hide EmitAll, Charge;
  }

  lemma ToolsDecide(cfg: Config, override: Option<nat>, trace: seq<Transition>, st: Loop, env: Iteration, s: Stream)
      returns (o: Outcome)
    requires env.attempts != [] && Arrives(cfg, env, s) && s.followUp && Agrees(override, trace, st)
    ensures HasOutcome(RunTools(cfg, st, env, s), o) && Guard(cfg, override, trace, env, s, o)
  {
    o := if env.abortInTools then Stops(AbortedTools)
         else if env.hookStopped then Stops(HookStopped)
         else if AtTurnLimit(cfg, trace) then Stops(MaxTurns)
         else Continues(NextTurn);
    hide RestOfTools, Answers, EmitAll, Notes, Sent, Interruption, Turns, IsRaised, RecoveriesSince, Arrives;
  }

  lemma IterateDecides(cfg: Config, override: Option<nat>, st: Loop, env: Iteration) returns (o: Outcome)
    requires AttemptsOk(cfg, env.attempts) && Agrees(override, st.trace, st)
    ensures HasOutcome(Iterate(cfg, st, env), o) && Guard(cfg, override, st.trace, env, Request(cfg, st, env), o)
  {
    var s := Request(cfg, st, env);
    var st1 := Replied(Prepare(cfg, st, env), env, s);
    RepliedSame(cfg, st, env, s);
    assert Agrees(override, st.trace, st1);
    hide Request, Prepare, Replied, Recover, RunTools, Agrees;
    if Preempted(cfg, env) {
      o := Stops(BlockingLimit);
    } else if EndOf(env.attempts) == ImageFailure {
      o := Stops(ImageError);
    } else if EndOf(env.attempts) != Finished {
      o := Stops(ModelError);
    } else if Aborted(s, env) {
      o := Stops(AbortedStreaming);
    } else if s.followUp {
      hide Guard;
      o := ToolsDecide(cfg, override, st.trace, st1, env, s);
    } else {
      hide Guard;
      o := RecoverDecides(cfg, override, st.trace, st1, env, s);
    }
  }

  lemma RunAgrees(cfg: Config, messages: seq<Message>, override: Option<nat>, envs: seq<Iteration>, st: Loop)
    requires Runs(cfg, Initial(messages, override), envs, st)
    ensures Agrees(override, st.trace, st)
  {
    InitialCounted(cfg, messages, override);
    RunIsOrderly(cfg, override, Initial(messages, override), envs, st);
    hide Runs, Turns, RecoveriesSince, IsRaised, Orderly, Within;
  }

  /** Main result: in every run each transition and each reason to stop has its condition on the transitions
      taken so far, the request and the environment; an iteration has the outcome exactly if the condition
      holds, and since it has exactly one outcome, exactly one of the conditions holds. */
  lemma OutcomeIff(cfg: Config, messages: seq<Message>, override: Option<nat>, envs: seq<Iteration>, st: Loop,
                   env: Iteration, o: Outcome)
    requires Runs(cfg, Initial(messages, override), envs, st) && AttemptsOk(cfg, env.attempts)
    ensures HasOutcome(Iterate(cfg, st, env), o) <==> Guard(cfg, override, st.trace, env, Request(cfg, st, env), o)
  {
    RunAgrees(cfg, messages, override, envs, st);
    hide Runs, Agrees, Iterate, Guard, Request;
    var actual := IterateDecides(cfg, override, st, env);
    if Guard(cfg, override, st.trace, env, Request(cfg, st, env), o) {
      GuardsExclude(cfg, override, st.trace, env, Request(cfg, st, env), actual, o);
    }
  }

  /** Main result: with a turn limit, a run that stops for it stops at exactly that number of turns. */
  lemma StopsAtTheLimit(cfg: Config, messages: seq<Message>, override: Option<nat>, envs: seq<Iteration>, st: Loop,
                        env: Iteration)
    requires Runs(cfg, Initial(messages, override), envs, st) && AttemptsOk(cfg, env.attempts)
    requires Iterate(cfg, st, env).End? && Iterate(cfg, st, env).reason == MaxTurns
    ensures st.turnCount == 1 + Turns(st.trace) == cfg.maxTurns
  {
    OutcomeIff(cfg, messages, override, envs, st, env, Stops(MaxTurns));
    hide Runs, Turns, Blocks, Continuations, QueryBounds.Drains, Iterate, Request;
    RunIsBounded(cfg, messages, override, envs, st);
  }

  // ---------------------------------------------------------------- how often the output limit is raised

  /** A reply without tool calls that is cut off at the output limit, while the limit may be raised. */
  predicate HitsLimit(cfg: Config, st: Loop, env: Iteration)
    requires AttemptsOk(cfg, env.attempts)
  {
    var s := Request(cfg, st, env);
    Arrives(cfg, env, s) && !s.followUp && LastIsCutOff(s) && env.capEnabled
  }

  /** The limit is raised exactly when it is hit and the previous transition did not raise it. */
  lemma EscalatesIff(cfg: Config, messages: seq<Message>, override: Option<nat>, envs: seq<Iteration>, st: Loop,
                     env: Iteration)
    requires Runs(cfg, Initial(messages, override), envs, st) && AttemptsOk(cfg, env.attempts)
    ensures HasOutcome(Iterate(cfg, st, env), Continues(Escalate))
            <==> HitsLimit(cfg, st, env) && !IsRaised(override, st.trace)
  {
    OutcomeIff(cfg, messages, override, envs, st, env, Continues(Escalate));
    hide Runs, Iterate, Request, Arrives, LastIsCutOff, IsRaised, HasOutcome;
  }

  /** Which iterations of a run hit the limit. */
  ghost function Hits(cfg: Config, st: Loop, envs: seq<Iteration>): (hits: seq<bool>)
    requires forall k | 0 <= k < |envs| :: AttemptsOk(cfg, envs[k].attempts)
    ensures |hits| == |envs|
    decreases |envs|
  {
    if envs == [] then []
    else [HitsLimit(cfg, st, envs[0])] + Hits(cfg, Iterate(cfg, st, envs[0]).loop, envs[1..])
  }

  lemma {:induction false} RunAttemptsOk(cfg: Config, st: Loop, envs: seq<Iteration>, st': Loop)
    requires Runs(cfg, st, envs, st')
    ensures forall k | 0 <= k < |envs| :: AttemptsOk(cfg, envs[k].attempts)
    decreases |envs|
  {
    if envs != [] {
      assert AttemptsOk(cfg, envs[0].attempts);
      var next := Iterate(cfg, st, envs[0]).loop;
      hide Iterate, IterationOk, AttemptsOk;
      RunAttemptsOk(cfg, next, envs[1..], st');
      assert forall k | 0 < k < |envs| :: envs[k] == envs[1..][k - 1];
    }
  }

  lemma StepTrace(cfg: Config, st: Loop, env: Iteration) returns (why: Transition)
    requires IterationOk(cfg, st, env) && AttemptsOk(cfg, env.attempts) && Iterate(cfg, st, env).Next?
    ensures Iterate(cfg, st, env).loop.trace == st.trace + [why]
    ensures Iterate(cfg, st, env).loop.transition == Some(why)
  {
    hide Iterate, IterationOk;
    why := IterateMoves(cfg, st, env);
  }

  /** The transitions of the rest of a run follow its hits. */
  lemma {:induction false} HitsEscalate(cfg: Config, messages: seq<Message>, override: Option<nat>,
                                        done: seq<Iteration>, st: Loop, envs: seq<Iteration>, st': Loop)
    requires Runs(cfg, Initial(messages, override), done, st) && Runs(cfg, st, envs, st')
    requires forall k | 0 <= k < |envs| :: AttemptsOk(cfg, envs[k].attempts)
    ensures |st'.trace| == |st.trace| + |envs| && st.trace <= st'.trace
    ensures forall k: nat | k < |envs| ::
              st'.trace[|st.trace| + k] == Escalate
              <==> Hits(cfg, st, envs)[k] && !IsRaised(override, st'.trace[..|st.trace| + k])
    decreases |envs|
  {
    hide Iterate, IterationOk, HitsLimit, IsRaised, AttemptsOk;
    if envs != [] {
      var env, n := envs[0], |st.trace|;
      var next := Iterate(cfg, st, env).loop;
      var why := StepTrace(cfg, st, env);
      EscalatesIff(cfg, messages, override, done, st, env);
      RunsOn(cfg, Initial(messages, override), done, st, env);
      HitsEscalate(cfg, messages, override, done + [env], next, envs[1..], st');
      assert next.trace == st'.trace[..n + 1] && next.trace[..n] == st.trace;
      assert st'.trace[..n] == st'.trace[..n + 1][..n];
      var hits, rest := Hits(cfg, st, envs), Hits(cfg, next, envs[1..]);
      assert hits == [HitsLimit(cfg, st, env)] + rest;
      forall k: nat | k < |envs|
        ensures st'.trace[n + k] == Escalate <==> hits[k] && !IsRaised(override, st'.trace[..n + k])
      {
        if k > 0 {
          assert hits[k] == rest[k - 1] && |next.trace| + (k - 1) == n + k;
        } else {
          assert st'.trace[n] == why && st'.trace[..n + 0] == st.trace;
        }
      }
    }
  }

  predicate AtMostOnce(trace: seq<Transition>, from: nat, to: nat)
    requires to <= |trace|
  {
    forall i, j | from <= i < j < to :: !(trace[i] == Escalate && trace[j] == Escalate)
  }

  /** After the limit was raised it is not hit again later than in the next iteration. */
  predicate NoLaterHit(trace: seq<Transition>, hits: seq<bool>, from: nat, to: nat)
    requires to <= |trace| == |hits|
  {
    forall i, j | from <= i && i + 1 < j < to && trace[i] == Escalate :: !hits[j]
  }

  /** Main result: in any stretch of a run, a single turn for one, the output limit is raised at most once
      exactly if, after the iteration that first raises it, it is hit again in the next iteration at most. */
  lemma RaisedOnceIff(cfg: Config, messages: seq<Message>, override: Option<nat>, envs: seq<Iteration>, st: Loop,
                      from: nat, to: nat)
    requires Runs(cfg, Initial(messages, override), envs, st)
    requires forall k | 0 <= k < |envs| :: AttemptsOk(cfg, envs[k].attempts)
    requires from <= to <= |envs|
    ensures |st.trace| == |envs|
    ensures AtMostOnce(st.trace, from, to)
            <==> NoLaterHit(st.trace, Hits(cfg, Initial(messages, override), envs), from, to)
  {
    HitsFromStart(cfg, messages, override, envs, st);
    hide Runs, AttemptsOk, IsRaised, AtMostOnce, NoLaterHit, Iterate, HitsLimit;
    OnceIff(override, st.trace, Hits(cfg, Initial(messages, override), envs), from, to);
  }

  lemma HitsFromStart(cfg: Config, messages: seq<Message>, override: Option<nat>, envs: seq<Iteration>, st: Loop)
    requires Runs(cfg, Initial(messages, override), envs, st)
    requires forall k | 0 <= k < |envs| :: AttemptsOk(cfg, envs[k].attempts)
    ensures |st.trace| == |envs|
    ensures forall k: nat | k < |envs| ::
              st.trace[k] == Escalate
              <==> Hits(cfg, Initial(messages, override), envs)[k] && !IsRaised(override, st.trace[..k])
  {
    var start := Initial(messages, override);
    var none: seq<Iteration> := [];
    assert Runs(cfg, start, none, start) && start.trace == [];
    hide Runs, IsRaised, AttemptsOk, Iterate, HitsLimit;
    HitsEscalate(cfg, messages, override, none, start, envs, st);
    forall k: nat | k < |envs| ensures st.trace[|start.trace| + k] == st.trace[k] {
    }
  }

  lemma OnceIff(override: Option<nat>, trace: seq<Transition>, hits: seq<bool>, from: nat, to: nat)
    requires |trace| == |hits| && from <= to <= |trace|
    requires forall k: nat | k < |trace| :: trace[k] == Escalate <==> hits[k] && !IsRaised(override, trace[..k])
    ensures AtMostOnce(trace, from, to) <==> NoLaterHit(trace, hits, from, to)
  {
    forall j: nat | 0 < j < |trace| ensures IsRaised(override, trace[..j]) <==> trace[j - 1] == Escalate {
      assert trace[..j][j - 1] == trace[j - 1];
    }
    hide IsRaised;
    if AtMostOnce(trace, from, to) {
      forall i, j | from <= i && i + 1 < j < to && trace[i] == Escalate ensures !hits[j] {
        assert trace[j - 1] != Escalate && trace[j] != Escalate;
      }
    } else {
      var i, j :| from <= i < j < to && trace[i] == Escalate && trace[j] == Escalate;
      assert IsRaised(override, trace[..i + 1]);
      assert i + 1 < j && hits[j];
    }
  }
}
