/** The agentic loop of source/src/query.ts: one iteration as a function of the loop state and of what
    the environment does during it, and runs as sequences of iterations. */
module QueryLoop {
  import opened Options
  import opened QueryMessages
  import opened QueryStream

  const MAX_OUTPUT_TOKENS_RECOVERY_LIMIT: nat := 3
  const ESCALATED_MAX_TOKENS: nat := 64000

  /** Why an iteration was followed by another one. */
  datatype Transition =
    | CollapseDrain
    | ReactiveCompact
    | Escalate
    | Recovery(attempt: nat)
    | StopHookBlocking
    | BudgetContinuation
    | NextTurn

  datatype Reason =
    | BlockingLimit
    | ImageError
    | ModelError
    | AbortedStreaming
    | PromptTooLongReason
    | Completed
    | StopHookPrevented
    | AbortedTools
    | HookStopped
    | MaxTurns

  /** The state carried between iterations. The last three fields record history: what has been
      yielded, the transitions taken, and the size of the context at each compaction. */
  datatype Loop = Loop(
    messages: seq<Message>,
    recoveryCount: nat,
    attempted: bool,
    override: Option<nat>,
    stopHookActive: bool,
    turnCount: nat,
    transition: Option<Transition>,
    aborted: bool,
    budget: Option<nat>,
    out: seq<Yield>,
    trace: seq<Transition>,
    contexts: seq<nat>)

  function Initial(messages: seq<Message>, override: Option<nat>): Loop {
    Loop(messages, 0, false, override, false, 1, None, false, None, [], [], [])
  }

  /** The messages a compaction leaves, and the size of the context it replaced. */
  datatype Compaction = Compaction(messages: seq<Message>, context: nat)

  /** What the environment does during one iteration. */
  datatype Iteration = Iteration(
    prepared: seq<Message>,          // the history after snipping, micro-compaction and collapsing
    compaction: Option<Compaction>,  // automatic compaction
    mediaRecovery: bool,             // reactive compaction enabled, read once before the stream
    preemptOff: bool,                // reactive compaction and automatic compaction both enabled
    collapseOwns: bool,              // context collapse enabled and automatic compaction enabled
    atLimit: bool,                   // the history is at the blocking limit
    attempts: seq<Attempt>,
    abortAfterStream: bool,
    interrupt: bool,                 // the abort came from a newly submitted message
    summary: bool,                   // the pending tool summary has resolved to a message
    drained: Option<seq<Message>>,   // collapses committed on overflow
    compacted: Option<Compaction>,   // reactive compaction
    capEnabled: bool,                // output cap active and not overridden by the environment
    hookNotes: nat,                  // messages the stop hooks yield
    hookPrevents: bool,
    hookBlocks: nat,                 // blocking errors of the stop hooks
    budgetContinues: bool,           // the token budget asks for another round
    batches: seq<set<nat>>,          // order in which the remaining tools complete
    abortInTools: bool,
    hookStopped: bool,
    attachments: nat)                // checkpoint, queued commands, memories, skills

  datatype Step = Next(loop: Loop) | End(reason: Reason, loop: Loop)

  function Notes(n: nat): (ns: seq<Message>)
    ensures |ns| == n && forall m | m in ns :: m == Note
  {
    seq(n, _ => Note)
  }

  // ---------------------------------------------------------------- parts of an iteration

  function Charge(cfg: Config, budget: Option<nat>, context: nat): Option<nat> {
    match cfg.taskBudget
    case None => budget
    case Some(total) =>
      var left := (if budget.Some? then budget.value else total) - context;
      Some(if left < 0 then 0 else left)
  }

  /** The history sent to the model. */
  function Sent(env: Iteration): seq<Message> {
    if env.compaction.Some? then env.compaction.value.messages else env.prepared
  }

  /** The loop state after automatic compaction. */
  function Prepare(cfg: Config, st: Loop, env: Iteration): Loop {
    var st1 := st.(out := st.out + [Signal]);
    match env.compaction
    case None => st1
    case Some(c) =>
      st1.(budget := Charge(cfg, st.budget, c.context), contexts := st.contexts + [c.context],
           out := st1.out + EmitAll(c.messages))
  }

  predicate Preempted(cfg: Config, env: Iteration) {
    env.compaction.None? && !cfg.forked && !env.preemptOff && !env.collapseOwns && env.atLimit
  }

  function Yielding(st: Loop, ys: seq<Yield>): Loop {
    st.(out := st.out + ys)
  }

  function Request(cfg: Config, st: Loop, env: Iteration): Stream
    requires AttemptsOk(cfg, env.attempts)
  {
    RunAttempts(cfg, env.mediaRecovery, Start(cfg, st.aborted), env.attempts)
  }

  function Interruption(env: Iteration): seq<Yield> {
    if env.interrupt then [] else [Emit(Note)]
  }

  /** Results of all tools in hand that have none yet. Without the streaming executor all of them run now. */
  function RestOfTools(s: Stream, env: Iteration): seq<Id> {
    Drain(if s.executor.Some? then s.executor.value else Executor(s.blocks, {}), env.batches)
  }

  /** On abort the executor answers for its tools; without one every call of a retained reply is answered. */
  function AbortAnswers(s: Stream, env: Iteration): seq<Id> {
    if s.executor.Some? then Drain(s.executor.value, env.batches) else UseIds(s.assistants)
  }

  function Last(s: Stream): Option<Message> {
    if s.assistants == [] then None else Some(s.assistants[|s.assistants| - 1])
  }

  function Continue(st: Loop, messages: seq<Message>, why: Transition): Loop {
    st.(messages := messages, override := None, stopHookActive := false, transition := Some(why),
        trace := st.trace + [why])
  }

  // ---------------------------------------------------------------- the two halves

  /** The context did not fit: compact it and try again. */
  function CompactRetry(cfg: Config, st: Loop, c: Compaction): Step {
    Next(Continue(Yielding(st, EmitAll(c.messages)), c.messages, ReactiveCompact)
         .(attempted := true, budget := Charge(cfg, st.budget, c.context), contexts := st.contexts + [c.context]))
  }

  lemma CompactGoesOn(cfg: Config, st: Loop)
    ensures forall c :: CompactRetry(cfg, st, c).Next?
  {
  }

  /** The output limit was hit: raise it once, then ask to resume, a bounded number of times. */
  function RecoverOutput(cfg: Config, st: Loop, env: Iteration, s: Stream, error: Message): Step {
    if env.capEnabled && st.override.None? then
      Next(Continue(st, Sent(env), Escalate).(override := Some(ESCALATED_MAX_TOKENS)))
    else if st.recoveryCount < MAX_OUTPUT_TOKENS_RECOVERY_LIMIT then
      Next(Continue(st, Sent(env) + s.assistants + [Note], Recovery(st.recoveryCount + 1))
           .(recoveryCount := st.recoveryCount + 1))
    else
      Finish(cfg, Yielding(st, [Emit(error)]), env, s)
  }

  predicate MediaError(cfg: Config, mediaRecovery: bool, m: Message) {
    mediaRecovery && cfg.reactive && m.Assistant? && m.problem == MediaSize
  }

  /** A reply without tool calls: recover from a withheld error, or finish the turn. */
  function Recover(cfg: Config, st: Loop, env: Iteration, s: Stream): Step {
    var last := Last(s);
    var tooLong := last.Some? && IsTooLong(last.value);
    var media := last.Some? && MediaError(cfg, env.mediaRecovery, last.value);
    if tooLong && cfg.collapse && st.transition != Some(CollapseDrain) && env.drained.Some? then
      Next(Continue(st, env.drained.value, CollapseDrain))
    else if (tooLong || media) && cfg.reactive then
      if env.compacted.Some? then CompactRetry(cfg, st, env.compacted.value)
      else End(if media then ImageError else PromptTooLongReason, Yielding(st, [Emit(last.value)]))
    else if cfg.collapse && tooLong then
      End(PromptTooLongReason, Yielding(st, [Emit(last.value)]))
    else if last.Some? && last.value.Assistant? && last.value.problem == MaxOutputTokens then
      RecoverOutput(cfg, st, env, s, last.value)
    else
      Finish(cfg, st, env, s)
  }

  /** Stop hooks and the token budget, unless the last reply is an API error. */
  function Finish(cfg: Config, st: Loop, env: Iteration, s: Stream): Step {
    if Last(s).Some? && Last(s).value.Assistant? && Last(s).value.isApiError then End(Completed, st)
    else
      var st1 := Yielding(st, EmitAll(Notes(env.hookNotes)));
      if env.hookPrevents then End(StopHookPrevented, st1)
      else if env.hookBlocks > 0 then
        Next(Continue(st1, Sent(env) + s.assistants + Notes(env.hookBlocks), StopHookBlocking)
             .(recoveryCount := 0, stopHookActive := true))
      else if cfg.tokenBudget && env.budgetContinues then
        Next(Continue(st1, Sent(env) + s.assistants + [Note], BudgetContinuation)
             .(recoveryCount := 0, attempted := false))
      else End(Completed, st1)
  }

  /** A reply with tool calls: run them, then start the next turn. */
  function RunTools(cfg: Config, st: Loop, env: Iteration, s: Stream): Step {
    var done := Answers(RestOfTools(s, env));
    var st1 := Yielding(st, EmitAll(done));
    if env.abortInTools then
      End(AbortedTools,
          Yielding(st1, Interruption(env)
                        + if cfg.maxTurns > 0 && st.turnCount + 1 > cfg.maxTurns then [Emit(Note)] else [])
          .(aborted := true))
    else if env.hookStopped then End(HookStopped, st1)
    else
      var st2 := Yielding(st1, EmitAll(Notes(env.attachments)));
      if cfg.maxTurns > 0 && st.turnCount + 1 > cfg.maxTurns then
        End(MaxTurns, Yielding(st2, [Emit(Note)]))
      else
        Next(Continue(st2, Sent(env) + s.assistants + (s.results + done + Notes(env.attachments)), NextTurn)
             .(turnCount := st.turnCount + 1, recoveryCount := 0, attempted := false,
               stopHookActive := st.stopHookActive))
  }

  // ---------------------------------------------------------------- the whole iteration

  /** The stream threw: image errors are reported as they are, anything else answers the calls first. */
  function Fail(st: Loop, end: End, s: Stream): Step {
    var st1 := Yielding(st, s.out).(aborted := s.aborted);
    if end == ImageFailure then End(ImageError, Yielding(st1, [Emit(Note)]))
    else End(ModelError, Yielding(st1, MissingResults(UseIds(s.assistants)) + [Emit(Note)]))
  }

  /** The abort signal was set when the stream ended. */
  function Interrupt(st: Loop, env: Iteration, s: Stream): Step {
    End(AbortedStreaming,
        Yielding(st, s.out + (EmitAll(Answers(AbortAnswers(s, env))) + Interruption(env))).(aborted := true))
  }

  /** The loop state when the reply is complete. */
  function Replied(st: Loop, env: Iteration, s: Stream): Loop {
    Yielding(st, s.out + if env.summary then [Signal] else [])
  }

  predicate Aborted(s: Stream, env: Iteration) { s.aborted || env.abortAfterStream }

  /** One iteration of the loop. */
  function Iterate(cfg: Config, st: Loop, env: Iteration): Step
    requires AttemptsOk(cfg, env.attempts)
  {
    var st1 := Prepare(cfg, st, env);
    if Preempted(cfg, env) then End(BlockingLimit, Yielding(st1, [Emit(Note)]))
    else
      var s := Request(cfg, st, env);
      if EndOf(env.attempts) != Finished then Fail(st1, EndOf(env.attempts), s)
      else if Aborted(s, env) then Interrupt(st1, env, s)
      else if s.followUp then RunTools(cfg, Replied(st1, env, s), env, s)
      else Recover(cfg, Replied(st1, env, s), env, s)
  }

  // ---------------------------------------------------------------- contracts and runs

  /** What the modules around the loop guarantee: compaction, collapsing and the other preparations
      keep a history well paired, and reactive compaction is not repeated. */
  ghost predicate Faithful(st: Loop, env: Iteration) {
    && (WellPaired(st.messages) ==> WellPaired(env.prepared))
    && (env.compaction.Some? ==> WellPaired(env.compaction.value.messages))
    && (env.drained.Some? ==> WellPaired(env.drained.value))
    && (env.compacted.Some? ==> WellPaired(env.compacted.value.messages))
    && (st.attempted ==> env.compacted.None?)
  }

  ghost predicate IterationOk(cfg: Config, st: Loop, env: Iteration) {
    AttemptsOk(cfg, env.attempts) && Faithful(st, env)
  }

  /** `st'` is the state at the head of the loop after the given iterations, all of which continued. */
  ghost predicate Runs(cfg: Config, st: Loop, envs: seq<Iteration>, st': Loop)
    decreases |envs|
  {
    if envs == [] then st' == st
    else
      && IterationOk(cfg, st, envs[0])
      && Iterate(cfg, st, envs[0]).Next?
      && Runs(cfg, Iterate(cfg, st, envs[0]).loop, envs[1..], st')
  }
}
