/** The agentic loop in the form the source has it: loops that update local variables. Each is proved to
    compute what the functions of QueryStream and QueryLoop say. */
module QueryMachine {
  import opened Options
  import opened QueryMessages
  import opened QueryStream
  import opened QueryLoop
  import opened QueryPlay
  import QueryErrors
  import QueryPairing
  import QueryStreamProofs
  import QueryTranscript

  // ---------------------------------------------------------------- yielding

  lemma EmitNext(ms: seq<Message>, k: nat)
    requires k < |ms|
    ensures EmitAll(ms[..k + 1]) == EmitAll(ms[..k]) + [Emit(ms[k])]
    ensures TombstoneAll(ms[..k + 1]) == TombstoneAll(ms[..k]) + [Tombstone(ms[k])]
  {
  }

  /** Yields one result for each tool call of the given replies. */
  method YieldMissingToolResultBlocks(assistantMessages: seq<Message>) returns (out: seq<Yield>)
    ensures out == MissingResults(UseIds(assistantMessages))
  {
    out := [];
    for i := 0 to |assistantMessages|
      invariant out == EmitAll(Answers(UseIds(assistantMessages[..i])))
    {
      var toolUseBlocks := UsesOf(assistantMessages[i]);
      ghost var before := UseIds(assistantMessages[..i]);
      for j := 0 to |toolUseBlocks|
        invariant out == EmitAll(Answers(before + toolUseBlocks[..j]))
      {
        out := out + [Emit(User([toolUseBlocks[j]]))];
        assert before + toolUseBlocks[..j + 1] == (before + toolUseBlocks[..j]) + [toolUseBlocks[j]];
      }
      assert toolUseBlocks[..|toolUseBlocks|] == toolUseBlocks;
      assert assistantMessages[..i + 1][..i] == assistantMessages[..i];
    }
    assert assistantMessages[..|assistantMessages|] == assistantMessages;
  }

  /** Results that are ready and have not been yielded, in the order in which the tools were added. */
  method GetCompletedResults(executor: Executor, ready: set<nat>) returns (ids: seq<Id>, after: Executor)
    ensures ids == NewResults(executor, ready) && after == MarkYielded(executor, ready)
  {
    ids := [];
    var yielded := executor.yielded;
    for i := 0 to |executor.added|
      invariant ids == NewResultsUpTo(executor, ready, i)
      invariant yielded == executor.yielded + set p | p in ready && p < i
    {
      if i in ready && i !in executor.yielded {
        ids := ids + [executor.added[i]];
        yielded := yielded + {i};
      }
    }
    after := executor.(yielded := yielded);
  }

  /** All results that are still owed: batches as they complete, then the rest. */
  method GetRemainingResults(executor: Executor, batches: seq<set<nat>>) returns (ids: seq<Id>)
    ensures ids == Drain(executor, batches)
  {
    ids := [];
    var current := executor;
    for i := 0 to |batches|
      invariant ids + Drain(current, batches[i..]) == Drain(executor, batches)
    {
      var more, after := GetCompletedResults(current, batches[i]);
      DrainNext(current, batches[i..]);
      assert batches[i..][1..] == batches[i + 1..];
      assert ids + (more + Drain(after, batches[i + 1..])) == ids + more + Drain(after, batches[i + 1..]);
      ids := ids + more;
      current := after;
    }
    var more, _ := GetCompletedResults(current, Positions(current));
    ids := ids + more;
  }

  lemma DrainNext(executor: Executor, batches: seq<set<nat>>)
    requires batches != []
    ensures Drain(executor, batches)
            == NewResults(executor, batches[0]) + Drain(MarkYielded(executor, batches[0]), batches[1..])
  {
  }

  // ---------------------------------------------------------------- one request

  /** The local variables of a request, with its history. */
  class Request {
    const cfg: Config
    const mediaRecovery: bool
    var assistantMessages: seq<Message>
    var toolResults: seq<Message>
    var toolUseBlocks: seq<Id>
    var needsFollowUp: bool
    var executor: Option<Executor>
    var aborted: bool
    var fallbackOccurred: bool
    var out: seq<Yield>
    ghost var received: seq<Message>
    ghost var discarded: seq<Discarded>

    ghost function State(): Stream
      reads this
    {
      Stream(assistantMessages, toolResults, toolUseBlocks, needsFollowUp, executor, aborted, fallbackOccurred, out,
             received, discarded)
    }

    constructor (cfg: Config, mediaRecovery: bool, aborted: bool)
      ensures this.cfg == cfg && this.mediaRecovery == mediaRecovery
      ensures State() == Start(cfg, aborted)
    {
      this.cfg, this.mediaRecovery, this.aborted := cfg, mediaRecovery, aborted;
      assistantMessages, toolResults, toolUseBlocks, needsFollowUp := [], [], [], false;
      executor, fallbackOccurred, out := NewExecutor(cfg), false, [];
      received, discarded := [], [];
    }

    /** Forgets the replies so far and everything derived from them. */
    method Clear(ghost fate: Fate)
      modifies this
      ensures State() == GiveUp(cfg, old(State()), fate)
    {
      discarded := discarded + Fated(assistantMessages, fate);
      assistantMessages, toolResults, toolUseBlocks, needsFollowUp := [], [], [], false;
      executor := NewExecutor(cfg);
    }

    /** A fallback was signalled during this attempt: withdraw what the caller has seen. */
    method WithdrawOrphans()
      modifies this
      ensures State() == Withdraw(cfg, old(State()))
    {
      if fallbackOccurred {
        for i := 0 to |assistantMessages|
          invariant assistantMessages == old(assistantMessages)
          invariant State() == old(State()).(out := old(out) + TombstoneAll(assistantMessages[..i]))
        {
          EmitNext(assistantMessages, i);
          out := out + [Tombstone(assistantMessages[i])];
        }
        assert assistantMessages[..|assistantMessages|] == assistantMessages;
        Clear(Withdrawn);
      }
    }

    method Receive(message: Message)
      requires message.Assistant?
      modifies this
      ensures State() == Accept(cfg, mediaRecovery, old(State()), message)
    {
      if !Withheld(cfg, mediaRecovery, message) {
        out := out + [Emit(message)];
      }
      assistantMessages := assistantMessages + [message];
      received := received + [message];
      if |message.uses| > 0 {
        toolUseBlocks := toolUseBlocks + message.uses;
        needsFollowUp := true;
      }
      if executor.Some? && !aborted {
        executor := Some(executor.value.(added := executor.value.added + message.uses));
      }
    }

    method CollectResults(ready: set<nat>)
      modifies this
      ensures State() == Collect(old(State()), ready)
    {
      if executor.Some? && !aborted {
        var ids, after := GetCompletedResults(executor.value, ready);
        executor := Some(after);
        for i := 0 to |ids|
          invariant State() == old(State()).(
                      out := old(out) + EmitAll(Answers(ids[..i])), results := old(toolResults) + Answers(ids[..i]),
                      executor := Some(after))
        {
          assert Answers(ids)[..i + 1] == Answers(ids[..i + 1]) && Answers(ids)[..i] == Answers(ids[..i]);
          EmitNext(Answers(ids), i);
          out := out + [Emit(User([ids[i]]))];
          toolResults := toolResults + [User([ids[i]])];
        }
        assert ids[..|ids|] == ids;
      }
    }

    method OnItem(item: Item)
      requires ItemOk(item)
      modifies this
      ensures State() == StepItem(cfg, mediaRecovery, old(State()), item)
    {
      match item
      case AbortSignal =>
        aborted := true;
      case FallbackSignal =>
        fallbackOccurred := true;
      case Reply(message, ready) =>
        WithdrawOrphans();
        Receive(message);
        CollectResults(ready);
      case Other(ready) =>
        WithdrawOrphans();
        out := out + [Signal];
        CollectResults(ready);
    }

    /** One attempt: the stream, message by message. */
    method Attempt(items: seq<Item>)
      requires ItemsOk(items)
      modifies this
      ensures State() == RunItems(cfg, mediaRecovery, old(State()).(fallback := false), items)
    {
      fallbackOccurred := false;
      for i := 0 to |items|
        invariant State() == RunItems(cfg, mediaRecovery, old(State()).(fallback := false), items[..i])
      {
        OnItem(items[i]);
        assert items[..i + 1][..i] == items[..i];
      }
      assert items[..|items|] == items;
    }

    /** Switches to the fallback model: the calls made so far are answered and the request starts over. */
    method SwitchToFallback()
      modifies this
      ensures State() == SwitchModel(cfg, old(State()))
    {
      var missing := YieldMissingToolResultBlocks(assistantMessages);
      out := out + missing;
      out := out + [Signal];
      Clear(ClearedByFallback);
    }

    /** The request: attempts until one of them is not retried with the fallback model. */
    method Run(attempts: seq<QueryStream.Attempt>) returns (end: End)
      requires AttemptsOk(cfg, attempts)
      modifies this
      ensures State() == RunAttempts(cfg, mediaRecovery, old(State()), attempts)
      ensures end == EndOf(attempts)
    {
      hide RunItems, SwitchModel, State;
      var attemptWithFallback, n := true, 0;
      end := Finished;
      while attemptWithFallback
        invariant n <= |attempts| && (attemptWithFallback ==> n < |attempts|)
        invariant attemptWithFallback ==> State() == RunRetried(cfg, mediaRecovery, old(State()), attempts, n)
        invariant !attemptWithFallback ==>
                    State() == RunAttempts(cfg, mediaRecovery, old(State()), attempts) && end == EndOf(attempts)
        decreases |attempts| - n
      {
        attemptWithFallback := false;
        Attempt(attempts[n].items);
        end := attempts[n].end;
        if end == ModelFallback && cfg.hasFallbackModel {
          attemptWithFallback := true;
          SwitchToFallback();
        }
        n := n + 1;
      }
    }
  }

  // ---------------------------------------------------------------- the loop

  /** Yields messages one by one. */
  method YieldAll(messages: seq<Message>) returns (out: seq<Yield>)
    ensures out == EmitAll(messages)
  {
    out := [];
    for i := 0 to |messages|
      invariant out == EmitAll(messages[..i])
    {
      EmitNext(messages, i);
      out := out + [Emit(messages[i])];
    }
    assert messages[..|messages|] == messages;
  }

  /** Stop hooks and the token budget at the end of a turn. */
  method FinishTurn(cfg: Config, state: Loop, env: Iteration, assistantMessages: seq<Message>,
        ghost s: Stream) returns (step: Step)
    requires s.assistants == assistantMessages
    ensures step == Finish(cfg, state, env, s)
  {
    hide Sent, EmitAll, Notes;
    if |assistantMessages| > 0 {
      var lastMessage := assistantMessages[|assistantMessages| - 1];
      if lastMessage.Assistant? && lastMessage.isApiError {
        return End(Completed, state);
      }
    }
    var notes := YieldAll(Notes(env.hookNotes));
    var yielded := Yielding(state, notes);
    if env.hookPrevents {
      return End(StopHookPrevented, yielded);
    }
    if env.hookBlocks > 0 {
      var next := Continue(yielded, Sent(env) + assistantMessages + Notes(env.hookBlocks), StopHookBlocking);
      return Next(next.(recoveryCount := 0, stopHookActive := true));
    }
    if cfg.tokenBudget && env.budgetContinues {
      var next := Continue(yielded, Sent(env) + assistantMessages + [Note], BudgetContinuation);
      return Next(next.(recoveryCount := 0, attempted := false));
    }
    return End(Completed, yielded);
  }

  lemma ShownOrRetried(cfg: Config, state: Loop, env: Iteration, s: Stream)
    ensures forall m | Last(s) == Some(m) && Withheld(cfg, env.mediaRecovery, m) && QueryErrors.IsNew(env, m) ::
              QueryErrors.Shows(Recover(cfg, state, env, s).loop.out, m)
              == QueryErrors.Shows(state.out, m) + if QueryErrors.Recoverable(cfg, state, env, m) then 0 else 1
  {
    hide Recover, QueryErrors.Shows, QueryErrors.Recoverable, Last, Withheld;
    forall m | Last(s) == Some(m) && Withheld(cfg, env.mediaRecovery, m) && QueryErrors.IsNew(env, m)
      ensures QueryErrors.Shows(Recover(cfg, state, env, s).loop.out, m)
              == QueryErrors.Shows(state.out, m) + if QueryErrors.Recoverable(cfg, state, env, m) then 0 else 1
    {
      QueryErrors.RecoverShows(cfg, state, env, s, m);
      QueryErrors.RetryIff(cfg, state, env, s, m);
    }
  }

  /** The recovery ladder for a reply without tool calls: each rung either continues or falls through. */
  method EndReply(cfg: Config, state: Loop, env: Iteration, assistantMessages: seq<Message>,
        ghost s: Stream) returns (step: Step)
    requires s.assistants == assistantMessages
    ensures step == Recover(cfg, state, env, s)
    ensures forall m | Last(s) == Some(m) && Withheld(cfg, env.mediaRecovery, m) && QueryErrors.IsNew(env, m) ::
              QueryErrors.Shows(step.loop.out, m)
              == QueryErrors.Shows(state.out, m) + if QueryErrors.Recoverable(cfg, state, env, m) then 0 else 1
  {
    ShownOrRetried(cfg, state, env, s);
    hide Sent, EmitAll, Finish, Charge, QueryErrors.Shows, QueryErrors.Recoverable, QueryErrors.IsNew, Withheld;
    if |assistantMessages| > 0 {
      var lastMessage := assistantMessages[|assistantMessages| - 1];
      var isWithheld413 := IsTooLong(lastMessage);
      var isWithheldMedia := MediaError(cfg, env.mediaRecovery, lastMessage);
      if isWithheld413 {
        if cfg.collapse && state.transition != Some(CollapseDrain) && env.drained.Some? {
          return Next(Continue(state, env.drained.value, CollapseDrain));
        }
      }
      if (isWithheld413 || isWithheldMedia) && cfg.reactive {
        if env.compacted.Some? {
          var c := env.compacted.value;
          var summary := YieldAll(c.messages);
          var next := Continue(Yielding(state, summary), c.messages, ReactiveCompact);
          return Next(next.(attempted := true, budget := Charge(cfg, state.budget, c.context),
                            contexts := state.contexts + [c.context]));
        }
        return End(if isWithheldMedia then ImageError else PromptTooLongReason, Yielding(state, [Emit(lastMessage)]));
      } else if cfg.collapse && isWithheld413 {
        return End(PromptTooLongReason, Yielding(state, [Emit(lastMessage)]));
      }
      if lastMessage.Assistant? && lastMessage.problem == MaxOutputTokens {
        if env.capEnabled && state.override.None? {
          return Next(Continue(state, Sent(env), Escalate).(override := Some(ESCALATED_MAX_TOKENS)));
        }
        if state.recoveryCount < MAX_OUTPUT_TOKENS_RECOVERY_LIMIT {
          var next := Continue(state, Sent(env) + assistantMessages + [Note], Recovery(state.recoveryCount + 1));
          return Next(next.(recoveryCount := state.recoveryCount + 1));
        }
        step := FinishTurn(cfg, Yielding(state, [Emit(lastMessage)]), env, assistantMessages, s);
        return;
      }
    }
    step := FinishTurn(cfg, state, env, assistantMessages, s);
  }

  /** If what was sent is well paired and the request was not aborted, so is the history of the next turn. */
  ghost predicate NextIsPaired(cfg: Config, env: Iteration, s: Stream, step: Step) {
    WellPaired(Sent(env)) && QueryStreamProofs.Good(cfg, s) && !s.aborted && step.Next? ==>
      WellPaired(step.loop.messages)
  }

  lemma ToolsArePaired(cfg: Config, state: Loop, env: Iteration, s: Stream)
    ensures NextIsPaired(cfg, env, s, RunTools(cfg, state, env, s))
  {
    hide WellPaired, QueryStreamProofs.Classified, QueryStreamProofs.Served, QueryStreamProofs.Conserved, Settled,
         RestOfTools, Answers, EmitAll, Notes, Sent;
    if WellPaired(Sent(env)) && QueryStreamProofs.Good(cfg, s) && !s.aborted {
      QueryPairing.PairedNextTurn(cfg, Sent(env), s, env);
    }
  }

  /** The tool phase and the start of the next turn. */
  method RunToolPhase(cfg: Config, state: Loop, env: Iteration, request: Request) returns (step: Step)
    requires request.cfg == cfg
    ensures step == RunTools(cfg, state, env, request.State())
    ensures NextIsPaired(cfg, env, request.State(), step)
  {
    ToolsArePaired(cfg, state, env, request.State());
    hide NextIsPaired, Sent, EmitAll, Answers, Notes, Drain;
    var ids := GetRemainingResults(
      if request.executor.Some? then request.executor.value else Executor(request.toolUseBlocks, {}), env.batches);
    assert ids == RestOfTools(request.State(), env);
    hide RestOfTools;
    var results := YieldAll(Answers(ids));
    var toolResults := request.toolResults + Answers(ids);
    var yielded := Yielding(state, results);
    var limited := cfg.maxTurns > 0 && state.turnCount + 1 > cfg.maxTurns;
    if env.abortInTools {
      var stopped := Yielding(yielded, Interruption(env) + if limited then [Emit(Note)] else []);
      return End(AbortedTools, stopped.(aborted := true));
    }
    if env.hookStopped {
      return End(HookStopped, yielded);
    }
    var notes := YieldAll(Notes(env.attachments));
    toolResults := toolResults + Notes(env.attachments);
    yielded := Yielding(yielded, notes);
    if limited {
      return End(MaxTurns, Yielding(yielded, [Emit(Note)]));
    }
    var next := Continue(yielded, Sent(env) + request.assistantMessages + toolResults, NextTurn);
    step := Next(next.(turnCount := state.turnCount + 1, recoveryCount := 0, attempted := false,
                       stopHookActive := state.stopHookActive));
  }

  /** The start of an iteration, with automatic compaction. */
  method BeginTurn(cfg: Config, state: Loop, env: Iteration) returns (yielded: Loop)
    ensures yielded == Prepare(cfg, state, env)
  {
    hide EmitAll, Charge;
    yielded := Yielding(state, [Signal]);
    if env.compaction.Some? {
      var c := env.compaction.value;
      var summary := YieldAll(c.messages);
      yielded := Yielding(yielded, summary)
        .(budget := Charge(cfg, state.budget, c.context), contexts := state.contexts + [c.context]);
    }
  }

  /** The stream threw. */
  method ReportFailure(state: Loop, end: End, request: Request) returns (step: Step)
    ensures step == Fail(state, end, request.State())
    ensures QueryStreamProofs.Good(request.cfg, request.State()) && end != ImageFailure && Complete(state.out) ==>
              Complete(step.loop.out)
  {
    if QueryStreamProofs.Good(request.cfg, request.State()) && end != ImageFailure {
      QueryTranscript.FailKeeps(state, end, request.State(), request.cfg);
    }
    hide QueryStreamProofs.Good, Complete;
    hide EmitAll, Answers, UseIds;
    var yielded := Yielding(state, request.out).(aborted := request.aborted);
    if end == ImageFailure {
      return End(ImageError, Yielding(yielded, [Emit(Note)]));
    }
    var missing := YieldMissingToolResultBlocks(request.assistantMessages);
    step := End(ModelError, Yielding(yielded, missing + [Emit(Note)]));
  }

  /** The request was aborted. */
  method StopAborted(state: Loop, env: Iteration, request: Request) returns (step: Step)
    ensures step == Interrupt(state, env, request.State())
    ensures QueryStreamProofs.Good(request.cfg, request.State()) && !QueryTranscript.LateCalls(request.State()) ==>
              Complete(state.out) ==> Complete(step.loop.out)
  {
    if QueryStreamProofs.Good(request.cfg, request.State()) && !QueryTranscript.LateCalls(request.State()) {
      QueryTranscript.InterruptKeeps(state, env, request.State(), request.cfg);
    }
    hide QueryStreamProofs.Good, Complete, QueryTranscript.LateCalls;
    hide EmitAll, Answers, UseIds, Drain, Interruption;
    var answers: seq<Yield>;
    if request.executor.Some? {
      var ids := GetRemainingResults(request.executor.value, env.batches);
      answers := YieldAll(Answers(ids));
    } else {
      answers := YieldMissingToolResultBlocks(request.assistantMessages);
    }
    step := End(AbortedStreaming, Yielding(state, request.out + (answers + Interruption(env))).(aborted := true));
  }

  /** One iteration of the loop. */
  method RunIteration(cfg: Config, state: Loop, env: Iteration) returns (step: Step)
    requires AttemptsOk(cfg, env.attempts)
    ensures step == Iterate(cfg, state, env)
  {
    var yielded := BeginTurn(cfg, state, env);
    if Preempted(cfg, env) {
      return End(BlockingLimit, Yielding(yielded, [Emit(Note)]));
    }
    hide RunAttempts, Recover, RunTools, Fail, Interrupt, Prepare;
    var request := new Request(cfg, env.mediaRecovery, state.aborted);
    var end := request.Run(env.attempts);
    ghost var s := request.State();
    assert s == QueryLoop.Request(cfg, state, env);
    if end != Finished {
      step := ReportFailure(yielded, end, request);
      return;
    }
    if request.aborted || env.abortAfterStream {
      step := StopAborted(yielded, env, request);
      return;
    }
    var summary := if env.summary then [Signal] else [];
    yielded := Yielding(yielded, request.out + summary);
    if request.needsFollowUp {
      step := RunToolPhase(cfg, yielded, env, request);
    } else {
      step := EndReply(cfg, yielded, env, request.assistantMessages, s);
    }
  }

  /** The loop itself: the state is replaced until an iteration returns. */
  method Query(cfg: Config, messages: seq<Message>, override: Option<nat>, envs: seq<Iteration>)
      returns (state: Loop, terminal: Option<Reason>)
    requires forall k | 0 <= k < |envs| :: AttemptsOk(cfg, envs[k].attempts)
    ensures (state, terminal) == Play(cfg, Initial(messages, override), envs)
    ensures WellPaired(messages) && AllOk(cfg, Initial(messages, override), envs) ==> Sound(cfg, state, terminal)
  {
    hide Iterate, WellPaired, AllOk, Sound;
    if WellPaired(messages) && AllOk(cfg, Initial(messages, override), envs) {
      PlayIsSound(cfg, messages, override, envs);
    }
    state, terminal := Initial(messages, override), None;
    var i := 0;
    while i < |envs|
      invariant i <= |envs| && terminal.None?
      invariant Play(cfg, state, envs[i..]) == Play(cfg, Initial(messages, override), envs)
      decreases |envs| - i
    {
      var step := RunIteration(cfg, state, envs[i]);
      assert envs[i..][0] == envs[i] && envs[i..][1..] == envs[i + 1..];
      if step.End? {
        return step.loop, Some(step.reason);
      }
      state := step.loop;
      i := i + 1;
    }
  }
}
