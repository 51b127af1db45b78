/** Errors the stream keeps back: which of them the caller sees, and what a mid-stream fallback leaves. */
module QueryErrors {
  import opened Options
  import opened QueryMessages
  import opened QueryStream
  import opened QueryLoop
  import QueryTranscript

  // ---------------------------------------------------------------- the stream

  /** How often a message has been yielded. */
  function Shows(out: seq<Yield>, m: Message): nat { multiset(out)[Emit(m)] }

  lemma ShowsConcat(a: seq<Yield>, b: seq<Yield>, m: Message)
    ensures Shows(a + b, m) == Shows(a, m) + Shows(b, m)
  {
    assert multiset(a + b) == multiset(a) + multiset(b);
  }

  lemma ShowsNot(out: seq<Yield>, m: Message)
    requires Emit(m) !in out
    ensures Shows(out, m) == 0
  {
  }

  lemma NotEmitted(ms: seq<Message>, m: Message)
    requires m !in ms
    ensures Emit(m) !in EmitAll(ms) && Emit(m) !in TombstoneAll(ms)
  {
  }

  lemma NotAnAnswer(ids: seq<Id>, m: Message)
    requires m.Assistant?
    ensures m !in Answers(ids) && Emit(m) !in EmitAll(Answers(ids))
  {
  }

  lemma TombstonesShowNothing(ms: seq<Message>, m: Message)
    ensures Emit(m) !in TombstoneAll(ms)
  {
  }

  lemma OtherShown(out: seq<Yield>, other: Message, m: Message)
    requires other != m
    ensures Shows(out + [Emit(other)], m) == Shows(out, m)
  {
  }

  lemma AppendedShows(out: seq<Yield>, more: seq<Yield>, m: Message)
    requires Emit(m) !in more
    ensures Shows(out + more, m) == Shows(out, m)
  {
    ShowsConcat(out, more, m);
  }

  /** How often a message was received, if the stream shows it at all. */
  function Due(cfg: Config, media: bool, s: Stream, m: Message): nat {
    if Withheld(cfg, media, m) then 0 else multiset(s.received)[m]
  }

  lemma AcceptShows(cfg: Config, media: bool, s: Stream, r: Message, m: Message)
    requires r.Assistant? && Shows(s.out, m) == Due(cfg, media, s, m)
    ensures Shows(Accept(cfg, media, s, r).out, m) == Due(cfg, media, Accept(cfg, media, s, r), m)
  {
    hide Withheld;
    assert multiset(s.received + [r]) == multiset(s.received) + multiset{r};
    ShowsConcat(s.out, [Emit(r)], m);
    if r != m {
      OtherShown(s.out, r, m);
    }
  }

  lemma WithdrawShows(cfg: Config, s: Stream, m: Message)
    ensures Shows(Withdraw(cfg, s).out, m) == Shows(s.out, m) && Withdraw(cfg, s).received == s.received
  {
    TombstonesShowNothing(s.assistants, m);
    hide Shows, TombstoneAll;
    AppendedShows(s.out, TombstoneAll(s.assistants), m);
  }

  lemma CollectShows(s: Stream, ready: set<nat>, m: Message)
    requires m.Assistant?
    ensures Shows(Collect(s, ready).out, m) == Shows(s.out, m) && Collect(s, ready).received == s.received
  {
    hide Shows, EmitAll, Answers, NewResults;
    if s.executor.Some? {
      NotAnAnswer(NewResults(s.executor.value, ready), m);
      AppendedShows(s.out, EmitAll(Answers(NewResults(s.executor.value, ready))), m);
    }
  }

  lemma StepShowsDue(cfg: Config, media: bool, s: Stream, item: Item, m: Message)
    requires m.Assistant? && ItemOk(item) && Shows(s.out, m) == Due(cfg, media, s, m)
    ensures Shows(StepItem(cfg, media, s, item).out, m) == Due(cfg, media, StepItem(cfg, media, s, item), m)
  {
    hide Shows, Withheld, Withdraw, Accept, Collect;
    match item
    case AbortSignal =>
    case FallbackSignal =>
    case Reply(r, ready) =>
      WithdrawShows(cfg, s, m);
      AcceptShows(cfg, media, Withdraw(cfg, s), r, m);
      CollectShows(Accept(cfg, media, Withdraw(cfg, s), r), ready, m);
    case Other(ready) =>
      WithdrawShows(cfg, s, m);
      var w := Withdraw(cfg, s);
      AppendedShows(w.out, [Signal], m);
      CollectShows(w.(out := w.out + [Signal]), ready, m);
  }

  lemma {:induction false} ItemsShowDue(cfg: Config, media: bool, s: Stream, items: seq<Item>, m: Message)
    requires m.Assistant? && ItemsOk(items) && Shows(s.out, m) == Due(cfg, media, s, m)
    ensures Shows(RunItems(cfg, media, s, items).out, m) == Due(cfg, media, RunItems(cfg, media, s, items), m)
  {
    hide Shows, Due, StepItem;
    if items != [] {
      ItemsShowDue(cfg, media, s, items[..|items| - 1], m);
      StepShowsDue(cfg, media, RunItems(cfg, media, s, items[..|items| - 1]), items[|items| - 1], m);
    }
  }

  lemma SwitchShows(cfg: Config, s: Stream, m: Message)
    requires m.Assistant?
    ensures Shows(SwitchModel(cfg, s).out, m) == Shows(s.out, m) && SwitchModel(cfg, s).received == s.received
  {
    NotAnAnswer(UseIds(s.assistants), m);
    hide Shows, EmitAll, Answers, UseIds;
    AppendedShows(s.out, MissingResults(UseIds(s.assistants)), m);
    AppendedShows(s.out + MissingResults(UseIds(s.assistants)), [Signal], m);
  }

  lemma {:induction false} RetriedShowDue(cfg: Config, media: bool, s: Stream, attempts: seq<Attempt>, n: nat,
        m: Message)
    requires m.Assistant? && Shows(s.out, m) == Due(cfg, media, s, m)
    requires n <= |attempts| && forall k | 0 <= k < n :: ItemsOk(attempts[k].items)
    ensures Shows(RunRetried(cfg, media, s, attempts, n).out, m)
            == Due(cfg, media, RunRetried(cfg, media, s, attempts, n), m)
  {
    hide Shows, Withheld, RunItems, SwitchModel;
    if n > 0 {
      RetriedShowDue(cfg, media, s, attempts, n - 1, m);
      var before := RunRetried(cfg, media, s, attempts, n - 1);
      ItemsShowDue(cfg, media, before.(fallback := false), attempts[n - 1].items, m);
      SwitchShows(cfg, RunItems(cfg, media, before.(fallback := false), attempts[n - 1].items), m);
    }
  }

  /** The stream shows a reply as often as it receives it, and an error that it keeps back never. */
  lemma AttemptsShowDue(cfg: Config, media: bool, aborted: bool, attempts: seq<Attempt>, m: Message)
    requires AttemptsOk(cfg, attempts) && m.Assistant?
    ensures var s := RunAttempts(cfg, media, Start(cfg, aborted), attempts); Shows(s.out, m) == Due(cfg, media, s, m)
  {
    var n, s0 := |attempts| - 1, Start(cfg, aborted);
    assert Shows(s0.out, m) == Due(cfg, media, s0, m);
    hide Shows, Withheld, RunItems, RunRetried, Start;
    RetriedShowDue(cfg, media, s0, attempts, n, m);
    ItemsShowDue(cfg, media, RunRetried(cfg, media, s0, attempts, n).(fallback := false), attempts[n].items, m);
  }

  // ---------------------------------------------------------------- mid-stream fallback

  /** The last message among the items; signals are not messages. */
  function LastMessage(items: seq<Item>): Option<Item> {
    if items == [] then None
    else if items[|items| - 1].Reply? || items[|items| - 1].Other? then Some(items[|items| - 1])
    else LastMessage(items[..|items| - 1])
  }

  lemma StepAfterFallback(cfg: Config, media: bool, s: Stream, item: Item)
    requires s.fallback && ItemOk(item)
    ensures var w := StepItem(cfg, media, s, item);
      && w.fallback
      && (item.Reply? ==> w.assistants == [item.message] && w.blocks == UsesOf(item.message))
      && (item.Other? ==> w.assistants == [] && w.blocks == [])
      && (!item.Reply? && !item.Other? ==> w.assistants == s.assistants && w.blocks == s.blocks)
  {
    hide Withheld, NewResults, EmitAll, TombstoneAll;
  }

  /** The fallback flag is not cleared within an attempt. Once it is set, every further message withdraws
      all replies before it, so of any number of replies only one that came last is kept. */
  lemma {:induction false} FallbackKeepsLast(cfg: Config, media: bool, s: Stream, items: seq<Item>)
    requires ItemsOk(items) && s.fallback
    ensures var w := RunItems(cfg, media, s, items);
      && w.fallback
      && match LastMessage(items)
         case None => w.assistants == s.assistants && w.blocks == s.blocks
         case Some(item) =>
           if item.Reply? then w.assistants == [item.message] && w.blocks == UsesOf(item.message)
           else w.assistants == [] && w.blocks == []
  {
    hide StepItem;
    if items != [] {
      FallbackKeepsLast(cfg, media, s, items[..|items| - 1]);
      StepAfterFallback(cfg, media, RunItems(cfg, media, s, items[..|items| - 1]), items[|items| - 1]);
    }
  }

  // ---------------------------------------------------------------- the iteration

  /** The four retries that hide an error from the caller. */
  predicate IsRetry(step: Step) {
    && step.Next?
    && step.loop.transition.Some?
    && (step.loop.transition.value in {CollapseDrain, ReactiveCompact, Escalate}
        || step.loop.transition.value.Recovery?)
  }

  lemma FinishShows(cfg: Config, st: Loop, env: Iteration, s: Stream, m: Message)
    requires m.Assistant?
    ensures Shows(Finish(cfg, st, env, s).loop.out, m) == Shows(st.out, m)
    ensures !IsRetry(Finish(cfg, st, env, s))
  {
    hide Sent, EmitAll, Last;
    NotEmitted(Notes(env.hookNotes), m);
    ShowsNot(EmitAll(Notes(env.hookNotes)), m);
    ShowsConcat(st.out, EmitAll(Notes(env.hookNotes)), m);
    hide Shows;
  }

  lemma ShowsOne(out: seq<Yield>, m: Message)
    ensures Shows(out + [Emit(m)], m) == Shows(out, m) + 1
  {
  }

  lemma OutputShows(cfg: Config, st: Loop, env: Iteration, s: Stream, m: Message)
    requires m.Assistant?
    ensures var step := RecoverOutput(cfg, st, env, s, m);
      Shows(step.loop.out, m) == Shows(st.out, m) + if IsRetry(step) then 0 else 1
  {
    FinishShows(cfg, Yielding(st, [Emit(m)]), env, s, m);
    ShowsOne(st.out, m);
    hide Shows, Sent, Finish;
  }

  lemma CompactShows(cfg: Config, st: Loop, c: Compaction, m: Message)
    requires m !in c.messages
    ensures Shows(CompactRetry(cfg, st, c).loop.out, m) == Shows(st.out, m) && IsRetry(CompactRetry(cfg, st, c))
  {
    NotEmitted(c.messages, m);
    ShowsNot(EmitAll(c.messages), m);
    ShowsConcat(st.out, EmitAll(c.messages), m);
    hide Shows, EmitAll, Charge;
  }

  /** An error that ends a reply without tool calls is recovered from or shown, never both, never neither. */
  lemma RecoverShows(cfg: Config, st: Loop, env: Iteration, s: Stream, m: Message)
    requires Last(s) == Some(m) && Withheld(cfg, env.mediaRecovery, m)
    requires env.compacted.Some? ==> m !in env.compacted.value.messages
    ensures var step := Recover(cfg, st, env, s);
      Shows(step.loop.out, m) == Shows(st.out, m) + if IsRetry(step) then 0 else 1
  {
    ShowsOne(st.out, m);
    OutputShows(cfg, st, env, s, m);
    hide Shows, Finish, RecoverOutput, CompactRetry, EmitAll, Sent, Last;
    if env.compacted.Some? {
      CompactShows(cfg, st, env.compacted.value, m);
    }
  }

  lemma OtherOutputShows(cfg: Config, st: Loop, env: Iteration, s: Stream, error: Message, m: Message)
    requires m.Assistant? && error != m
    ensures Shows(RecoverOutput(cfg, st, env, s, error).loop.out, m) == Shows(st.out, m)
  {
    FinishShows(cfg, Yielding(st, [Emit(error)]), env, s, m);
    OtherShown(st.out, error, m);
    hide Shows, Sent, Finish;
  }

  /** An error kept back that does not end the reply is not shown by the recovery. */
  lemma OtherRecoverShows(cfg: Config, st: Loop, env: Iteration, s: Stream, m: Message)
    requires m.Assistant? && Last(s) != Some(m)
    requires env.compacted.Some? ==> m !in env.compacted.value.messages
    ensures Shows(Recover(cfg, st, env, s).loop.out, m) == Shows(st.out, m)
  {
    hide Shows, Finish, RecoverOutput, CompactRetry, EmitAll, Sent, Last, IsTooLong, MediaError;
    FinishShows(cfg, st, env, s, m);
    if env.compacted.Some? {
      CompactShows(cfg, st, env.compacted.value, m);
    }
    var last := Last(s);
    if last.Some? {
      OtherShown(st.out, last.value, m);
      OtherOutputShows(cfg, st, env, s, last.value, m);
    }
  }

  lemma ToolsShow(cfg: Config, st: Loop, env: Iteration, s: Stream, m: Message)
    requires m.Assistant?
    ensures Shows(RunTools(cfg, st, env, s).loop.out, m) == Shows(st.out, m)
    ensures !IsRetry(RunTools(cfg, st, env, s))
  {
    ToolsAreNoRetry(cfg, st, env, s);
    var tail := QueryTranscript.ToolYields(cfg, st, env, s);
    var done := EmitAll(Answers(RestOfTools(s, env)));
    NotAnAnswer(RestOfTools(s, env), m);
    hide RestOfTools, RunTools, EmitAll, Answers, IsRetry;
    ShowsNot(done, m);
    ShowsNot(tail, m);
    ShowsConcat(st.out, done, m);
    ShowsConcat(st.out + done, tail, m);
    hide Shows;
  }

  lemma ToolsAreNoRetry(cfg: Config, st: Loop, env: Iteration, s: Stream)
    ensures !IsRetry(RunTools(cfg, st, env, s))
  {
    hide RestOfTools, Answers, EmitAll, Notes, Sent;
  }

  lemma StreamShows(out: seq<Yield>, s: Stream, more: seq<Yield>, m: Message)
    requires Emit(m) !in more
    ensures Shows(out + s.out + more, m) == Shows(out, m) + Shows(s.out, m)
    ensures Shows(out + (s.out + more), m) == Shows(out, m) + Shows(s.out, m)
  {
    ShowsConcat(out, s.out, m);
    AppendedShows(out + s.out, more, m);
    AppendedShows(s.out, more, m);
    ShowsConcat(out, s.out + more, m);
    hide Shows;
  }

  lemma FailShows(st: Loop, end: End, s: Stream, m: Message)
    requires m.Assistant?
    ensures Shows(Fail(st, end, s).loop.out, m) == Shows(st.out, m) + Shows(s.out, m)
  {
    NotAnAnswer(UseIds(s.assistants), m);
    hide EmitAll, Answers, UseIds, Shows;
    StreamShows(st.out, s, [Emit(Note)], m);
    StreamShows(st.out, s, MissingResults(UseIds(s.assistants)) + [Emit(Note)], m);
  }

  lemma InterruptShows(st: Loop, env: Iteration, s: Stream, m: Message)
    requires m.Assistant?
    ensures Shows(Interrupt(st, env, s).loop.out, m) == Shows(st.out, m) + Shows(s.out, m)
  {
    NotAnAnswer(AbortAnswers(s, env), m);
    hide EmitAll, Answers, AbortAnswers, Shows;
    StreamShows(st.out, s, EmitAll(Answers(AbortAnswers(s, env))) + Interruption(env), m);
  }

  lemma RepliedShows(st: Loop, env: Iteration, s: Stream, m: Message)
    requires m.Assistant?
    ensures Shows(Replied(st, env, s).out, m) == Shows(st.out, m) + Shows(s.out, m)
  {
    hide Shows;
    StreamShows(st.out, s, if env.summary then [Signal] else [], m);
  }

  lemma PrepareShows(cfg: Config, st: Loop, env: Iteration, m: Message)
    requires m.Assistant? && (env.compaction.Some? ==> m !in env.compaction.value.messages)
    ensures Shows(Prepare(cfg, st, env).out, m) == Shows(st.out, m)
  {
    ShowsNot([Signal], m);
    ShowsConcat(st.out, [Signal], m);
    if env.compaction.Some? {
      NotEmitted(env.compaction.value.messages, m);
      ShowsNot(EmitAll(env.compaction.value.messages), m);
      ShowsConcat(st.out + [Signal], EmitAll(env.compaction.value.messages), m);
    }
    hide Shows, EmitAll, Charge;
  }

  /** The guards of the four retries: staged collapses to drain, unless that was just done; a compaction that
      succeeds; an output limit that is not raised yet; and attempts to resume that are left. */
  predicate Recoverable(cfg: Config, st: Loop, env: Iteration, m: Message) {
    || (IsTooLong(m) && cfg.collapse && env.drained.Some? && st.transition != Some(CollapseDrain))
    || ((IsTooLong(m) || MediaError(cfg, env.mediaRecovery, m)) && cfg.reactive && env.compacted.Some?)
    || (m.Assistant? && m.problem == MaxOutputTokens
        && ((env.capEnabled && st.override.None?) || st.recoveryCount < MAX_OUTPUT_TOKENS_RECOVERY_LIMIT))
  }

  lemma OutputRetryIff(cfg: Config, st: Loop, env: Iteration, s: Stream, m: Message)
    requires m.Assistant?
    ensures IsRetry(RecoverOutput(cfg, st, env, s, m))
            <==> (env.capEnabled && st.override.None?) || st.recoveryCount < MAX_OUTPUT_TOKENS_RECOVERY_LIMIT
  {
    FinishShows(cfg, Yielding(st, [Emit(m)]), env, s, m);
    hide Finish, Sent, Shows;
  }

  lemma CompactRetries(cfg: Config, st: Loop, c: Compaction)
    ensures IsRetry(CompactRetry(cfg, st, c))
  {
    hide EmitAll, Charge;
  }

  lemma DrainRetries(st: Loop, messages: seq<Message>)
    ensures IsRetry(Next(Continue(st, messages, CollapseDrain)))
  {
  }

  lemma RetryIff(cfg: Config, st: Loop, env: Iteration, s: Stream, m: Message)
    requires Last(s) == Some(m) && Withheld(cfg, env.mediaRecovery, m)
    ensures IsRetry(Recover(cfg, st, env, s)) <==> Recoverable(cfg, st, env, m)
  {
    OutputRetryIff(cfg, st, env, s, m);
    if env.compacted.Some? {
      CompactRetries(cfg, st, env.compacted.value);
    }
    if env.drained.Some? {
      DrainRetries(st, env.drained.value);
    }
    EndsAreNoRetry();
    hide Finish, CompactRetry, Last, IsRetry, RecoverOutput, Continue, Yielding;
  }

  lemma EndsAreNoRetry()
    ensures forall step: Step | step.End? :: !IsRetry(step)
  {
  }

  /** Where an error kept back is finally shown: it ended a reply without tool calls, the stream was
      neither aborted nor broken off, and no recovery was left. */
  predicate Surfaces(cfg: Config, st: Loop, env: Iteration, m: Message)
    requires AttemptsOk(cfg, env.attempts)
  {
    var s := Request(cfg, st, env);
    && !Preempted(cfg, env)
    && EndOf(env.attempts) == Finished
    && !Aborted(s, env)
    && !s.followUp
    && Last(s) == Some(m)
    && !Recoverable(cfg, st, env, m)
  }

  /** The histories that compactions leave do not contain the error that is only now received. */
  predicate IsNew(env: Iteration, m: Message) {
    && (env.compaction.Some? ==> m !in env.compaction.value.messages)
    && (env.compacted.Some? ==> m !in env.compacted.value.messages)
  }

  lemma RepliedRecovers(cfg: Config, st: Loop, env: Iteration, s: Stream, m: Message)
    ensures Recoverable(cfg, Replied(st, env, s), env, m) <==> Recoverable(cfg, st, env, m)
    ensures Recoverable(cfg, Prepare(cfg, st, env), env, m) <==> Recoverable(cfg, st, env, m)
  {
    hide IsTooLong, MediaError, Charge, EmitAll;
  }

  /** The whole reply has arrived and nothing was aborted. */
  lemma RepliedOn(cfg: Config, st: Loop, env: Iteration, s: Stream, m: Message)
    requires Withheld(cfg, env.mediaRecovery, m) && IsNew(env, m) && Shows(s.out, m) == 0
    ensures var st1 := Replied(st, env, s);
      && Shows(RunTools(cfg, st1, env, s).loop.out, m) == Shows(st.out, m)
      && Shows(Recover(cfg, st1, env, s).loop.out, m)
         == Shows(st.out, m) + if Last(s) == Some(m) && !Recoverable(cfg, st, env, m) then 1 else 0
  {
    assert m.Assistant?;
    var st1 := Replied(st, env, s);
    RepliedRecovers(cfg, st, env, s, m);
    hide Recover, RunTools, Replied, Shows, IsRetry, Withheld, Last, Recoverable;
    RepliedShows(st, env, s, m);
    ToolsShow(cfg, st1, env, s, m);
    if Last(s) == Some(m) {
      RetryIff(cfg, st1, env, s, m);
      RecoverShows(cfg, st1, env, s, m);
    } else {
      OtherRecoverShows(cfg, st1, env, s, m);
    }
  }

  /** Main result: an iteration shows an error that the stream kept back once if it surfaces, and not at
      all otherwise. */
  lemma WithheldShown(cfg: Config, st: Loop, env: Iteration, m: Message)
    requires AttemptsOk(cfg, env.attempts) && Withheld(cfg, env.mediaRecovery, m) && IsNew(env, m)
    ensures Shows(Iterate(cfg, st, env).loop.out, m) == Shows(st.out, m) + if Surfaces(cfg, st, env, m) then 1 else 0
  {
    AttemptsShowDue(cfg, env.mediaRecovery, st.aborted, env.attempts, m);
    assert m.Assistant? && m != Note;
    var s, st1 := Request(cfg, st, env), Prepare(cfg, st, env);
    assert Shows(s.out, m) == 0;
    PrepareShows(cfg, st, env, m);
    RepliedRecovers(cfg, st, env, s, m);
    hide Request, Prepare, Recover, RunTools, Fail, Interrupt, Replied, Shows, Withheld, Aborted, Last, IsNew,
         Recoverable;
    if Preempted(cfg, env) {
      OtherShown(st1.out, Note, m);
    } else if EndOf(env.attempts) != Finished {
      FailShows(st1, EndOf(env.attempts), s, m);
    } else if Aborted(s, env) {
      InterruptShows(st1, env, s, m);
    } else {
      RepliedOn(cfg, st1, env, s, m);
    }
  }

  /** The recovery shows nothing that the stream did not keep back. */
  lemma RecoverSilent(cfg: Config, st: Loop, env: Iteration, s: Stream, m: Message)
    requires m.Assistant? && !Withheld(cfg, env.mediaRecovery, m)
    requires env.compacted.Some? ==> m !in env.compacted.value.messages
    ensures Shows(Recover(cfg, st, env, s).loop.out, m) == Shows(st.out, m)
  {
    if Last(s) == Some(m) {
      FinishShows(cfg, st, env, s, m);
      if env.compacted.Some? {
        CompactShows(cfg, st, env.compacted.value, m);
      }
      hide Shows, Finish, RecoverOutput, CompactRetry, EmitAll, Sent;
    } else {
      OtherRecoverShows(cfg, st, env, s, m);
    }
  }

  lemma RequestShowsDue(cfg: Config, st: Loop, env: Iteration, m: Message)
    requires AttemptsOk(cfg, env.attempts) && m.Assistant? && !Withheld(cfg, env.mediaRecovery, m)
    ensures Shows(Request(cfg, st, env).out, m) == multiset(Request(cfg, st, env).received)[m]
  {
    AttemptsShowDue(cfg, env.mediaRecovery, st.aborted, env.attempts, m);
    hide Shows, Withheld, RunAttempts;
  }

  /** Main result: every other reply is shown exactly as often as it was received, whichever way the
      iteration ends: nothing is lost, and no recovery shows it a second time. */
  lemma ReceivedShown(cfg: Config, st: Loop, env: Iteration, m: Message)
    requires AttemptsOk(cfg, env.attempts) && m.Assistant? && !Withheld(cfg, env.mediaRecovery, m) && IsNew(env, m)
    ensures Shows(Iterate(cfg, st, env).loop.out, m)
            == Shows(st.out, m) + if Preempted(cfg, env) then 0 else multiset(Request(cfg, st, env).received)[m]
  {
    RequestShowsDue(cfg, st, env, m);
    var s, st1 := Request(cfg, st, env), Prepare(cfg, st, env);
    PrepareShows(cfg, st, env, m);
    hide Request, Prepare, Recover, RunTools, Fail, Interrupt, Replied, Shows, Withheld, Aborted, Last;
    if Preempted(cfg, env) {
      OtherShown(st1.out, Note, m);
    } else if EndOf(env.attempts) != Finished {
      FailShows(st1, EndOf(env.attempts), s, m);
    } else if Aborted(s, env) {
      InterruptShows(st1, env, s, m);
    } else {
      RepliedShows(st1, env, s, m);
      ToolsShow(cfg, Replied(st1, env, s), env, s, m);
      RecoverSilent(cfg, Replied(st1, env, s), env, s, m);
    }
  }

  /** An error that ends a reply in which tools were called is retained but never shown. */
  lemma ErrorAfterCallLost(cfg: Config, st: Loop, env: Iteration, m: Message)
    requires AttemptsOk(cfg, env.attempts) && Withheld(cfg, env.mediaRecovery, m) && IsNew(env, m)
    requires Request(cfg, st, env).followUp && Last(Request(cfg, st, env)) == Some(m)
    ensures Shows(Iterate(cfg, st, env).loop.out, m) == Shows(st.out, m)
  {
    hide Iterate, Request, Last, Withheld;
    WithheldShown(cfg, st, env, m);
  }

  /** A reply that calls a tool and then runs into the output limit. */
  predicate CallThenCutOff(attempts: seq<Attempt>, call: Message, error: Message) {
    && call.Assistant? && call.uses != [] && call.problem == NoProblem && !call.isApiError
    && error.Assistant? && error.uses == [] && error.problem == MaxOutputTokens
    && attempts == [Attempt([Reply(call, {}), Reply(error, {})], Finished)]
  }

  lemma CallAccepted(cfg: Config, media: bool, s: Stream, m: Message)
    requires ItemOk(Reply(m, {})) && !s.fallback
    ensures var w := StepItem(cfg, media, s, Reply(m, {}));
      && w.assistants == s.assistants + [m] && w.received == s.received + [m]
      && w.aborted == s.aborted && !w.fallback && w.followUp == (s.followUp || m.uses != [])
  {
    hide Withheld, NewResults, MarkYielded, EmitAll, Answers;
  }

  lemma CallThenCutOffStream(cfg: Config, media: bool, aborted: bool, attempts: seq<Attempt>, call: Message,
                             error: Message)
    requires CallThenCutOff(attempts, call, error)
    ensures AttemptsOk(cfg, attempts)
    ensures var s := RunAttempts(cfg, media, Start(cfg, aborted), attempts);
      s.followUp && s.aborted == aborted && s.assistants == [call, error] && s.received == [call, error]
  {
    var items, s0 := attempts[0].items, Start(cfg, aborted);
    assert items[..1] == [Reply(call, {})] && items[..1][..0] == [];
    assert s0.(fallback := false) == s0;
    CallAccepted(cfg, media, s0, call);
    var s1 := StepItem(cfg, media, s0, items[0]);
    CallAccepted(cfg, media, s1, error);
    hide StepItem;
    assert RunItems(cfg, media, s0, []) == s0;
    assert RunItems(cfg, media, s0, items[..1]) == s1;
    assert RunItems(cfg, media, s0, items) == StepItem(cfg, media, s1, items[1]);
  }

  /** Such an error is received, nothing recovers from it, and no exit of the iteration shows it. */
  lemma CutOffAfterCallIsLost(cfg: Config, st: Loop, env: Iteration, call: Message, error: Message)
    requires CallThenCutOff(env.attempts, call, error) && IsNew(env, error)
    ensures AttemptsOk(cfg, env.attempts) && error in Request(cfg, st, env).received
    ensures Shows(Iterate(cfg, st, env).loop.out, error) == Shows(st.out, error)
    ensures !IsRetry(Iterate(cfg, st, env))
  {
    CallThenCutOffStream(cfg, env.mediaRecovery, st.aborted, env.attempts, call, error);
    var s := Request(cfg, st, env);
    assert s.received[1] == error && s.assistants[1] == error;
    hide RunAttempts, Start, IsNew;
    assert Withheld(cfg, env.mediaRecovery, error);
    ErrorAfterCallLost(cfg, st, env, error);
    CallsAreNoRetry(cfg, st, env);
  }

  lemma CallsAreNoRetry(cfg: Config, st: Loop, env: Iteration)
    requires AttemptsOk(cfg, env.attempts) && Request(cfg, st, env).followUp
    ensures !IsRetry(Iterate(cfg, st, env))
  {
    var s := Request(cfg, st, env);
    ToolsAreNoRetry(cfg, Replied(Prepare(cfg, st, env), env, s), env, s);
    hide RunTools, Replied, Prepare, Request, IsRetry;
    EndsAreNoRetry();
  }
}
