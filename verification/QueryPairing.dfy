/** Tool calls and tool results in the agentic loop: pairing of the history at every loop head, and
    completeness and conservation of the transcript that has been yielded. */
module QueryPairing {
  import opened Options
  import opened QueryMessages
  import opened QueryStream
  import opened QueryStreamProofs
  import opened QueryLoop

  // ---------------------------------------------------------------- small facts

  lemma FreshOutstanding(blocks: seq<Id>)
    ensures Outstanding(Executor(blocks, {})) == multiset(blocks)
  {
    assert [] + blocks == blocks;
    assert Outstanding(Executor([], {})) == multiset{};
    AddedIsOutstanding(Executor([], {}), blocks);
  }

  lemma {:induction false} NotesAreBare(n: nat)
    ensures Uses(Notes(n)) == multiset{} == Results(Notes(n)) && NoneAssistant(Notes(n))
  {
    if n > 0 {
      assert Notes(n)[..n - 1] == Notes(n - 1);
      NotesAreBare(n - 1);
    }
  }

  lemma GoodRequest(cfg: Config, st: Loop, env: Iteration)
    requires AttemptsOk(cfg, env.attempts)
    ensures Good(cfg, Request(cfg, st, env))
  {
    hide Good, RunAttempts, Start;
    AttemptsGood(cfg, env.mediaRecovery, st.aborted, env.attempts);
  }

  lemma NoCalls(s: Stream)
    requires Classified(s) && !s.followUp
    ensures Uses(s.assistants) == multiset{} && s.blocks == []
  {
    UseIdsAre(s.assistants);
  }

  // ---------------------------------------------------------------- the history is well paired

  /** Replies without calls, followed by messages without results. */
  lemma PairedWithoutCalls(ms: seq<Message>, s: Stream, ns: seq<Message>)
    requires WellPaired(ms) && Classified(s) && !s.followUp
    requires NoneAssistant(ns) && Results(ns) == multiset{}
    ensures WellPaired(ms + s.assistants + ns)
  {
    NoCalls(s);
    PairedAppend(ms, s.assistants, ns);
  }

  /** A request that was not aborted hands every call to its tools: results collected while streaming
      and results collected afterwards answer each call of the retained replies exactly once. */
  lemma EveryCallAnswered(cfg: Config, s: Stream, env: Iteration)
    requires Classified(s) && Served(cfg, s) && !s.aborted
    ensures Results(s.results + Answers(RestOfTools(s, env))) == Uses(s.assistants)
    ensures NoneAssistant(s.results + Answers(RestOfTools(s, env)))
  {
    var ids := RestOfTools(s, env);
    ResultsOfAnswers(ids);
    UsesConcat(s.results, Answers(ids));
    UseIdsAre(s.assistants);
    if s.executor.Some? {
      DrainYieldsRest(s.executor.value, env.batches);
    } else {
      FreshOutstanding(s.blocks);
      DrainYieldsRest(Executor(s.blocks, {}), env.batches);
    }
    hide Results, Uses, Drain, Outstanding, Answers;
  }

  lemma PairedNextTurn(cfg: Config, ms: seq<Message>, s: Stream, env: Iteration)
    requires WellPaired(ms) && Classified(s) && Served(cfg, s) && !s.aborted
    ensures WellPaired(ms + s.assistants + (s.results + Answers(RestOfTools(s, env)) + Notes(env.attachments)))
  {
    EveryCallAnswered(cfg, s, env);
    NotesAreBare(env.attachments);
    var done := s.results + Answers(RestOfTools(s, env));
    UsesConcat(done, Notes(env.attachments));
    hide Results, Uses, RestOfTools, Answers, Served;
    PairedAppend(ms, s.assistants, done + Notes(env.attachments));
  }

  /** The history with which the loop goes on after the given transition; `answers` are the tool results. */
  predicate HistoryAfter(env: Iteration, s: Stream, answers: seq<Message>, why: Transition, ms: seq<Message>) {
    match why
    case CollapseDrain => env.drained == Some(ms)
    case ReactiveCompact => env.compacted.Some? && ms == env.compacted.value.messages
    case Escalate => ms == Sent(env)
    case Recovery(_) => ms == Sent(env) + s.assistants + [Note]
    case StopHookBlocking => ms == Sent(env) + s.assistants + Notes(env.hookBlocks)
    case BudgetContinuation => ms == Sent(env) + s.assistants + [Note]
    case NextTurn => ms == Sent(env) + s.assistants + answers + Notes(env.attachments)
  }

  lemma FinishHistory(cfg: Config, st: Loop, env: Iteration, s: Stream)
    requires Finish(cfg, st, env, s).Next?
    ensures var next := Finish(cfg, st, env, s).loop;
      next.transition.Some? && HistoryAfter(env, s, [], next.transition.value, next.messages)
      && next.transition.value != NextTurn
  {
    hide Sent, Notes, EmitAll, Last;
  }

  lemma OutputHistory(cfg: Config, st: Loop, env: Iteration, s: Stream, error: Message)
    requires RecoverOutput(cfg, st, env, s, error).Next?
    ensures var next := RecoverOutput(cfg, st, env, s, error).loop;
      next.transition.Some? && HistoryAfter(env, s, [], next.transition.value, next.messages)
      && next.transition.value != NextTurn
  {
    hide Sent, Finish, Notes;
    if !(env.capEnabled && st.override.None?) && st.recoveryCount >= MAX_OUTPUT_TOKENS_RECOVERY_LIMIT {
      hide HistoryAfter;
      FinishHistory(cfg, Yielding(st, [Emit(error)]), env, s);
    }
  }

  lemma RecoverHistory(cfg: Config, st: Loop, env: Iteration, s: Stream)
    requires Recover(cfg, st, env, s).Next?
    ensures var next := Recover(cfg, st, env, s).loop;
      next.transition.Some? && HistoryAfter(env, s, [], next.transition.value, next.messages)
      && next.transition.value != NextTurn
  {
    hide Sent, Notes, EmitAll, Finish, RecoverOutput, Charge, IsTooLong, MediaError;
    if Last(s).Some? && RecoverOutput(cfg, st, env, s, Last(s).value).Next? {
      OutputHistory(cfg, st, env, s, Last(s).value);
    }
    if Finish(cfg, st, env, s).Next? {
      FinishHistory(cfg, st, env, s);
    }
  }

  lemma AfterPaired(env: Iteration, s: Stream, why: Transition, ms: seq<Message>)
    requires HistoryAfter(env, s, [], why, ms) && why != NextTurn
    requires Classified(s) && !s.followUp && WellPaired(Sent(env))
    requires env.drained.Some? ==> WellPaired(env.drained.value)
    requires env.compacted.Some? ==> WellPaired(env.compacted.value.messages)
    ensures WellPaired(ms)
  {
    var n := if why == StopHookBlocking then env.hookBlocks else 1;
    NotesAreBare(n);
    assert Notes(1) == [Note];
    PairedWithoutCalls(Sent(env), s, Notes(n));
    hide WellPaired, Classified, Sent, Notes;
  }

  lemma RecoverPaired(cfg: Config, st: Loop, env: Iteration, s: Stream)
    requires Classified(s) && !s.followUp && WellPaired(Sent(env))
    requires env.drained.Some? ==> WellPaired(env.drained.value)
    requires env.compacted.Some? ==> WellPaired(env.compacted.value.messages)
    ensures Recover(cfg, st, env, s).Next? ==> WellPaired(Recover(cfg, st, env, s).loop.messages)
  {
    hide WellPaired, Classified, Sent, Recover, HistoryAfter;
    if Recover(cfg, st, env, s).Next? {
      RecoverHistory(cfg, st, env, s);
      var next := Recover(cfg, st, env, s).loop;
      AfterPaired(env, s, next.transition.value, next.messages);
    }
  }

  /** One iteration: a well-paired history stays well paired across every way to continue. */
  lemma IteratePaired(cfg: Config, st: Loop, env: Iteration)
    requires WellPaired(st.messages) && IterationOk(cfg, st, env)
    ensures Iterate(cfg, st, env).Next? ==> WellPaired(Iterate(cfg, st, env).loop.messages)
  {
    GoodRequest(cfg, st, env);
    var s := Request(cfg, st, env);
    assert WellPaired(Sent(env));
    hide WellPaired, Request, Sent;
    if Iterate(cfg, st, env).Next? {
      var st1 := Replied(Prepare(cfg, st, env), env, s);
      if s.followUp {
        PairedNextTurn(cfg, Sent(env), s, env);
      } else {
        RecoverPaired(cfg, st1, env, s);
      }
    }
  }

  /** Main result: the history is well paired at the head of every iteration of every run. */
  lemma {:induction false} PairedAtEveryHead(cfg: Config, st: Loop, envs: seq<Iteration>, st': Loop)
    requires WellPaired(st.messages) && Runs(cfg, st, envs, st')
    ensures WellPaired(st'.messages)
    decreases |envs|
  {
    hide Iterate, WellPaired, IterationOk;
    if envs != [] {
      RunsOk(cfg, st, envs, st');
      IteratePaired(cfg, st, envs[0]);
      PairedAtEveryHead(cfg, Iterate(cfg, st, envs[0]).loop, envs[1..], st');
    }
  }

  lemma RunsOk(cfg: Config, st: Loop, envs: seq<Iteration>, st': Loop)
    requires Runs(cfg, st, envs, st') && envs != []
    ensures IterationOk(cfg, st, envs[0]) && AttemptsOk(cfg, envs[0].attempts)
  {
  }

  // ---------------------------------------------------------------- what the history keeps

  lemma ToolHistory(cfg: Config, st: Loop, env: Iteration, s: Stream)
    requires RunTools(cfg, st, env, s).Next?
    ensures var next := RunTools(cfg, st, env, s).loop;
      next.transition == Some(NextTurn)
      && HistoryAfter(env, s, s.results + Answers(RestOfTools(s, env)), NextTurn, next.messages)
  {
    hide Sent, Notes, EmitAll, RestOfTools, Answers;
    var done := Answers(RestOfTools(s, env));
    SeqAssoc(Sent(env) + s.assistants, s.results + done, Notes(env.attachments));
  }

  lemma SeqAssoc(a: seq<Message>, b: seq<Message>, c: seq<Message>)
    ensures a + b + c == a + (b + c)
  {
  }

  /** The exact history of every continuation: what was sent and every retained reply, with the nudge, the
      hook errors, or exactly one result for each call and then the attachments; a raised output limit
      repeats the request, and a drain or compaction replaces the history. */
  lemma HistoryIs(cfg: Config, st: Loop, env: Iteration) returns (answers: seq<Message>)
    requires AttemptsOk(cfg, env.attempts) && Iterate(cfg, st, env).Next?
    ensures var next := Iterate(cfg, st, env).loop; var s := Request(cfg, st, env);
      && next.transition.Some? && HistoryAfter(env, s, answers, next.transition.value, next.messages)
      && (next.transition == Some(NextTurn) ==> NoneAssistant(answers) && Results(answers) == Uses(s.assistants))
  {
    var s := Request(cfg, st, env);
    var st1 := Replied(Prepare(cfg, st, env), env, s);
    GoodRequest(cfg, st, env);
    hide Request, Prepare, Replied, Recover, RunTools, HistoryAfter, Classified, Served, Settled, Conserved, Results,
         Uses;
    if s.followUp {
      answers := s.results + Answers(RestOfTools(s, env));
      EveryCallAnswered(cfg, s, env);
      ToolHistory(cfg, st1, env, s);
    } else {
      answers := [];
      RecoverHistory(cfg, st1, env, s);
    }
  }

  // ---------------------------------------------------------------- an abort is final

  lemma {:induction false} ItemsStayAborted(cfg: Config, media: bool, s: Stream, items: seq<Item>)
    requires ItemsOk(items) && s.aborted
    ensures RunItems(cfg, media, s, items).aborted
  {
    if items != [] {
      ItemsStayAborted(cfg, media, s, items[..|items| - 1]);
    }
    hide Withheld, NewResults, EmitAll;
  }

  lemma {:induction false} RetriedStayAborted(cfg: Config, media: bool, s: Stream, attempts: seq<Attempt>, n: nat)
    requires s.aborted && n <= |attempts| && forall k | 0 <= k < n :: ItemsOk(attempts[k].items)
    ensures RunRetried(cfg, media, s, attempts, n).aborted
  {
    hide RunItems;
    if n > 0 {
      RetriedStayAborted(cfg, media, s, attempts, n - 1);
      var before := RunRetried(cfg, media, s, attempts, n - 1);
      ItemsStayAborted(cfg, media, before.(fallback := false), attempts[n - 1].items);
    }
  }

  /** Main result: once the abort signal is set, the loop stops in that iteration. */
  lemma AbortIsFinal(cfg: Config, st: Loop, env: Iteration)
    requires AttemptsOk(cfg, env.attempts) && st.aborted
    ensures Iterate(cfg, st, env).End?
  {
    hide RunItems, RunRetried, Recover, RunTools, Prepare;
    var n, s := |env.attempts| - 1, Start(cfg, st.aborted);
    RetriedStayAborted(cfg, env.mediaRecovery, s, env.attempts, n);
    ItemsStayAborted(cfg, env.mediaRecovery,
                     RunRetried(cfg, env.mediaRecovery, s, env.attempts, n).(fallback := false), env.attempts[n].items);
    assert Request(cfg, st, env).aborted;
  }
}
