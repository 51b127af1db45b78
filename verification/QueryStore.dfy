/** What a consumer that keeps every yielded message, and ignores tombstones, has as its history. */
module QueryStore {
  import opened Options
  import opened QueryMessages
  import opened QueryStream
  import opened QueryStreamProofs
  import opened QueryLoop
  import QueryPairing
  import opened QueryTranscript

  // ---------------------------------------------------------------- the stored history

  /** The messages that were yielded, in order. */
  function Stored(out: seq<Yield>): seq<Message> {
    if out == [] then []
    else Stored(out[..|out| - 1]) + if out[|out| - 1].Emit? then [out[|out| - 1].message] else []
  }

  /** No result is yielded before its call. */
  ghost predicate Led(out: seq<Yield>) {
    forall k | 0 <= k <= |out| :: ResultsOut(out[..k]) <= UsesOut(out[..k])
  }

  lemma StoredNext(ms: seq<Message>, m: Message)
    ensures Uses(ms + [m]) == Uses(ms) + multiset(UsesOf(m))
    ensures Results(ms + [m]) == Results(ms) + multiset(ResultsOf(m))
  {
    UsesConcat(ms, [m]);
    OneMessage(m);
    hide Uses, Results;
  }

  lemma {:induction false} StoredCounts(out: seq<Yield>)
    ensures Uses(Stored(out)) == UsesOut(out) && Results(Stored(out)) == ResultsOut(out)
  {
    hide Uses, Results;
    if out == [] {
      OneMessage(Note);
    } else {
      var init, y := out[..|out| - 1], out[|out| - 1];
      StoredCounts(init);
      if y.Emit? {
        StoredNext(Stored(init), y.message);
      }
      assert Stored(init) + [] == Stored(init);
    }
  }

  /** The beginnings of the stored history are what beginnings of the transcript store. */
  lemma {:induction false} StoredPrefix(out: seq<Yield>, n: nat) returns (k: nat)
    requires n <= |Stored(out)|
    ensures k <= |out| && Stored(out[..k]) == Stored(out)[..n]
  {
    if n == |Stored(out)| {
      k := |out|;
      assert out[..k] == out;
    } else {
      k := StoredPrefix(out[..|out| - 1], n);
      assert out[..|out| - 1][..k] == out[..k];
    }
  }

  lemma StoredPaired(out: seq<Yield>)
    requires Led(out)
    ensures WellPaired(Stored(out)) <==> UsesOut(out) == ResultsOut(out)
  {
    StoredCounts(out);
    hide Uses, Results, Stored, UsesOut, ResultsOut;
    forall n | 0 <= n <= |Stored(out)| ensures Results(Stored(out)[..n]) <= Uses(Stored(out)[..n]) {
      var k := StoredPrefix(out, n);
      StoredCounts(out[..k]);
    }
  }

  // ---------------------------------------------------------------- building a led transcript

  lemma LedConcat(a: seq<Yield>, b: seq<Yield>)
    requires Led(a) && Led(b)
    ensures Led(a + b)
  {
    hide UsesOut, ResultsOut;
    forall k | 0 <= k <= |a + b| ensures ResultsOut((a + b)[..k]) <= UsesOut((a + b)[..k]) {
      if k <= |a| {
        assert (a + b)[..k] == a[..k];
      } else {
        assert (a + b)[..k] == a + b[..k - |a|] && a[..|a|] == a;
        OutConcat(a, b[..k - |a|]);
      }
    }
  }

  lemma BareLed(more: seq<Yield>)
    requires Bare(more)
    ensures Led(more)
  {
    hide UsesOut, ResultsOut;
    forall k | 0 <= k <= |more| ensures ResultsOut(more[..k]) <= UsesOut(more[..k]) {
      BareCounts(more[..k]);
    }
  }

  lemma LedThenBare(out: seq<Yield>, more: seq<Yield>)
    requires Led(out) && Bare(more)
    ensures Led(out + more)
  {
    BareLed(more);
    LedConcat(out, more);
  }

  lemma PairedLed(ms: seq<Message>)
    requires WellPaired(ms)
    ensures Led(EmitAll(ms))
  {
    hide UsesOut, ResultsOut, Uses, Results;
    forall k | 0 <= k <= |ms| ensures ResultsOut(EmitAll(ms)[..k]) <= UsesOut(EmitAll(ms)[..k]) {
      assert EmitAll(ms)[..k] == EmitAll(ms[..k]);
      OutOfEmits(ms[..k]);
    }
  }

  lemma EmitLed(out: seq<Yield>, m: Message)
    requires Led(out) && m.Assistant?
    ensures Led(out + [Emit(m)])
  {
    OneYield(Emit(m));
    assert [Emit(m)][..0] == [] && [Emit(m)][..1] == [Emit(m)];
    assert Led([Emit(m)]);
    hide Led;
    LedConcat(out, [Emit(m)]);
  }

  lemma TombstonesLed(out: seq<Yield>, ms: seq<Message>)
    requires Led(out)
    ensures Led(out + TombstoneAll(ms))
  {
    hide UsesOut, ResultsOut;
    forall k | 0 <= k <= |ms| ensures ResultsOut(TombstoneAll(ms)[..k]) <= UsesOut(TombstoneAll(ms)[..k]) {
      assert TombstoneAll(ms)[..k] == TombstoneAll(ms[..k]);
      OutOfTombstones(ms[..k]);
    }
    LedConcat(out, TombstoneAll(ms));
  }

  lemma Some(ids: seq<Id>, n: nat)
    requires n <= |ids|
    ensures multiset(ids[..n]) <= multiset(ids)
  {
    assert ids == ids[..n] + ids[n..];
    assert multiset(ids) == multiset(ids[..n]) + multiset(ids[n..]);
  }

  lemma SomeAnswers(out: seq<Yield>, ids: seq<Id>, n: nat)
    requires n <= |ids| && ResultsOut(out) + multiset(ids) <= UsesOut(out)
    ensures ResultsOut(out + EmitAll(Answers(ids[..n]))) <= UsesOut(out + EmitAll(Answers(ids[..n])))
  {
    hide UsesOut, ResultsOut, Answers, EmitAll;
    OutConcat(out, EmitAll(Answers(ids[..n])));
    AnswersCount(ids[..n]);
    Some(ids, n);
  }

  lemma PrefixOfAnswers(out: seq<Yield>, ids: seq<Id>, k: nat)
    requires |out| <= k <= |out| + |ids|
    ensures (out + EmitAll(Answers(ids)))[..k] == out + EmitAll(Answers(ids[..k - |out|]))
  {
  }

  lemma AnswersLedAt(out: seq<Yield>, ids: seq<Id>, k: nat)
    requires Led(out) && ResultsOut(out) + multiset(ids) <= UsesOut(out)
    requires k <= |out + EmitAll(Answers(ids))|
    ensures ResultsOut((out + EmitAll(Answers(ids)))[..k]) <= UsesOut((out + EmitAll(Answers(ids)))[..k])
  {
    hide UsesOut, ResultsOut;
    if k <= |out| {
      hide EmitAll, Answers;
      assert (out + EmitAll(Answers(ids)))[..k] == out[..k];
    } else {
      PrefixOfAnswers(out, ids, k);
      SomeAnswers(out, ids, k - |out|);
      hide Led;
    }
  }

  /** Answers to calls that have none yet. */
  lemma AnswersLed(out: seq<Yield>, ids: seq<Id>)
    requires Led(out) && ResultsOut(out) + multiset(ids) <= UsesOut(out)
    ensures Led(out + EmitAll(Answers(ids)))
  {
    hide UsesOut, ResultsOut, EmitAll, Answers;
    var all := out + EmitAll(Answers(ids));
    forall k | 0 <= k <= |all| ensures ResultsOut(all[..k]) <= UsesOut(all[..k]) {
      AnswersLedAt(out, ids, k);
    }
  }

  // ---------------------------------------------------------------- a request without the executor

  /** Without the streaming executor the request yields no result before its call, and at least as many
      calls as results and calls in hand. */
  ghost predicate Leads(cfg: Config, s: Stream) { Good(cfg, s) && s.executor.None? && Led(s.out) }

  lemma OpenCalls(cfg: Config, s: Stream)
    requires Leads(cfg, s)
    ensures ResultsOut(s.out) + multiset(UseIds(s.assistants)) <= UsesOut(s.out)
    ensures multiset(s.blocks) == multiset(UseIds(s.assistants))
  {
    hide UsesOut, ResultsOut, WithdrawnOut, UseIds, Settled, Served, Led;
  }

  lemma NoExecutor(cfg: Config, s: Stream)
    requires Good(cfg, s) && !cfg.streamingTools
    ensures s.executor.None?
  {
    hide Classified, Settled, Conserved;
  }

  lemma LeadsOpen(cfg: Config, s: Stream)
    requires Leads(cfg, s)
    ensures s.executor.None? && multiset(s.blocks) == multiset(UseIds(s.assistants))
  {
    OpenCalls(cfg, s);
  }

  lemma StepLeads(cfg: Config, media: bool, s: Stream, item: Item)
    requires Leads(cfg, s) && !cfg.streamingTools && ItemOk(item)
    ensures Leads(cfg, StepItem(cfg, media, s, item))
  {
    StepGood(cfg, media, s, item);
    NoExecutor(cfg, StepItem(cfg, media, s, item));
    hide Good, Led, Withdraw, Accept;
    match item
    case AbortSignal =>
    case FallbackSignal =>
    case Reply(m, ready) =>
      WithdrawLed(cfg, s);
      AcceptLed(cfg, media, Withdraw(cfg, s), m);
    case Other(ready) =>
      WithdrawLed(cfg, s);
      assert Bare([Signal]);
      LedThenBare(Withdraw(cfg, s).out, [Signal]);
  }

  lemma AcceptLed(cfg: Config, media: bool, s: Stream, m: Message)
    requires Led(s.out) && m.Assistant? && s.executor.None?
    ensures Led(Accept(cfg, media, s, m).out) && Accept(cfg, media, s, m).executor.None?
  {
    hide Led, Withheld;
    EmitLed(s.out, m);
  }

  lemma WithdrawLed(cfg: Config, s: Stream)
    requires Led(s.out) && s.executor.None? && !cfg.streamingTools
    ensures Led(Withdraw(cfg, s).out) && Withdraw(cfg, s).executor.None?
  {
    TombstonesLed(s.out, s.assistants);
    hide Led;
  }

  lemma {:induction false} ItemsLead(cfg: Config, media: bool, s: Stream, items: seq<Item>)
    requires Leads(cfg, s) && !cfg.streamingTools && ItemsOk(items)
    ensures Leads(cfg, RunItems(cfg, media, s, items))
  {
    hide Leads, StepItem;
    if items != [] {
      ItemsLead(cfg, media, s, items[..|items| - 1]);
      StepLeads(cfg, media, RunItems(cfg, media, s, items[..|items| - 1]), items[|items| - 1]);
    }
  }

  lemma SwitchLed(cfg: Config, s: Stream)
    requires Leads(cfg, s)
    ensures Led(s.out + MissingResults(UseIds(s.assistants)) + [Signal])
  {
    OpenCalls(cfg, s);
    assert Bare([Signal]);
    hide Good, Led, UsesOut, ResultsOut, UseIds, Answers, EmitAll, Bare;
    AnswersLed(s.out, UseIds(s.assistants));
    LedThenBare(s.out + MissingResults(UseIds(s.assistants)), [Signal]);
  }

  lemma SwitchLeads(cfg: Config, s: Stream)
    requires Leads(cfg, s) && !cfg.streamingTools
    ensures Leads(cfg, SwitchModel(cfg, s))
  {
    SwitchGood(cfg, s);
    SwitchLed(cfg, s);
    hide Good, Led, UseIds, MissingResults, Fated;
  }

  lemma StartLeads(cfg: Config, aborted: bool)
    requires !cfg.streamingTools
    ensures Leads(cfg, Start(cfg, aborted))
  {
    StartGood(cfg, aborted);
    hide Good;
  }

  lemma FlagLeads(cfg: Config, s: Stream)
    requires Leads(cfg, s)
    ensures Leads(cfg, s.(fallback := false))
  {
    FlagGood(cfg, s);
    hide Good;
  }

  lemma {:induction false} RetriedLead(cfg: Config, media: bool, s: Stream, attempts: seq<Attempt>, n: nat)
    requires Leads(cfg, s) && !cfg.streamingTools
    requires n <= |attempts| && forall k | 0 <= k < n :: ItemsOk(attempts[k].items)
    ensures Leads(cfg, RunRetried(cfg, media, s, attempts, n))
  {
    hide Leads, RunItems, SwitchModel;
    if n > 0 {
      RetriedLead(cfg, media, s, attempts, n - 1);
      var before := RunRetried(cfg, media, s, attempts, n - 1);
      FlagLeads(cfg, before);
      ItemsLead(cfg, media, before.(fallback := false), attempts[n - 1].items);
      SwitchLeads(cfg, RunItems(cfg, media, before.(fallback := false), attempts[n - 1].items));
    }
  }

  lemma AttemptsLead(cfg: Config, media: bool, s: Stream, attempts: seq<Attempt>)
    requires Leads(cfg, s) && !cfg.streamingTools && AttemptsOk(cfg, attempts)
    ensures Leads(cfg, RunAttempts(cfg, media, s, attempts))
  {
    hide Leads, RunItems, RunRetried, ItemsOk;
    var n := |attempts| - 1;
    RetriedLead(cfg, media, s, attempts, n);
    FlagLeads(cfg, RunRetried(cfg, media, s, attempts, n));
    ItemsLead(cfg, media, RunRetried(cfg, media, s, attempts, n).(fallback := false), attempts[n].items);
  }

  lemma RequestLeads(cfg: Config, st: Loop, env: Iteration)
    requires AttemptsOk(cfg, env.attempts) && !cfg.streamingTools
    ensures Leads(cfg, Request(cfg, st, env))
  {
    hide Leads, RunAttempts, AttemptsOk, Start;
    StartLeads(cfg, st.aborted);
    AttemptsLead(cfg, env.mediaRecovery, Start(cfg, st.aborted), env.attempts);
  }

  // ---------------------------------------------------------------- one iteration

  /** A request that is closed by answers to all calls in hand. */
  lemma CloseLed(cfg: Config, before: seq<Yield>, s: Stream, lead: seq<Yield>, ids: seq<Id>, tail: seq<Yield>)
    requires Led(before) && Leads(cfg, s) && Bare(lead) && Bare(tail) && multiset(ids) == multiset(s.blocks)
    ensures Led(before + s.out + (lead + EmitAll(Answers(ids)) + tail))
  {
    OpenCalls(cfg, s);
    var more := EmitAll(Answers(ids));
    BareCounts(lead);
    OutConcat(s.out, lead);
    hide UsesOut, ResultsOut, WithdrawnOut, Answers, EmitAll, Bare, UseIds, Good, Led;
    LedThenBare(s.out, lead);
    AnswersLed(s.out + lead, ids);
    LedThenBare(s.out + lead + more, tail);
    LedConcat(before, s.out + lead + more + tail);
    Regroup(before, s.out, lead, more, tail);
  }

  lemma Regroup(a: seq<Yield>, b: seq<Yield>, c: seq<Yield>, d: seq<Yield>, e: seq<Yield>)
    ensures a + (b + c + d + e) == a + b + (c + d + e)
  {
  }

  lemma PrepareLed(cfg: Config, st: Loop, env: Iteration)
    requires Led(st.out) && (env.compaction.Some? ==> WellPaired(env.compaction.value.messages))
    ensures Led(Prepare(cfg, st, env).out)
  {
    assert Bare([Signal]);
    hide Led, WellPaired, EmitAll, Bare, Charge;
    LedThenBare(st.out, [Signal]);
    if env.compaction.Some? {
      PairedLed(env.compaction.value.messages);
      LedConcat(st.out + [Signal], EmitAll(env.compaction.value.messages));
    }
  }

  lemma FailLed(cfg: Config, before: Loop, end: End, s: Stream)
    requires Led(before.out) && Leads(cfg, s)
    ensures Led(Fail(before, end, s).loop.out)
  {
    hide Fail, UseIds, EmitAll, Answers, Good, UsesOut, ResultsOut;
    FailOut(before, end, s);
    LeadsOpen(cfg, s);
    assert Bare([]) && Bare([Emit(Note)]);
    hide Led, Bare;
    if end == ImageFailure {
      LedConcat(before.out, s.out);
      LedThenBare(before.out + s.out, [Emit(Note)]);
    } else {
      CloseLed(cfg, before.out, s, [], UseIds(s.assistants), [Emit(Note)]);
    }
  }

  lemma InterruptLed(cfg: Config, before: Loop, env: Iteration, s: Stream)
    requires Led(before.out) && Leads(cfg, s)
    ensures Led(Interrupt(before, env, s).loop.out)
  {
    hide Led, Interrupt, UseIds, EmitAll, Answers, Leads, UsesOut, ResultsOut;
    InterruptOut(before, env, s);
    LeadsOpen(cfg, s);
    assert Bare([]) && Bare(Interruption(env));
    CloseLed(cfg, before.out, s, [], AbortAnswers(s, env), Interruption(env));
  }

  lemma ToolsLed(cfg: Config, before: Loop, env: Iteration, s: Stream)
    requires Led(before.out) && Leads(cfg, s) && !s.aborted
    ensures Led(RunTools(cfg, Replied(before, env, s), env, s).loop.out)
  {
    RestAnswers(cfg, s, env);
    var lead := if env.summary then [Signal] else [];
    var tail := ToolYields(cfg, Replied(before, env, s), env, s);
    var ids := RestOfTools(s, env);
    assert Bare(lead) && Bare(tail);
    CloseLed(cfg, before.out, s, lead, ids, tail);
    hide Led, Good, Bare, Answers, EmitAll, RestOfTools, RunTools;
    ToolsOut(before.out, s.out, lead, EmitAll(Answers(ids)), tail);
  }

  lemma RecoverLed(cfg: Config, st: Loop, env: Iteration, s: Stream)
    requires Led(st.out) && Classified(s) && !s.followUp
    requires env.compacted.Some? ==> WellPaired(env.compacted.value.messages)
    ensures Led(Recover(cfg, st, env, s).loop.out)
  {
    RecoverYields(cfg, st, env, s);
    var hooks := EmitAll(Notes(env.hookNotes));
    assert Bare(hooks);
    LedThenBare(st.out, hooks);
    if s.assistants != [] {
      LastHasNoCalls(s);
      LedThenBare(st.out, [Emit(s.assistants[|s.assistants| - 1])]);
      LedThenBare(st.out + [Emit(s.assistants[|s.assistants| - 1])], hooks);
    }
    if env.compacted.Some? {
      PairedLed(env.compacted.value.messages);
      LedConcat(st.out, EmitAll(env.compacted.value.messages));
    }
    hide *;
  }

  lemma ReplyLed(cfg: Config, before: Loop, env: Iteration, s: Stream)
    requires Led(before.out) && Leads(cfg, s) && !s.followUp
    requires env.compacted.Some? ==> WellPaired(env.compacted.value.messages)
    ensures Led(Recover(cfg, Replied(before, env, s), env, s).loop.out)
  {
    var lead := if env.summary then [Signal] else [];
    assert Bare(lead) && Classified(s);
    hide Led, Bare, Good, WellPaired, Recover, Classified;
    LedThenBare(s.out, lead);
    LedConcat(before.out, s.out + lead);
    RecoverLed(cfg, Replied(before, env, s), env, s);
  }

  /** Calls that an image-size failure leaves without a result. */
  function Unanswered(cfg: Config, st: Loop, env: Iteration): multiset<Id>
    requires AttemptsOk(cfg, env.attempts)
  {
    if !Preempted(cfg, env) && EndOf(env.attempts) == ImageFailure then multiset(Request(cfg, st, env).blocks)
    else multiset{}
  }

  lemma IterationLed(cfg: Config, st: Loop, env: Iteration)
    requires IterationOk(cfg, st, env) && !cfg.streamingTools && Led(st.out)
    ensures Led(Iterate(cfg, st, env).loop.out)
  {
    PrepareLed(cfg, st, env);
    RequestLeads(cfg, st, env);
    var before, s := Prepare(cfg, st, env), Request(cfg, st, env);
    assert Bare([Emit(Note)]);
    LedThenBare(before.out, [Emit(Note)]);
    hide WellPaired, Prepare, Request, Recover, RunTools, Fail, Interrupt, Replied, Bare, Led, Leads, Preempted;
    if Preempted(cfg, env) {
    } else if EndOf(env.attempts) != Finished {
      FailLed(cfg, before, EndOf(env.attempts), s);
    } else if Aborted(s, env) {
      InterruptLed(cfg, before, env, s);
    } else if s.followUp {
      ToolsLed(cfg, before, env, s);
    } else {
      ReplyLed(cfg, before, env, s);
    }
  }

  lemma RequestCounts(cfg: Config, s: Stream)
    requires Leads(cfg, s)
    ensures UsesOut(s.out) == ResultsOut(s.out) + WithdrawnOut(s.out) + multiset(s.blocks)
  {
    hide UsesOut, ResultsOut, WithdrawnOut, Classified, Served, Settled, Led;
  }

  lemma NoteCounts()
    ensures UsesOut([Emit(Note)]) == ResultsOut([Emit(Note)]) == WithdrawnOut([Emit(Note)]) == multiset{}
  {
    OneYield(Emit(Note));
  }

  lemma ImageCounts(cfg: Config, before: Loop, s: Stream)
    requires Balanced(before.out) && Leads(cfg, s)
    ensures var out := Fail(before, ImageFailure, s).loop.out;
      UsesOut(out) == ResultsOut(out) + WithdrawnOut(out) + multiset(s.blocks)
  {
    hide UsesOut, ResultsOut, WithdrawnOut, Leads, Fail;
    FailOut(before, ImageFailure, s);
    RequestCounts(cfg, s);
    OutConcat(before.out, s.out);
    OutConcat(before.out + s.out, [Emit(Note)]);
    NoteCounts();
  }

  lemma IterationCounts(cfg: Config, st: Loop, env: Iteration)
    requires IterationOk(cfg, st, env) && !cfg.streamingTools && Balanced(st.out)
    ensures var out := Iterate(cfg, st, env).loop.out;
      UsesOut(out) == ResultsOut(out) + WithdrawnOut(out) + Unanswered(cfg, st, env)
  {
    if !Preempted(cfg, env) && EndOf(env.attempts) == ImageFailure {
      PrepareKeeps(cfg, st, env);
      RequestLeads(cfg, st, env);
      var before, s := Prepare(cfg, st, env), Request(cfg, st, env);
      hide WellPaired, Prepare, Request, Fail, Balanced, Leads, UsesOut, ResultsOut, WithdrawnOut, Complete;
      ImageCounts(cfg, before, s);
    } else {
      hide IterationOk, Iterate, UsesOut, ResultsOut, WithdrawnOut;
      IterationBalanced(cfg, st, env);
    }
  }

  // ---------------------------------------------------------------- whole runs

  lemma {:induction false} LedAtEveryHead(cfg: Config, st: Loop, envs: seq<Iteration>, st': Loop)
    requires Runs(cfg, st, envs, st') && !cfg.streamingTools && Led(st.out)
    ensures Led(st'.out)
    decreases |envs|
  {
    hide Iterate, Led, IterationOk;
    if envs != [] {
      QueryPairing.RunsOk(cfg, st, envs, st');
      IterationLed(cfg, st, envs[0]);
      LedAtEveryHead(cfg, Iterate(cfg, st, envs[0]).loop, envs[1..], st');
    }
  }

  lemma PairedConcat(a: seq<Message>, b: seq<Message>)
    requires WellPaired(a)
    ensures WellPaired(b) ==> WellPaired(a + b)
    ensures WellPaired(a + b) ==> Uses(b) == Results(b)
  {
    hide Uses, Results;
    UsesConcat(a, b);
    assert Uses(b) == Uses(a + b) - Uses(a) && Results(b) == Results(a + b) - Results(a);
    if WellPaired(b) {
      forall k | 0 <= k <= |a + b| ensures Results((a + b)[..k]) <= Uses((a + b)[..k]) {
        if k <= |a| {
          assert (a + b)[..k] == a[..k];
        } else {
          assert (a + b)[..k] == a + b[..k - |a|];
          UsesConcat(a, b[..k - |a|]);
        }
      }
    }
  }

  lemma StoreFrom(messages: seq<Message>, out: seq<Yield>)
    requires WellPaired(messages) && Led(out)
    ensures WellPaired(messages + Stored(out)) <==> UsesOut(out) == ResultsOut(out)
  {
    StoredPaired(out);
    StoredCounts(out);
    hide Uses, Results, UsesOut, ResultsOut, Stored, Led, WellPaired;
    PairedConcat(messages, Stored(out));
  }

  /** Main result: without the streaming executor, a caller that appends every yielded message to its own
      history and ignores tombstones ends with a well-paired history exactly if no withdrawn reply had calls
      and no image-size failure left a call unanswered. */
  lemma StoreIff(cfg: Config, messages: seq<Message>, override: Option<nat>, envs: seq<Iteration>, st: Loop,
                 env: Iteration)
    requires Runs(cfg, Initial(messages, override), envs, st) && WellPaired(messages) && !cfg.streamingTools
    requires AttemptsOk(cfg, env.attempts) && IterationOk(cfg, st, env)
    ensures var out := Iterate(cfg, st, env).loop.out;
      WellPaired(messages + Stored(out)) <==> WithdrawnOut(out) == multiset{} == Unanswered(cfg, st, env)
  {
    EmptyTranscript(messages, override);
    var start := Initial(messages, override);
    assert Led(start.out);
    hide Runs, Led, Balanced, Complete, WellPaired, Iterate, IterationOk, Unanswered, UsesOut, ResultsOut, WithdrawnOut,
         Stored;
    TranscriptAtEveryHead(cfg, start, envs, st);
    LedAtEveryHead(cfg, start, envs, st);
    IterationLed(cfg, st, env);
    IterationCounts(cfg, st, env);
    StoreFrom(messages, Iterate(cfg, st, env).loop.out);
  }

  // ---------------------------------------------------------------- with the executor

  /** The switch to the fallback model gives one more result to every call of the retained replies, so each
      of them ends with exactly one if and only if none had been collected before. */
  lemma SwitchAnswersOnceIff(cfg: Config, s: Stream)
    requires Good(cfg, s)
    ensures ResultsOut(SwitchModel(cfg, s).out) == ResultsOut(s.out) + Uses(s.assistants)
    ensures Results(s.results) <= Uses(s.assistants)
    ensures Results(s.results) + (ResultsOut(SwitchModel(cfg, s).out) - ResultsOut(s.out)) == Uses(s.assistants)
            <==> Results(s.results) == multiset{}
  {
    hide Uses, Results, ResultsOut, Classified, Served, Settled, Conserved, SwitchModel;
    CollectedAreCalls(cfg, s);
    SwitchAdds(cfg, s);
  }

  lemma SwitchAdds(cfg: Config, s: Stream)
    ensures ResultsOut(SwitchModel(cfg, s).out) == ResultsOut(s.out) + Uses(s.assistants)
  {
    hide Uses, ResultsOut, UseIds, MissingResults, Fated;
    SwitchYields(s);
    var missing := MissingResults(UseIds(s.assistants));
    OutConcat(s.out, missing + [Signal]);
    assert s.out + missing + [Signal] == s.out + (missing + [Signal]);
  }

  /** A call whose result is collected while the reply streams, and then the model fails over. */
  predicate AnsweredThenFallback(cfg: Config, attempts: seq<Attempt>, call: Message) {
    && call.Assistant? && |call.uses| == 1 && call.problem == NoProblem && !call.isApiError
    && cfg.hasFallbackModel && cfg.streamingTools
    && attempts == [Attempt([Reply(call, {0})], ModelFallback), Attempt([], Finished)]
  }

  /** With the streaming executor the switch to the fallback model answers such a call a second time. */
  lemma FallbackAnswersTwice(cfg: Config, media: bool, attempts: seq<Attempt>, call: Message)
    requires AnsweredThenFallback(cfg, attempts, call)
    ensures AttemptsOk(cfg, attempts)
    ensures var s := RunAttempts(cfg, media, Start(cfg, false), attempts);
      && s.out == [Emit(call), Emit(User(call.uses)), Emit(User(call.uses)), Signal]
      && UsesOut(s.out) < ResultsOut(s.out)
  {
    var s0, items := Start(cfg, false), attempts[0].items;
    assert s0.(fallback := false) == s0;
    FirstCall(cfg, media, call);
    OneItem(cfg, media, s0, items);
    var s1 := StepItem(cfg, media, s0, items[0]);
    SwitchOnce(cfg, s1, call);
    FourYields(call);
    hide StepItem, SwitchModel, Start, UsesOut, ResultsOut;
    assert RunRetried(cfg, media, s0, attempts, 0) == s0;
    assert RunRetried(cfg, media, s0, attempts, 1) == SwitchModel(cfg, s1);
  }

  lemma OneItem(cfg: Config, media: bool, s: Stream, items: seq<Item>)
    requires |items| == 1 && ItemsOk(items)
    ensures RunItems(cfg, media, s, items) == StepItem(cfg, media, s, items[0])
  {
    hide StepItem;
    assert items[..0] == [];
    assert RunItems(cfg, media, s, []) == s;
  }

  lemma FirstCall(cfg: Config, media: bool, call: Message)
    requires call.Assistant? && |call.uses| == 1 && call.problem == NoProblem && !call.isApiError && cfg.streamingTools
    ensures var s := StepItem(cfg, media, Start(cfg, false), Reply(call, {0}));
      s.out == [Emit(call), Emit(User(call.uses))] && s.assistants == [call] && !s.fallback
  {
    var ex := Executor(call.uses, {});
    assert NewResultsUpTo(ex, {0}, 0) == [];
    assert NewResults(ex, {0}) == [call.uses[0]];
    assert [call.uses[0]] == call.uses;
    assert [] + call.uses == call.uses;
    assert Answers(call.uses) == [User(call.uses)];
  }

  lemma SwitchOnce(cfg: Config, s: Stream, call: Message)
    requires call.Assistant? && |call.uses| == 1
    requires s.out == [Emit(call), Emit(User(call.uses))] && s.assistants == [call]
    ensures SwitchModel(cfg, s).out == [Emit(call), Emit(User(call.uses)), Emit(User(call.uses)), Signal]
  {
    assert [call][..0] == [] && UseIds([call]) == UseIds([]) + call.uses == call.uses;
    assert [call.uses[0]] == call.uses;
    assert Answers(call.uses) == [User(call.uses)];
  }

  lemma FourYields(call: Message)
    requires call.Assistant? && |call.uses| == 1
    ensures UsesOut([Emit(call), Emit(User(call.uses)), Emit(User(call.uses)), Signal])
            < ResultsOut([Emit(call), Emit(User(call.uses)), Emit(User(call.uses)), Signal])
  {
    var result := Emit(User(call.uses));
    OneYield(Emit(call));
    OneYield(result);
    OneYield(Signal);
    hide UsesOut, ResultsOut;
    OutConcat([Emit(call)], [result]);
    OutConcat([Emit(call)] + [result], [result]);
    OutConcat([Emit(call)] + [result] + [result], [Signal]);
    assert [Emit(call)] + [result] + [result] + [Signal] == [Emit(call), result, result, Signal];
  }
}
