/** The transcript the loop yields: which tool calls get a result, on every exit and over whole runs. */
module QueryTranscript {
  import opened Options
  import opened QueryMessages
  import opened QueryStream
  import opened QueryStreamProofs
  import opened QueryLoop
  import opened QueryPairing

  // ---------------------------------------------------------------- what a request has shown

  /** Every retained reply with tool calls has been yielded. */
  ghost predicate CallsShown(assistants: seq<Message>, out: seq<Yield>) {
    forall m | m in assistants && UsesOf(m) != [] :: Emit(m) in out
  }

  /** Every result yielded belongs to a collected result or to a reply that was given up. */
  ghost predicate ResultsKnown(out: seq<Yield>, discarded: seq<Discarded>, results: seq<Message>) {
    forall id | id in ResultsOut(out) :: id in Uses(Messages(discarded)) || id in Results(results)
  }

  ghost predicate Shown(s: Stream) {
    CallsShown(s.assistants, s.out) && ResultsKnown(s.out, s.discarded, s.results)
  }

  lemma GivenUpMessages(cfg: Config, s: Stream, fate: Fate)
    ensures Uses(Messages(GiveUp(cfg, s, fate).discarded)) == Uses(Messages(s.discarded)) + Uses(s.assistants)
  {
    hide Uses, Results;
    assert Messages(GiveUp(cfg, s, fate).discarded) == Messages(s.discarded) + s.assistants;
    UsesConcat(Messages(s.discarded), s.assistants);
  }

  /** Collected results answer calls of retained replies. */
  lemma CollectedAreCalls(cfg: Config, s: Stream)
    requires Classified(s) && Served(cfg, s)
    ensures Results(s.results) <= Uses(s.assistants)
  {
    UseIdsAre(s.assistants);
    if s.executor.Some? {
      var ex := s.executor.value;
      assert s.blocks == ex.added + s.blocks[|ex.added|..];
    }
    hide Uses, Results, UseIds, Outstanding;
  }

  lemma GiveUpShown(cfg: Config, s: Stream, fate: Fate, more: seq<Yield>)
    requires Classified(s) && Served(cfg, s) && Shown(s)
    requires ResultsOut(more) <= Uses(s.assistants)
    ensures Shown(GiveUp(cfg, s.(out := s.out + more), fate))
  {
    CollectedAreCalls(cfg, s);
    GivenUpMessages(cfg, s.(out := s.out + more), fate);
    OutConcat(s.out, more);
    hide Uses, Results, ResultsOut, Classified, Served, Messages;
    var w := GiveUp(cfg, s.(out := s.out + more), fate);
    forall id | id in ResultsOut(w.out) ensures id in Uses(Messages(w.discarded)) {
      if id in ResultsOut(s.out) {
      } else {
        assert id in ResultsOut(more);
      }
    }
  }

  lemma WithdrawShown(cfg: Config, s: Stream)
    requires Classified(s) && Served(cfg, s) && Shown(s)
    ensures Shown(Withdraw(cfg, s))
  {
    OutOfTombstones(s.assistants);
    hide Classified, Served, Shown, ResultsOut, Uses;
    if s.fallback {
      GiveUpShown(cfg, s, Withdrawn, TombstoneAll(s.assistants));
    }
  }

  lemma SwitchYields(s: Stream)
    ensures ResultsOut(MissingResults(UseIds(s.assistants)) + [Signal]) == Uses(s.assistants)
  {
    var ids := UseIds(s.assistants);
    AnswersCount(ids);
    UseIdsAre(s.assistants);
    OneYield(Signal);
    hide ResultsOut, Uses, UseIds, Answers;
    OutConcat(MissingResults(ids), [Signal]);
  }

  lemma SwitchShown(cfg: Config, s: Stream)
    requires Classified(s) && Served(cfg, s) && Shown(s)
    ensures Shown(SwitchModel(cfg, s))
  {
    SwitchYields(s);
    hide Classified, Served, Shown, ResultsOut, Uses, UseIds, Answers, GiveUp, MissingResults;
    var missing := MissingResults(UseIds(s.assistants));
    GiveUpShown(cfg, s, ClearedByFallback, missing + [Signal]);
    assert s.out + missing + [Signal] == s.out + (missing + [Signal]);
  }

  lemma AcceptCalls(cfg: Config, media: bool, s: Stream, m: Message)
    requires CallsShown(s.assistants, s.out) && m.Assistant? && (Withheld(cfg, media, m) ==> m.uses == [])
    ensures CallsShown(Accept(cfg, media, s, m).assistants, Accept(cfg, media, s, m).out)
  {
    hide Withheld;
    assert Emit(m) in s.out + [Emit(m)];
  }

  lemma AcceptResults(cfg: Config, media: bool, s: Stream, m: Message)
    requires m.Assistant?
    ensures ResultsOut(Accept(cfg, media, s, m).out) == ResultsOut(s.out)
    ensures Accept(cfg, media, s, m).discarded == s.discarded && Accept(cfg, media, s, m).results == s.results
  {
    OutConcat(s.out, [Emit(m)]);
    OneYield(Emit(m));
    hide ResultsOut, Withheld;
  }

  lemma AcceptShown(cfg: Config, media: bool, s: Stream, m: Message)
    requires Shown(s) && ItemOk(Reply(m, {}))
    ensures Shown(Accept(cfg, media, s, m))
  {
    if Withheld(cfg, media, m) {
      WithheldHasNoUses(cfg, media, m);
    }
    hide ResultsOut, Uses, Results, Messages, Withheld, Accept;
    AcceptCalls(cfg, media, s, m);
    AcceptResults(cfg, media, s, m);
  }

  lemma CollectShown(s: Stream, ready: set<nat>)
    requires Shown(s)
    ensures Shown(Collect(s, ready))
  {
    if s.executor.Some? && !s.aborted {
      var done := Answers(NewResults(s.executor.value, ready));
      OutConcat(s.out, EmitAll(done));
      OutOfEmits(done);
      UsesConcat(s.results, done);
      hide ResultsOut, Uses, Results, Messages, NewResults, Answers, EmitAll;
    }
  }

  lemma SignalShown(s: Stream)
    requires Shown(s)
    ensures Shown(s.(out := s.out + [Signal]))
  {
    SignalOut(s.out);
    hide ResultsOut;
  }

  lemma StepShown(cfg: Config, media: bool, s: Stream, item: Item)
    requires Good(cfg, s) && Shown(s) && ItemOk(item)
    ensures Shown(StepItem(cfg, media, s, item))
  {
    match item
    case AbortSignal =>
    case FallbackSignal =>
    case Reply(m, ready) =>
      WithdrawShown(cfg, s);
      hide Shown, Good, ItemOk;
      assert ItemOk(Reply(m, {})) by { ReplyOk(m, ready); }
      AcceptShown(cfg, media, Withdraw(cfg, s), m);
      CollectShown(Accept(cfg, media, Withdraw(cfg, s), m), ready);
    case Other(ready) =>
      WithdrawShown(cfg, s);
      hide Shown, Good;
      var w := Withdraw(cfg, s);
      SignalShown(w);
      CollectShown(w.(out := w.out + [Signal]), ready);
  }

  lemma ReplyOk(m: Message, ready: set<nat>)
    requires ItemOk(Reply(m, ready))
    ensures ItemOk(Reply(m, {}))
  {
  }

  lemma {:induction false} ItemsShown(cfg: Config, media: bool, s: Stream, items: seq<Item>)
    requires Good(cfg, s) && Shown(s) && ItemsOk(items)
    ensures Good(cfg, RunItems(cfg, media, s, items)) && Shown(RunItems(cfg, media, s, items))
  {
    hide Good, Shown, StepItem;
    if items != [] {
      ItemsShown(cfg, media, s, items[..|items| - 1]);
      StepGood(cfg, media, RunItems(cfg, media, s, items[..|items| - 1]), items[|items| - 1]);
      StepShown(cfg, media, RunItems(cfg, media, s, items[..|items| - 1]), items[|items| - 1]);
    }
  }

  lemma FlagShown(s: Stream)
    requires Shown(s)
    ensures Shown(s.(fallback := false))
  {
  }

  lemma {:induction false} RetriedShown(cfg: Config, media: bool, s: Stream, attempts: seq<Attempt>, n: nat)
    requires Good(cfg, s) && Shown(s) && n <= |attempts| && forall k | 0 <= k < n :: ItemsOk(attempts[k].items)
    ensures Good(cfg, RunRetried(cfg, media, s, attempts, n)) && Shown(RunRetried(cfg, media, s, attempts, n))
  {
    hide Shown, RunItems, SwitchModel;
    if n > 0 {
      RetriedShown(cfg, media, s, attempts, n - 1);
      var before := RunRetried(cfg, media, s, attempts, n - 1);
      FlagShown(before);
      FlagGood(cfg, before);
      ItemsShown(cfg, media, before.(fallback := false), attempts[n - 1].items);
      SwitchGood(cfg, RunItems(cfg, media, before.(fallback := false), attempts[n - 1].items));
      SwitchShown(cfg, RunItems(cfg, media, before.(fallback := false), attempts[n - 1].items));
    }
  }

  lemma StartShown(cfg: Config, aborted: bool)
    ensures Shown(Start(cfg, aborted))
  {
  }

  lemma AttemptsShown(cfg: Config, media: bool, aborted: bool, attempts: seq<Attempt>)
    requires AttemptsOk(cfg, attempts)
    ensures Shown(RunAttempts(cfg, media, Start(cfg, aborted), attempts))
  {
    hide Good, Shown, RunItems, RunRetried, Start;
    var n := |attempts| - 1;
    StartGood(cfg, aborted);
    StartShown(cfg, aborted);
    RetriedShown(cfg, media, Start(cfg, aborted), attempts, n);
    var before := RunRetried(cfg, media, Start(cfg, aborted), attempts, n);
    FlagShown(before);
    FlagGood(cfg, before);
    ItemsShown(cfg, media, before.(fallback := false), attempts[n].items);
  }

  /** What was streamed, whatever happened, leaves every call shown and every result accounted for. */
  lemma RequestShown(cfg: Config, st: Loop, env: Iteration)
    requires AttemptsOk(cfg, env.attempts)
    ensures Good(cfg, Request(cfg, st, env)) && Shown(Request(cfg, st, env))
  {
    hide Good, Shown, RunAttempts, Start;
    GoodRequest(cfg, st, env);
    AttemptsShown(cfg, env.mediaRecovery, st.aborted, env.attempts);
  }

  // ---------------------------------------------------------------- closing a request

  ghost predicate AnsweredIn(more: seq<Yield>, id: Id) {
    exists j: nat :: ResultAt(more, j, id)
  }

  predicate NoTombstone(more: seq<Yield>) { forall y | y in more :: !y.Tombstone? }

  /** No tool call id is used by two replies of the request, nor twice by one. */
  ghost predicate DistinctCalls(s: Stream) {
    forall id :: Uses(s.received)[id] <= 1
  }

  lemma ClosedIf(before: seq<Yield>, s: Stream, more: seq<Yield>)
    requires Complete(before) && Settled(s.out, s.assistants, Todo(s)) && Quiet(more)
    requires forall id | id in Todo(s) :: AnsweredIn(more, id)
    ensures Complete(before + s.out + more)
  {
    hide Todo, Quiet, ResultAt;
    SettledQuiet(s.out, more, s.assistants, Todo(s), {});
    SettledComplete(s.out + more, s.assistants, {});
    CompleteConcat(before, s.out + more);
    assert before + (s.out + more) == before + s.out + more;
  }

  lemma {:induction false} UsedBy(ms: seq<Message>, id: Id)
    requires id in UseIds(ms)
    ensures exists i: nat :: i < |ms| && id in UsesOf(ms[i])
  {
    var init, m := ms[..|ms| - 1], ms[|ms| - 1];
    if id in UsesOf(m) {
    } else {
      UsedBy(init, id);
      var i: nat :| i < |init| && id in UsesOf(init[i]);
      assert ms[i] == init[i];
    }
  }

  lemma {:induction false} ResultCounted(out: seq<Yield>, j: nat, id: Id)
    requires ResultAt(out, j, id)
    ensures id in ResultsOut(out)
  {
    if j < |out| - 1 {
      ResultCounted(out[..|out| - 1], j, id);
    }
  }

  lemma {:induction false} TombstoneCounted(out: seq<Yield>, j: nat)
    requires j < |out| && out[j].Tombstone?
    ensures out[j].message in TombstonesIn(out)
  {
    if j < |out| - 1 {
      TombstoneCounted(out[..|out| - 1], j);
    }
  }

  lemma {:induction false} FateKnown(ds: seq<Discarded>, fate: Fate, m: Message)
    requires m in OfFate(ds, fate)
    ensures m in Messages(ds)
  {
    var init := ds[..|ds| - 1];
    if m in OfFate(init, fate) {
      FateKnown(init, fate, m);
      var i: nat :| i < |init| && Messages(init)[i] == m;
      assert Messages(ds)[i] == m;
    } else {
      assert Messages(ds)[|ds| - 1] == m;
    }
  }

  lemma InUses(ms: seq<Message>, m: Message, id: Id)
    requires m in ms && id in UsesOf(m)
    ensures id in Uses(ms)
  {
    var k: nat :| k < |ms| && ms[k] == m;
    hide Uses;
    SplitAt(ms, k);
  }

  lemma BlockOnce(s: Stream, id: Id)
    requires Classified(s) && DistinctCalls(s) && id in s.blocks
    ensures id in UseIds(s.assistants) && multiset(s.blocks)[id] == 1
    ensures id !in Uses(Messages(s.discarded))
  {
    UseIdsAre(s.assistants);
    UsesConcat(Messages(s.discarded), s.assistants);
    hide Uses, Results, UseIds, Messages, TombstonesIn, OfFate;
    assert Uses(s.received)[id] <= 1;
  }

  lemma AddedOrNot(added: seq<Id>, blocks: seq<Id>, id: Id)
    requires added <= blocks && multiset(blocks)[id] == 1
    ensures id in blocks[|added|..] <==> id !in added
  {
    assert blocks == added + blocks[|added|..];
    assert multiset(blocks) == multiset(added) + multiset(blocks[|added|..]);
  }

  /** With distinct calls, a call in hand is not among the replies given up nor among the results. */
  lemma InHandOnce(cfg: Config, s: Stream, id: Id)
    requires Classified(s) && Served(cfg, s) && DistinctCalls(s) && id in Todo(s)
    ensures id in UseIds(s.assistants)
    ensures id !in Uses(Messages(s.discarded)) && id !in Results(s.results)
    ensures s.executor.Some? && id in s.blocks[|s.executor.value.added|..] ==> id !in Outstanding(s.executor.value)
  {
    TodoAreBlocks(cfg, s);
    hide Classified, DistinctCalls;
    BlockOnce(s, id);
    if s.executor.Some? {
      hide UseIds, Uses, Messages;
      InExecutorOnce(cfg, s, id);
    } else {
      assert Results([]) == multiset{};
    }
  }

  lemma InExecutorOnce(cfg: Config, s: Stream, id: Id)
    requires Served(cfg, s) && id in Todo(s) && multiset(s.blocks)[id] == 1 && s.executor.Some?
    ensures id !in Results(s.results)
    ensures id in s.blocks[|s.executor.value.added|..] ==> id !in Outstanding(s.executor.value)
  {
    hide Results, Outstanding;
    var ex := s.executor.value;
    AddedOrNot(ex.added, s.blocks, id);
    assert s.blocks == ex.added + s.blocks[|ex.added|..];
    assert multiset(ex.added)[id] <= 1;
    assert (Results(s.results) + Outstanding(ex))[id] == Results(s.results)[id] + Outstanding(ex)[id];
  }

  lemma ResultWhere(before: seq<Yield>, out: seq<Yield>, more: seq<Yield>, j: nat, id: Id)
    requires ResultAt(before + out + more, j, id) && |before| <= j
    ensures id in ResultsOut(out) || AnsweredIn(more, id)
  {
    hide ResultsOut;
    if j < |before| + |out| {
      assert ResultAt(out, j - |before|, id);
      ResultCounted(out, j - |before|, id);
    } else {
      assert ResultAt(more, j - |before| - |out|, id);
    }
  }

  lemma TombstoneWhere(before: seq<Yield>, out: seq<Yield>, more: seq<Yield>, j: nat)
    requires |before| <= j < |before + out + more| && (before + out + more)[j].Tombstone?
    ensures (before + out + more)[j].message in TombstonesIn(out) || !NoTombstone(more)
  {
    hide TombstonesIn;
    if j < |before| + |out| {
      TombstoneCounted(out, j - |before|);
    } else {
      assert more[j - |before| - |out|] in more;
    }
  }

  lemma NeverAnswered(before: seq<Yield>, out: seq<Yield>, more: seq<Yield>, k: nat, id: Id)
    requires id !in ResultsOut(out) && !AnsweredIn(more, id) && k < |out|
    ensures !AnsweredAfter(before + out + more, |before| + k, id)
  {
    hide ResultsOut, ResultAt, AnsweredIn;
    forall j: nat | |before| + k < j && ResultAt(before + out + more, j, id) ensures false {
      ResultWhere(before, out, more, j, id);
    }
  }

  lemma NeverWithdrawn(before: seq<Yield>, out: seq<Yield>, more: seq<Yield>, k: nat, m: Message)
    requires m !in TombstonesIn(out) && NoTombstone(more) && k < |out| && out[k] == Emit(m)
    ensures !WithdrawnAfter(before + out + more, |before| + k)
  {
    hide TombstonesIn, NoTombstone;
    var all := before + out + more;
    assert all[|before| + k] == Emit(m);
    forall j: nat | |before| + k < j < |all| && all[j] == Tombstone(m) ensures false {
      TombstoneWhere(before, out, more, j);
    }
  }

  /** With distinct calls, a retained reply was not withdrawn. */
  lemma RetainedNotWithdrawn(s: Stream, m: Message, id: Id)
    requires Classified(s) && id in UsesOf(m) && id !in Uses(Messages(s.discarded))
    ensures m !in TombstonesIn(s.out)
  {
    hide Uses, Messages, TombstonesIn, OfFate, UseIds;
    if m in TombstonesIn(s.out) {
      FateKnown(s.discarded, Withdrawn, m);
      InUses(Messages(s.discarded), m, id);
    }
  }

  /** Where a call in hand was yielded. */
  lemma InHandAt(cfg: Config, s: Stream, id: Id) returns (m: Message, k: nat)
    requires Classified(s) && Served(cfg, s) && Shown(s) && DistinctCalls(s) && id in Todo(s)
    ensures k < |s.out| && s.out[k] == Emit(m) && id in UsesOf(m)
    ensures m !in TombstonesIn(s.out) && id !in ResultsOut(s.out)
  {
    InHandOnce(cfg, s, id);
    UsedBy(s.assistants, id);
    m :| m in s.assistants && id in UsesOf(m);
    hide Uses, Results, UseIds, Outstanding, Messages, ResultsOut, TombstonesIn, Todo, Served, DistinctCalls;
    RetainedNotWithdrawn(s, m, id);
    hide Classified;
    assert Emit(m) in s.out;
    k :| k < |s.out| && s.out[k] == Emit(m);
  }

  /** A call in hand that the rest of the transcript does not answer stays unanswered. */
  lemma NotClosed(cfg: Config, before: seq<Yield>, s: Stream, more: seq<Yield>, id: Id)
    requires Classified(s) && Served(cfg, s) && Shown(s) && DistinctCalls(s)
    requires id in Todo(s) && !AnsweredIn(more, id) && NoTombstone(more)
    ensures !Complete(before + s.out + more)
  {
    var m, k := InHandAt(cfg, s, id);
    hide *;
    NeverAnswered(before, s.out, more, k, id);
    NeverWithdrawn(before, s.out, more, k, m);
    UnansweredAt(before + s.out + more, |before| + k, id);
  }

  lemma UnansweredAt(out: seq<Yield>, i: nat, id: Id)
    requires i < |out| && out[i].Emit? && id in UsesOf(out[i].message)
    requires !AnsweredAfter(out, i, id) && !WithdrawnAfter(out, i)
    ensures !Complete(out)
  {
    assert UseAt(out, i, id);
  }

  /** The transcript of a request, closed by `more`, is complete exactly when `more` answers whatever
      is still in hand. */
  lemma ClosedIff(cfg: Config, before: seq<Yield>, s: Stream, more: seq<Yield>)
    requires Complete(before) && Good(cfg, s) && Shown(s) && DistinctCalls(s)
    requires Quiet(more) && NoTombstone(more)
    ensures Complete(before + s.out + more) <==> forall id | id in Todo(s) :: AnsweredIn(more, id)
  {
    hide Todo, Complete, Quiet, Classified, Served, Shown, DistinctCalls, NoTombstone, AnsweredIn, Settled;
    if forall id | id in Todo(s) :: AnsweredIn(more, id) {
      ClosedIf(before, s, more);
    } else {
      var id :| id in Todo(s) && !AnsweredIn(more, id);
      NotClosed(cfg, before, s, more, id);
    }
  }

  // ---------------------------------------------------------------- one iteration

  /** Without the streaming executor: every call is answered exactly once or withdrawn. */
  ghost predicate Balanced(out: seq<Yield>) {
    UsesOut(out) == ResultsOut(out) + WithdrawnOut(out)
  }

  /** Yields that carry neither calls nor results. */
  predicate Bare(more: seq<Yield>) {
    forall y | y in more :: y.Signal? || (y.Emit? && UsesOf(y.message) == [] && ResultsOf(y.message) == [])
  }

  lemma BalancedConcat(a: seq<Yield>, b: seq<Yield>)
    requires Balanced(a) && Balanced(b)
    ensures Balanced(a + b)
  {
    OutConcat(a, b);
    hide UsesOut, ResultsOut, WithdrawnOut;
  }

  lemma {:induction false} BareCounts(more: seq<Yield>)
    requires Bare(more)
    ensures UsesOut(more) == ResultsOut(more) == WithdrawnOut(more) == multiset{}
  {
    if more != [] {
      assert more[|more| - 1] in more;
      BareCounts(more[..|more| - 1]);
    }
  }

  lemma BareAppended(out: seq<Yield>, more: seq<Yield>)
    requires Bare(more)
    ensures Complete(out) ==> Complete(out + more)
    ensures Balanced(out) ==> Balanced(out + more)
  {
    BareCounts(more);
    hide UsesOut, ResultsOut, WithdrawnOut;
    if Complete(out) {
      assert Complete(more);
      CompleteConcat(out, more);
    }
    if Balanced(out) {
      BalancedConcat(out, more);
    }
  }

  /** A well-paired history, yielded. */
  lemma PairedAppended(out: seq<Yield>, ms: seq<Message>)
    requires WellPaired(ms)
    ensures Complete(out) ==> Complete(out + EmitAll(ms))
    ensures Balanced(out) ==> Balanced(out + EmitAll(ms))
  {
    PairedIsComplete(ms);
    OutOfEmits(ms);
    assert Balanced(EmitAll(ms));
    hide Complete, Balanced, EmitAll, WellPaired;
    if Complete(out) {
      CompleteConcat(out, EmitAll(ms));
    }
    if Balanced(out) {
      BalancedConcat(out, EmitAll(ms));
    }
  }

  lemma PrepareKeeps(cfg: Config, st: Loop, env: Iteration)
    requires env.compaction.Some? ==> WellPaired(env.compaction.value.messages)
    ensures Complete(st.out) ==> Complete(Prepare(cfg, st, env).out)
    ensures Balanced(st.out) ==> Balanced(Prepare(cfg, st, env).out)
  {
    BareAppended(st.out, [Signal]);
    hide Complete, Balanced, WellPaired, EmitAll;
    if env.compaction.Some? {
      PairedAppended(st.out + [Signal], env.compaction.value.messages);
    }
  }

  lemma FinishYields(cfg: Config, st: Loop, env: Iteration, s: Stream)
    ensures var out := Finish(cfg, st, env, s).loop.out;
      out == st.out || out == st.out + EmitAll(Notes(env.hookNotes))
  {
    hide Sent, Notes, EmitAll, Last;
  }

  /** What a reply without tool calls can add to the transcript. */
  lemma RecoverYields(cfg: Config, st: Loop, env: Iteration, s: Stream)
    ensures var out := Recover(cfg, st, env, s).loop.out;
      || out == st.out
      || (env.compacted.Some? && out == st.out + EmitAll(env.compacted.value.messages))
      || (s.assistants != [] && out == st.out + [Emit(s.assistants[|s.assistants| - 1])])
      || out == st.out + EmitAll(Notes(env.hookNotes))
      || (s.assistants != []
          && out == st.out + [Emit(s.assistants[|s.assistants| - 1])] + EmitAll(Notes(env.hookNotes)))
  {
    hide Sent, Notes, EmitAll, Charge, IsTooLong, Finish;
    FinishYields(cfg, st, env, s);
    if s.assistants != [] {
      FinishYields(cfg, Yielding(st, [Emit(s.assistants[|s.assistants| - 1])]), env, s);
    }
  }

  lemma LastHasNoCalls(s: Stream)
    requires Classified(s) && !s.followUp && s.assistants != []
    ensures Bare([Emit(s.assistants[|s.assistants| - 1])])
  {
    var m := s.assistants[|s.assistants| - 1];
    assert m in s.assistants;
    assert UseIds(s.assistants) == UseIds(s.assistants[..|s.assistants| - 1]) + UsesOf(m);
  }

  lemma RecoverKeeps(cfg: Config, st: Loop, env: Iteration, s: Stream)
    requires Classified(s) && !s.followUp
    requires env.compacted.Some? ==> WellPaired(env.compacted.value.messages)
    ensures Complete(st.out) ==> Complete(Recover(cfg, st, env, s).loop.out)
    ensures Balanced(st.out) ==> Balanced(Recover(cfg, st, env, s).loop.out)
  {
    RecoverYields(cfg, st, env, s);
    var hooks := EmitAll(Notes(env.hookNotes));
    assert Bare(hooks);
    BareAppended(st.out, hooks);
    if s.assistants != [] {
      LastHasNoCalls(s);
      BareAppended(st.out, [Emit(s.assistants[|s.assistants| - 1])]);
      BareAppended(st.out + [Emit(s.assistants[|s.assistants| - 1])], hooks);
    }
    if env.compacted.Some? {
      PairedAppended(st.out, env.compacted.value.messages);
    }
    hide *;
  }

  lemma QuietConcat(a: seq<Yield>, b: seq<Yield>)
    requires Quiet(a) && Quiet(b)
    ensures Quiet(a + b)
  {
  }

  lemma AnsweredInMiddle(lead: seq<Yield>, more: seq<Yield>, tail: seq<Yield>, id: Id)
    requires AnsweredIn(more, id)
    ensures AnsweredIn(lead + more + tail, id)
  {
    var j: nat :| ResultAt(more, j, id);
    assert ResultAt(lead + more + tail, |lead| + j, id);
  }

  /** A request closed by answers to whatever is still in hand. */
  lemma CloseWith(before: seq<Yield>, s: Stream, lead: seq<Yield>, ids: seq<Id>, tail: seq<Yield>)
    requires Settled(s.out, s.assistants, Todo(s)) && Conserved(s) && Bare(lead) && Bare(tail)
    requires forall id | id in Todo(s) :: id in ids
    requires s.executor.None? ==> multiset(ids) == multiset(s.blocks)
    ensures var out := before + s.out + (lead + EmitAll(Answers(ids)) + tail);
      && (Complete(before) ==> Complete(out))
      && (s.executor.None? && Balanced(before) ==> Balanced(out))
  {
    var more := EmitAll(Answers(ids));
    AnswersOut(ids);
    if Complete(before) {
      QuietConcat(lead, more);
      QuietConcat(lead + more, tail);
      forall id | id in Todo(s) ensures AnsweredIn(lead + more + tail, id) {
        assert AnsweredIn(more, id);
        AnsweredInMiddle(lead, more, tail, id);
      }
      hide *;
      ClosedIf(before, s, lead + more + tail);
    }
    if s.executor.None? && Balanced(before) {
      BareCounts(lead);
      BareCounts(tail);
      OutConcat(lead, more);
      OutConcat(lead + more, tail);
      OutConcat(before, s.out);
      OutConcat(before + s.out, lead + more + tail);
      hide UsesOut, ResultsOut, WithdrawnOut, Answers, EmitAll, Quiet, Bare, Todo, Settled;
    }
  }

  /** The tools in hand are all answered when the loop stops or goes on to run them. */
  lemma RestAnswers(cfg: Config, s: Stream, env: Iteration)
    requires Good(cfg, s) && !s.aborted
    ensures forall id | id in Todo(s) :: id in RestOfTools(s, env)
    ensures s.executor.None? ==> multiset(RestOfTools(s, env)) == multiset(s.blocks)
  {
    hide Drain, Outstanding, Classified, Settled, Conserved, Results;
    if s.executor.Some? {
      DrainYieldsRest(s.executor.value, env.batches);
      assert s.blocks[|s.executor.value.added|..] == [];
      forall id | id in Todo(s) ensures id in RestOfTools(s, env) {
        assert id in multiset(RestOfTools(s, env));
      }
    } else {
      FreshOutstanding(s.blocks);
      DrainYieldsRest(Executor(s.blocks, {}), env.batches);
      forall id | id in Todo(s) ensures id in RestOfTools(s, env) {
        assert id in multiset(RestOfTools(s, env));
      }
    }
  }

  lemma AbortAnswered(cfg: Config, s: Stream, env: Iteration)
    requires Good(cfg, s) && (s.executor.Some? ==> s.executor.value.added == s.blocks)
    ensures forall id | id in Todo(s) :: id in AbortAnswers(s, env)
    ensures s.executor.None? ==> multiset(AbortAnswers(s, env)) == multiset(s.blocks)
  {
    hide Drain, Outstanding, UseIds, Settled, Conserved, Results, OfFate, TombstonesIn;
    if s.executor.Some? {
      DrainYieldsRest(s.executor.value, env.batches);
      assert s.blocks[|s.executor.value.added|..] == [];
      forall id | id in Todo(s) ensures id in AbortAnswers(s, env) {
        assert id in multiset(AbortAnswers(s, env));
      }
    }
  }

  predicate OnlyNotes(more: seq<Yield>) { forall y | y in more :: y == Emit(Note) }

  /** What a reply with tool calls adds to the transcript: all results that are still owed, and then
      messages that are neither calls nor results. */
  lemma ToolYields(cfg: Config, st: Loop, env: Iteration, s: Stream) returns (tail: seq<Yield>)
    ensures RunTools(cfg, st, env, s).loop.out == st.out + EmitAll(Answers(RestOfTools(s, env))) + tail
    ensures OnlyNotes(tail)
  {
    var limit := if cfg.maxTurns > 0 && st.turnCount + 1 > cfg.maxTurns then [Emit(Note)] else [];
    var done, notes := EmitAll(Answers(RestOfTools(s, env))), EmitAll(Notes(env.attachments));
    assert OnlyNotes(notes) && OnlyNotes(limit);
    hide RestOfTools, Answers, EmitAll, Notes, Sent, Continue;
    if env.abortInTools {
      tail := Interruption(env) + limit;
    } else if env.hookStopped {
      tail := [];
    } else if cfg.maxTurns > 0 && st.turnCount + 1 > cfg.maxTurns {
      tail := notes + limit;
      hide OnlyNotes;
      SeqAssoc(st.out + done, notes, limit);
    } else {
      tail := notes;
      NextTurnYields(cfg, st, env, s);
    }
  }

  lemma SeqAssoc(a: seq<Yield>, b: seq<Yield>, c: seq<Yield>)
    ensures a + b + c == a + (b + c)
  {
  }

  lemma NextTurnYields(cfg: Config, st: Loop, env: Iteration, s: Stream)
    requires RunTools(cfg, st, env, s).Next?
    ensures RunTools(cfg, st, env, s).loop.out
            == st.out + EmitAll(Answers(RestOfTools(s, env))) + EmitAll(Notes(env.attachments))
  {
    hide RestOfTools, Answers, EmitAll, Notes, Sent;
  }

  /** The two ways in which a call can be left without a result: the image-size failure, which answers
      nothing, and an abort with the streaming executor after which another reply still called tools. */
  ghost predicate CallDropped(cfg: Config, st: Loop, env: Iteration)
    requires AttemptsOk(cfg, env.attempts)
  {
    var s := Request(cfg, st, env);
    && !Preempted(cfg, env)
    && (|| (EndOf(env.attempts) == ImageFailure && Todo(s) != {})
        || (EndOf(env.attempts) == Finished && Aborted(s, env) && LateCalls(s)))
  }

  /** Tool calls that the executor was not given because the abort came first. */
  predicate LateCalls(s: Stream) {
    s.executor.Some? && s.executor.value.added != s.blocks
  }

  lemma FailOut(before: Loop, end: End, s: Stream)
    ensures Fail(before, end, s).loop.out
            == if end == ImageFailure then before.out + s.out + [Emit(Note)]
               else before.out + s.out + ([] + EmitAll(Answers(UseIds(s.assistants))) + [Emit(Note)])
  {
    hide EmitAll, Answers, UseIds;
    assert [] + EmitAll(Answers(UseIds(s.assistants))) == EmitAll(Answers(UseIds(s.assistants)));
  }

  lemma FailKeeps(before: Loop, end: End, s: Stream, cfg: Config)
    requires Good(cfg, s) && (end == ImageFailure ==> Todo(s) == {})
    ensures Complete(before.out) ==> Complete(Fail(before, end, s).loop.out)
    ensures end != ImageFailure && s.executor.None? && Balanced(before.out) ==> Balanced(Fail(before, end, s).loop.out)
  {
    FailOut(before, end, s);
    TodoAreBlocks(cfg, s);
    assert Bare([]) && Bare([Emit(Note)]);
    hide Todo, UseIds, Uses, Served, Complete, Balanced, Settled, Conserved, OfFate, TombstonesIn, Bare,
         Answers, EmitAll, Fail;
    if end == ImageFailure {
      if Complete(before.out) {
        QuietNote();
        ClosedIf(before.out, s, [Emit(Note)]);
      }
    } else {
      CloseWith(before.out, s, [], UseIds(s.assistants), [Emit(Note)]);
    }
  }

  lemma QuietNote()
    ensures Quiet([Emit(Note)]) && NoTombstone([Emit(Note)]) && forall id :: !AnsweredIn([Emit(Note)], id)
  {
  }

  lemma InterruptKeeps(before: Loop, env: Iteration, s: Stream, cfg: Config)
    requires Good(cfg, s) && !LateCalls(s)
    ensures Complete(before.out) ==> Complete(Interrupt(before, env, s).loop.out)
    ensures s.executor.None? && Balanced(before.out) ==> Balanced(Interrupt(before, env, s).loop.out)
  {
    AbortAnswered(cfg, s, env);
    assert Bare([]) && Bare(Interruption(env));
    var ids := AbortAnswers(s, env);
    hide *;
    CloseWith(before.out, s, [], ids, Interruption(env));
    InterruptOut(before, env, s);
  }

  lemma InterruptOut(before: Loop, env: Iteration, s: Stream)
    ensures Interrupt(before, env, s).loop.out
            == before.out + s.out + ([] + EmitAll(Answers(AbortAnswers(s, env))) + Interruption(env))
  {
    hide EmitAll, Answers, AbortAnswers, Interruption;
    var more := EmitAll(Answers(AbortAnswers(s, env))) + Interruption(env);
    SeqAssoc(before.out, s.out, more);
    assert [] + EmitAll(Answers(AbortAnswers(s, env))) == EmitAll(Answers(AbortAnswers(s, env)));
  }

  lemma ToolsKeep(cfg: Config, before: Loop, env: Iteration, s: Stream)
    requires Good(cfg, s) && !s.aborted
    ensures var out := RunTools(cfg, Replied(before, env, s), env, s).loop.out;
      && (Complete(before.out) ==> Complete(out))
      && (s.executor.None? && Balanced(before.out) ==> Balanced(out))
  {
    RestAnswers(cfg, s, env);
    var lead := if env.summary then [Signal] else [];
    var tail := ToolYields(cfg, Replied(before, env, s), env, s);
    var ids := RestOfTools(s, env);
    assert Bare(lead) && Bare(tail);
    CloseWith(before.out, s, lead, ids, tail);
    var out := RunTools(cfg, Replied(before, env, s), env, s).loop.out;
    hide Todo, Served, Complete, Balanced, Settled, Conserved, Classified, Bare, Answers, EmitAll, RestOfTools,
         RunTools;
    ToolsOut(before.out, s.out, lead, EmitAll(Answers(ids)), tail);
  }

  lemma ToolsOut(a: seq<Yield>, b: seq<Yield>, c: seq<Yield>, d: seq<Yield>, e: seq<Yield>)
    ensures a + (b + c) + d + e == a + b + (c + d + e)
  {
  }

  lemma ReplyKeeps(cfg: Config, before: Loop, env: Iteration, s: Stream)
    requires Good(cfg, s) && !s.followUp
    requires env.compacted.Some? ==> WellPaired(env.compacted.value.messages)
    ensures var out := Recover(cfg, Replied(before, env, s), env, s).loop.out;
      && (Complete(before.out) ==> Complete(out))
      && (s.executor.None? && Balanced(before.out) ==> Balanced(out))
  {
    var lead := if env.summary then [Signal] else [];
    NoCalls(s);
    TodoAreBlocks(cfg, s);
    assert Bare(lead) && Bare([]) && Answers([]) == [] && EmitAll([]) == [];
    RecoverKeeps(cfg, Replied(before, env, s), env, s);
    hide Todo, Served, Complete, Balanced, Settled, Conserved, Classified, Bare, Answers, EmitAll, Recover,
         WellPaired, Uses;
    CloseWith(before.out, s, lead, [], []);
    assert lead + [] + [] == lead;
    SeqAssoc(before.out, s.out, lead);
  }

  // ---------------------------------------------------------------- main results

  /** Main result: an iteration keeps the transcript complete, whichever way it ends, unless a call is
      dropped. */
  lemma IterationComplete(cfg: Config, st: Loop, env: Iteration)
    requires IterationOk(cfg, st, env) && !CallDropped(cfg, st, env)
    ensures Complete(st.out) ==> Complete(Iterate(cfg, st, env).loop.out)
  {
    PrepareKeeps(cfg, st, env);
    GoodRequest(cfg, st, env);
    var before, s := Prepare(cfg, st, env), Request(cfg, st, env);
    PreemptedKeeps(cfg, st, env);
    FollowUpGood(cfg, s);
    hide Complete, WellPaired, Prepare, Request, Recover, RunTools, Fail, Interrupt, LateCalls, Bare, Todo,
         Balanced, Preempted, Good;
    if Preempted(cfg, env) {
    } else if EndOf(env.attempts) != Finished {
      FailKeeps(before, EndOf(env.attempts), s, cfg);
    } else if Aborted(s, env) {
      InterruptKeeps(before, env, s, cfg);
    } else if s.followUp {
      ToolsKeep(cfg, before, env, s);
    } else {
      ReplyKeeps(cfg, before, env, s);
    }
  }

  lemma PreemptedKeeps(cfg: Config, st: Loop, env: Iteration)
    requires env.compaction.Some? ==> WellPaired(env.compaction.value.messages)
    ensures Complete(st.out) ==> Complete(Prepare(cfg, st, env).out + [Emit(Note)])
    ensures Balanced(st.out) ==> Balanced(Prepare(cfg, st, env).out + [Emit(Note)])
  {
    PrepareKeeps(cfg, st, env);
    assert Bare([Emit(Note)]);
    BareAppended(Prepare(cfg, st, env).out, [Emit(Note)]);
    hide *;
  }

  lemma FollowUpGood(cfg: Config, s: Stream)
    requires Good(cfg, s)
    ensures Classified(s) && Served(cfg, s)
  {
  }

  /** Main result: without the streaming executor every yielded call has exactly one result or was
      withdrawn, on every exit but the image-size failure. */
  lemma IterationBalanced(cfg: Config, st: Loop, env: Iteration)
    requires IterationOk(cfg, st, env) && !cfg.streamingTools && Balanced(st.out)
    requires Preempted(cfg, env) || EndOf(env.attempts) != ImageFailure
    ensures Balanced(Iterate(cfg, st, env).loop.out)
  {
    PrepareKeeps(cfg, st, env);
    GoodRequest(cfg, st, env);
    var before, s := Prepare(cfg, st, env), Request(cfg, st, env);
    PreemptedKeeps(cfg, st, env);
    FollowUpGood(cfg, s);
    assert s.executor.None?;
    hide Complete, WellPaired, Prepare, Request, Recover, RunTools, Fail, Interrupt, Bare, Todo, Balanced,
         Preempted, Good, Served, Classified;
    if Preempted(cfg, env) {
    } else if EndOf(env.attempts) != Finished {
      FailKeeps(before, EndOf(env.attempts), s, cfg);
    } else if Aborted(s, env) {
      InterruptKeeps(before, env, s, cfg);
    } else if s.followUp {
      ToolsKeep(cfg, before, env, s);
    } else {
      ReplyKeeps(cfg, before, env, s);
    }
  }

  /** With distinct calls nothing else drops a call: the transcript is complete exactly when none is. */
  lemma CompleteIff(cfg: Config, st: Loop, env: Iteration)
    requires IterationOk(cfg, st, env) && Complete(st.out) && DistinctCalls(Request(cfg, st, env))
    ensures Complete(Iterate(cfg, st, env).loop.out) <==> !CallDropped(cfg, st, env)
  {
    hide Complete, DistinctCalls;
    if CallDropped(cfg, st, env) {
      DroppedIncomplete(cfg, st, env);
    } else {
      IterationComplete(cfg, st, env);
    }
  }

  lemma DroppedIncomplete(cfg: Config, st: Loop, env: Iteration)
    requires IterationOk(cfg, st, env) && Complete(st.out) && DistinctCalls(Request(cfg, st, env))
    requires CallDropped(cfg, st, env)
    ensures !Complete(Iterate(cfg, st, env).loop.out)
  {
    PrepareKeeps(cfg, st, env);
    RequestShown(cfg, st, env);
    var before, s := Prepare(cfg, st, env), Request(cfg, st, env);
    hide Complete, WellPaired, Prepare, Request, Fail, Interrupt, LateCalls, Todo, Balanced, Good, DistinctCalls, Shown;
    if EndOf(env.attempts) == ImageFailure {
      ImageDrops(cfg, before, s);
    } else {
      LateDrops(cfg, before, env, s);
    }
  }

  lemma ImageDrops(cfg: Config, before: Loop, s: Stream)
    requires Good(cfg, s) && Shown(s) && DistinctCalls(s) && Complete(before.out) && Todo(s) != {}
    ensures !Complete(Fail(before, ImageFailure, s).loop.out)
  {
    FailOut(before, ImageFailure, s);
    QuietNote();
    hide Complete, Todo, Good, DistinctCalls, Shown, AnsweredIn, Fail;
    var id :| id in Todo(s);
    assert !AnsweredIn([Emit(Note)], id);
    ClosedIff(cfg, before.out, s, [Emit(Note)]);
  }

  /** A late call is one the executor cannot answer. */
  lemma LateCallExists(cfg: Config, s: Stream, env: Iteration) returns (id: Id)
    requires Good(cfg, s) && DistinctCalls(s) && LateCalls(s)
    ensures id in Todo(s) && id !in AbortAnswers(s, env)
  {
    var ex := s.executor.value;
    assert s.blocks == ex.added + s.blocks[|ex.added|..];
    id := s.blocks[|ex.added|];
    assert id in s.blocks[|ex.added|..];
    assert id in Todo(s);
    DrainYieldsRest(ex, env.batches);
    InHandOnce(cfg, s, id);
    hide Drain, Outstanding, DistinctCalls, Todo, UseIds;
    assert multiset(AbortAnswers(s, env))[id] == 0;
  }

  lemma OnlyAnswers(ids: seq<Id>, tail: seq<Yield>, id: Id)
    requires Bare(tail) && id !in ids
    ensures !AnsweredIn([] + EmitAll(Answers(ids)) + tail, id)
    ensures Quiet([] + EmitAll(Answers(ids)) + tail) && NoTombstone([] + EmitAll(Answers(ids)) + tail)
  {
    var more := [] + EmitAll(Answers(ids)) + tail;
    forall j: nat | j < |more|
      ensures !ResultAt(more, j, id) && !more[j].Tombstone? && (more[j].Emit? ==> UsesOf(more[j].message) == [])
    {
      if j < |ids| {
        assert more[j] == Emit(User([ids[j]]));
      } else {
        assert more[j] == tail[j - |ids|];
        assert more[j] in tail;
      }
    }
  }

  lemma LateDrops(cfg: Config, before: Loop, env: Iteration, s: Stream)
    requires Good(cfg, s) && Shown(s) && DistinctCalls(s) && Complete(before.out) && LateCalls(s)
    ensures !Complete(Interrupt(before, env, s).loop.out)
  {
    InterruptOut(before, env, s);
    var id := LateCallExists(cfg, s, env);
    assert Bare(Interruption(env));
    var ids, tail := AbortAnswers(s, env), Interruption(env);
    hide *;
    OnlyAnswers(ids, tail, id);
    ClosedIff(cfg, before.out, s, [] + EmitAll(Answers(ids)) + tail);
  }

  /** Main result: over a whole run the transcript stays complete at every loop head, and without the
      streaming executor balanced. */
  lemma {:induction false} TranscriptAtEveryHead(cfg: Config, st: Loop, envs: seq<Iteration>, st': Loop)
    requires Runs(cfg, st, envs, st') && Complete(st.out)
    ensures Complete(st'.out)
    ensures !cfg.streamingTools && Balanced(st.out) ==> Balanced(st'.out)
    decreases |envs|
  {
    hide Iterate, Complete, Balanced, IterationOk, CallDropped;
    if envs != [] {
      RunsOk(cfg, st, envs, st');
      ContinuesWithoutDrop(cfg, st, envs[0]);
      IterationComplete(cfg, st, envs[0]);
      if !cfg.streamingTools && Balanced(st.out) {
        IterationBalanced(cfg, st, envs[0]);
      }
      TranscriptAtEveryHead(cfg, Iterate(cfg, st, envs[0]).loop, envs[1..], st');
    }
  }

  lemma ContinuesWithoutDrop(cfg: Config, st: Loop, env: Iteration)
    requires AttemptsOk(cfg, env.attempts) && Iterate(cfg, st, env).Next?
    ensures !CallDropped(cfg, st, env) && EndOf(env.attempts) == Finished
  {
    hide Request, Prepare, Recover, RunTools;
  }

  /** The transcript of a whole run, up to and including the iteration that stops. */
  lemma RunTranscript(cfg: Config, messages: seq<Message>, override: Option<nat>, envs: seq<Iteration>,
        st: Loop, env: Iteration)
    requires Runs(cfg, Initial(messages, override), envs, st)
    requires AttemptsOk(cfg, env.attempts) && IterationOk(cfg, st, env) && Iterate(cfg, st, env).End?
    ensures !CallDropped(cfg, st, env) ==> Complete(Iterate(cfg, st, env).loop.out)
    ensures DistinctCalls(Request(cfg, st, env)) && CallDropped(cfg, st, env) ==>
              !Complete(Iterate(cfg, st, env).loop.out)
    ensures !cfg.streamingTools && Iterate(cfg, st, env).reason != ImageError ==>
              Balanced(Iterate(cfg, st, env).loop.out)
  {
    hide *;
    EmptyTranscript(messages, override);
    TranscriptAtEveryHead(cfg, Initial(messages, override), envs, st);
    if !CallDropped(cfg, st, env) {
      IterationComplete(cfg, st, env);
    } else if DistinctCalls(Request(cfg, st, env)) {
      DroppedIncomplete(cfg, st, env);
    }
    if !cfg.streamingTools && Iterate(cfg, st, env).reason != ImageError {
      StopsWithImageError(cfg, st, env);
      IterationBalanced(cfg, st, env);
    }
  }

  lemma EmptyTranscript(messages: seq<Message>, override: Option<nat>)
    ensures Complete(Initial(messages, override).out) && Balanced(Initial(messages, override).out)
  {
  }

  lemma StopsWithImageError(cfg: Config, st: Loop, env: Iteration)
    requires AttemptsOk(cfg, env.attempts) && Iterate(cfg, st, env).End?
    requires Iterate(cfg, st, env).reason != ImageError
    ensures Preempted(cfg, env) || EndOf(env.attempts) != ImageFailure
  {
    hide Request, Prepare, Recover, RunTools, Interrupt;
  }

  /** The abort signal is set and then one more reply with tool calls arrives. */
  predicate AbortThenCall(attempts: seq<Attempt>, m: Message) {
    && m.Assistant? && m.uses != [] && m.problem == NoProblem && !m.isApiError
    && attempts == [Attempt([AbortSignal, Reply(m, {})], Finished)]
  }

  lemma AbortThenCallStream(cfg: Config, media: bool, attempts: seq<Attempt>, m: Message)
    requires AbortThenCall(attempts, m) && cfg.streamingTools
    ensures AttemptsOk(cfg, attempts)
    ensures var s := RunAttempts(cfg, media, Start(cfg, false), attempts);
      s.aborted && s.received == [m] && LateCalls(s)
  {
    var a := attempts[0];
    assert a.items[..1] == [AbortSignal] && a.items[..1][..0] == [];
    var s0 := Start(cfg, false);
    assert s0.(fallback := false) == s0;
    var s1 := s0.(aborted := true);
    assert RunItems(cfg, media, s0, []) == s0;
    assert RunItems(cfg, media, s0, a.items[..1]) == s1;
    assert RunItems(cfg, media, s0, a.items) == StepItem(cfg, media, s1, a.items[1]);
  }

  /** The result that the streaming executor promises for every call is not given to a call that
      arrives after the abort: it is retained and shown, but the executor was never handed it. */
  lemma AbortThenCallDrops(cfg: Config, st: Loop, env: Iteration, m: Message)
    requires cfg.streamingTools && !st.aborted && Complete(st.out)
    requires AbortThenCall(env.attempts, m) && (forall id :: multiset(m.uses)[id] <= 1)
    requires IterationOk(cfg, st, env) && !Preempted(cfg, env)
    ensures Iterate(cfg, st, env).End? && Iterate(cfg, st, env).reason == AbortedStreaming
    ensures !Complete(Iterate(cfg, st, env).loop.out)
  {
    AbortThenCallStream(cfg, env.mediaRecovery, env.attempts, m);
    OneMessage(m);
    var s := Request(cfg, st, env);
    hide RunAttempts, Start, Complete, Uses, Todo, IterationOk, Preempted;
    assert DistinctCalls(s);
    assert CallDropped(cfg, st, env);
    DroppedIncomplete(cfg, st, env);
  }
}
