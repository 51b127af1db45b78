/** What holds of one request after any stream, with any mixture of mid-stream fallbacks, model
    fallbacks and aborts. */
module QueryStreamProofs {
  import opened Options
  import opened QueryMessages
  import opened QueryStream

  function Messages(ds: seq<Discarded>): seq<Message> {
    seq(|ds|, i requires 0 <= i < |ds| => ds[i].message)
  }

  /** The messages of one fate, in order. */
  function OfFate(ds: seq<Discarded>, fate: Fate): seq<Message> {
    if ds == [] then []
    else OfFate(ds[..|ds| - 1], fate) + if ds[|ds| - 1].fate == fate then [ds[|ds| - 1].message] else []
  }

  /** The tombstones of a transcript, in order. */
  function TombstonesIn(out: seq<Yield>): seq<Message> {
    if out == [] then []
    else TombstonesIn(out[..|out| - 1]) + if out[|out| - 1].Tombstone? then [out[|out| - 1].message] else []
  }

  /** The tools in hand are the calls of the retained replies, in order, and the loop goes on exactly
      when there are any. Every reply received was withdrawn, cleared or retained, in that order. */
  ghost predicate Classified(s: Stream) {
    && AllAssistant(s.assistants)
    && s.blocks == UseIds(s.assistants)
    && (s.followUp <==> s.blocks != [])
    && s.received == Messages(s.discarded) + s.assistants
    && TombstonesIn(s.out) == OfFate(s.discarded, Withdrawn)
  }

  /** Each tool given to the executor has yielded its result once or still owes it. */
  ghost predicate Served(cfg: Config, s: Stream) {
    && NoneAssistant(s.results)
    && (s.executor.Some? <==> cfg.streamingTools)
    && (s.executor.None? ==> s.results == [])
    && (s.executor.Some? ==>
          var ex := s.executor.value;
          && ExecutorOk(ex)
          && ex.added <= s.blocks
          && (!s.aborted ==> ex.added == s.blocks)
          && Results(s.results) + Outstanding(ex) == multiset(ex.added))
  }

  /** Tool calls of the retained replies that have no result yet. */
  function Todo(s: Stream): set<Id> {
    match s.executor
    case None => set id | id in s.blocks
    case Some(ex) =>
      (set id | id in Outstanding(ex))
      + (if |ex.added| <= |s.blocks| then set id | id in s.blocks[|ex.added|..] else {})
  }

  /** Without the streaming executor: what was called is answered, withdrawn or still retained. */
  ghost predicate Conserved(s: Stream) {
    s.executor.None? ==>
      UsesOut(s.out) == ResultsOut(s.out) + WithdrawnOut(s.out) + multiset(s.blocks)
  }

  ghost predicate Good(cfg: Config, s: Stream) {
    Classified(s) && Served(cfg, s) && Settled(s.out, s.assistants, Todo(s)) && Conserved(s)
  }

  // ---------------------------------------------------------------- small facts

  lemma {:induction false} OfFateConcat(a: seq<Discarded>, b: seq<Discarded>, fate: Fate)
    ensures OfFate(a + b, fate) == OfFate(a, fate) + OfFate(b, fate)
  {
    if b == [] {
      assert a + b == a;
    } else {
      assert (a + b)[..|a + b| - 1] == a + b[..|b| - 1];
      OfFateConcat(a, b[..|b| - 1], fate);
    }
  }

  lemma {:induction false} OfFateFated(ms: seq<Message>, fate: Fate, other: Fate)
    ensures OfFate(Fated(ms, fate), other) == if fate == other then ms else []
  {
    if ms != [] {
      var init := ms[..|ms| - 1];
      assert Fated(ms, fate)[..|ms| - 1] == Fated(init, fate);
      OfFateFated(init, fate, other);
      assert ms == init + [ms[|ms| - 1]];
    }
  }

  lemma {:induction false} TombstonesConcat(a: seq<Yield>, b: seq<Yield>)
    ensures TombstonesIn(a + b) == TombstonesIn(a) + TombstonesIn(b)
  {
    if b == [] {
      assert a + b == a;
    } else {
      assert (a + b)[..|a + b| - 1] == a + b[..|b| - 1];
      TombstonesConcat(a, b[..|b| - 1]);
    }
  }

  lemma {:induction false} TombstonesOfAll(ms: seq<Message>)
    ensures TombstonesIn(TombstoneAll(ms)) == ms
    ensures TombstonesIn(EmitAll(ms)) == []
  {
    if ms != [] {
      var init := ms[..|ms| - 1];
      assert TombstoneAll(ms)[..|ms| - 1] == TombstoneAll(init);
      assert EmitAll(ms)[..|ms| - 1] == EmitAll(init);
      TombstonesOfAll(init);
      assert ms == init + [ms[|ms| - 1]];
    }
  }

  lemma OneYield(y: Yield)
    ensures TombstonesIn([y]) == if y.Tombstone? then [y.message] else []
    ensures UsesOut([y]) == if y.Emit? then multiset(UsesOf(y.message)) else multiset{}
    ensures ResultsOut([y]) == if y.Emit? then multiset(ResultsOf(y.message)) else multiset{}
    ensures WithdrawnOut([y]) == if y.Tombstone? then multiset(UsesOf(y.message)) else multiset{}
  {
    assert [y][..0] == [];
  }

  lemma {:induction false} UseIdsAre(ms: seq<Message>)
    ensures multiset(UseIds(ms)) == Uses(ms)
  {
    if ms != [] {
      UseIdsAre(ms[..|ms| - 1]);
    }
  }

  lemma UseIdsNext(ms: seq<Message>, m: Message)
    ensures UseIds(ms + [m]) == UseIds(ms) + UsesOf(m)
  {
    assert (ms + [m])[..|ms|] == ms;
  }

  /** What yielding answers to the given tool calls adds to a transcript. */
  lemma AnswersCount(ids: seq<Id>)
    ensures TombstonesIn(EmitAll(Answers(ids))) == []
    ensures UsesOut(EmitAll(Answers(ids))) == multiset{}
    ensures ResultsOut(EmitAll(Answers(ids))) == multiset(ids)
    ensures WithdrawnOut(EmitAll(Answers(ids))) == multiset{}
  {
    OutOfEmits(Answers(ids));
    TombstonesOfAll(Answers(ids));
    ResultsOfAnswers(ids);
    OnlyResults(Answers(ids));
    hide UsesOut, ResultsOut, WithdrawnOut, TombstonesIn, Uses, Results;
  }

  lemma AnswersShow(ids: seq<Id>)
    ensures Quiet(EmitAll(Answers(ids)))
    ensures forall id | id in ids :: exists j: nat :: ResultAt(EmitAll(Answers(ids)), j, id)
  {
    var out := EmitAll(Answers(ids));
    forall id | id in ids ensures exists j: nat :: ResultAt(out, j, id) {
      var j: nat :| j < |ids| && ids[j] == id;
      assert out[j] == Emit(User([id]));
      assert ResultAt(out, j, id);
    }
  }

  lemma AnswersOut(ids: seq<Id>)
    ensures Quiet(EmitAll(Answers(ids)))
    ensures forall id | id in ids :: exists j: nat :: ResultAt(EmitAll(Answers(ids)), j, id)
    ensures TombstonesIn(EmitAll(Answers(ids))) == []
    ensures UsesOut(EmitAll(Answers(ids))) == multiset{}
    ensures ResultsOut(EmitAll(Answers(ids))) == multiset(ids)
    ensures WithdrawnOut(EmitAll(Answers(ids))) == multiset{}
  {
    hide *;
    AnswersCount(ids);
    AnswersShow(ids);
  }

  // ---------------------------------------------------------------- giving up

  lemma GiveUpClassified(cfg: Config, s: Stream, fate: Fate, out: seq<Yield>)
    requires Classified(s)
    requires TombstonesIn(out) == TombstonesIn(s.out) + if fate == Withdrawn then s.assistants else []
    ensures Classified(GiveUp(cfg, s.(out := out), fate))
  {
    OfFateConcat(s.discarded, Fated(s.assistants, fate), Withdrawn);
    OfFateFated(s.assistants, fate, Withdrawn);
    hide OfFate, TombstonesIn, UseIds;
    var d := GiveUp(cfg, s.(out := out), fate).discarded;
    assert Messages(d) == Messages(s.discarded) + s.assistants;
    assert Messages(d) + [] == Messages(d);
    EmptyUseIds();
  }

  lemma EmptyUseIds()
    ensures UseIds([]) == []
  {
  }

  lemma GiveUpServed(cfg: Config, s: Stream, fate: Fate)
    ensures Served(cfg, GiveUp(cfg, s, fate))
  {
    assert OutstandingUpTo(Executor([], {}), 0) == multiset{};
  }

  lemma WithdrawGood(cfg: Config, s: Stream)
    requires Good(cfg, s)
    ensures Good(cfg, Withdraw(cfg, s))
  {
    if s.fallback {
      var out := s.out + TombstoneAll(s.assistants);
      TombstonesConcat(s.out, TombstoneAll(s.assistants));
      TombstonesOfAll(s.assistants);
      GiveUpClassified(cfg, s, Withdrawn, out);
      GiveUpServed(cfg, s.(out := out), Withdrawn);
      SettledTombstones(s.out, s.assistants, Todo(s));
      OutConcat(s.out, TombstoneAll(s.assistants));
      OutOfTombstones(s.assistants);
      UseIdsAre(s.assistants);
      var w := Withdraw(cfg, s);
      assert Settled(w.out, w.assistants, Todo(w));
      assert multiset(w.blocks) == multiset{};
    }
  }

  lemma SwitchGood(cfg: Config, s: Stream)
    requires Good(cfg, s)
    ensures Good(cfg, SwitchModel(cfg, s))
  {
    hide TombstonesIn, OfFate, UsesOut, ResultsOut, WithdrawnOut, Answers, UseIds, Quiet, ResultAt;
    var ids := UseIds(s.assistants);
    var missing := MissingResults(ids);
    AnswersOut(ids);
    SignalIsQuiet();
    TombstonesConcat(s.out, missing);
    TombstonesConcat(s.out + missing, [Signal]);
    OneYield(Signal);
    GiveUpClassified(cfg, s, ClearedByFallback, s.out + missing + [Signal]);
    GiveUpServed(cfg, s.(out := s.out + missing + [Signal]), ClearedByFallback);
    TodoAreBlocks(cfg, s);
    SettledQuiet(s.out, missing, s.assistants, Todo(s), {});
    SettledQuiet(s.out + missing, [Signal], s.assistants, {}, {});
    var w := SwitchModel(cfg, s);
    NothingOpen(w.out, s.assistants);
    OutConcat(s.out, missing);
    OutConcat(s.out + missing, [Signal]);
    assert multiset(w.blocks) == multiset{};
  }

  lemma SignalIsQuiet()
    ensures Quiet([Signal])
  {
  }

  lemma NothingOpen(out: seq<Yield>, open: seq<Message>)
    requires Settled(out, open, {})
    ensures forall todo :: Settled(out, [], todo)
  {
  }

  lemma TodoAreBlocks(cfg: Config, s: Stream)
    requires Served(cfg, s)
    ensures forall id | id in Todo(s) :: id in s.blocks
  {
    if s.executor.Some? {
      var ex := s.executor.value;
      forall id | id in Todo(s) ensures id in s.blocks {
        if id in Outstanding(ex) {
          assert multiset(ex.added)[id] > 0;
        }
      }
    }
  }

  // ---------------------------------------------------------------- accepting a reply

  lemma AcceptClassified(cfg: Config, media: bool, s: Stream, m: Message)
    requires Classified(s) && m.Assistant?
    ensures Classified(Accept(cfg, media, s, m))
  {
    hide Withheld, TombstonesIn, UseIds, OfFate;
    var w := Accept(cfg, media, s, m);
    UseIdsNext(s.assistants, m);
    TombstonesConcat(s.out, [Emit(m)]);
    OneYield(Emit(m));
    assert w.received == Messages(s.discarded) + (s.assistants + [m]);
    assert TombstonesIn(s.out) + [] == TombstonesIn(s.out);
  }

  lemma AcceptServed(cfg: Config, media: bool, s: Stream, m: Message)
    requires Served(cfg, s) && m.Assistant?
    ensures Served(cfg, Accept(cfg, media, s, m))
  {
    hide Withheld, Outstanding, Results;
    if s.executor.Some? && !s.aborted {
      AddedIsOutstanding(s.executor.value, m.uses);
    }
  }

  /** A new reply keeps what is owed and adds its own calls. */
  lemma AcceptTodo(cfg: Config, media: bool, s: Stream, m: Message)
    requires Served(cfg, s) && m.Assistant?
    ensures Todo(s) <= Todo(Accept(cfg, media, s, m))
    ensures forall id | id in m.uses :: id in Todo(Accept(cfg, media, s, m))
  {
    hide Withheld, Outstanding, Results;
    var w := Accept(cfg, media, s, m);
    if s.executor.Some? {
      var ex := s.executor.value;
      if !s.aborted {
        AddedIsOutstanding(ex, m.uses);
        AcceptExecutor(cfg, media, s, m);
      } else {
        assert w.blocks[|ex.added|..] == s.blocks[|ex.added|..] + m.uses;
      }
    }
  }

  lemma AcceptExecutor(cfg: Config, media: bool, s: Stream, m: Message)
    requires Served(cfg, s) && m.Assistant? && s.executor.Some? && !s.aborted
    ensures var w := Accept(cfg, media, s, m);
      && w.executor == Some(s.executor.value.(added := s.executor.value.added + m.uses))
      && s.blocks[|s.executor.value.added|..] == []
      && |w.executor.value.added| == |w.blocks|
  {
    hide Withheld;
  }

  lemma AcceptSettled(cfg: Config, media: bool, s: Stream, m: Message)
    requires Served(cfg, s) && Settled(s.out, s.assistants, Todo(s)) && m.Assistant?
    ensures var w := Accept(cfg, media, s, m); Settled(w.out, w.assistants, Todo(w))
  {
    AcceptTodo(cfg, media, s, m);
    var w := Accept(cfg, media, s, m);
    var todo, todo' := Todo(s), Todo(w);
    hide Todo, Served;
    if Withheld(cfg, media, m) {
      SettledWiden(s.out, s.assistants, w.assistants, todo, todo');
    } else {
      hide Withheld;
      SettledEmit(s.out, m, s.assistants, todo, todo');
    }
  }

  lemma AcceptConserved(cfg: Config, media: bool, s: Stream, m: Message)
    requires Conserved(s) && ItemOk(Reply(m, {}))
    ensures Conserved(Accept(cfg, media, s, m))
  {
    if s.executor.None? {
      ConservedNext(s.out, s.blocks, m);
      if Withheld(cfg, media, m) {
        WithheldHasNoUses(cfg, media, m);
        assert s.blocks + m.uses == s.blocks;
      }
      hide Withheld, UsesOut, ResultsOut, WithdrawnOut, ItemOk;
    }
  }

  lemma ConservedNext(out: seq<Yield>, blocks: seq<Id>, m: Message)
    requires m.Assistant? && UsesOut(out) == ResultsOut(out) + WithdrawnOut(out) + multiset(blocks)
    ensures var o := out + [Emit(m)];
      UsesOut(o) == ResultsOut(o) + WithdrawnOut(o) + multiset(blocks + m.uses)
  {
    OutConcat(out, [Emit(m)]);
    OneYield(Emit(m));
    hide UsesOut, ResultsOut, WithdrawnOut;
    assert multiset(blocks + m.uses) == multiset(blocks) + multiset(m.uses);
  }

  lemma WithheldHasNoUses(cfg: Config, media: bool, m: Message)
    requires ItemOk(Reply(m, {})) && Withheld(cfg, media, m)
    ensures m.uses == []
  {
  }

  lemma AcceptGood(cfg: Config, media: bool, s: Stream, m: Message)
    requires Good(cfg, s) && ItemOk(Reply(m, {}))
    ensures Good(cfg, Accept(cfg, media, s, m))
  {
    hide Withheld, Todo, Served, Classified, Conserved, Settled, Accept;
    AcceptClassified(cfg, media, s, m);
    AcceptServed(cfg, media, s, m);
    AcceptSettled(cfg, media, s, m);
    AcceptConserved(cfg, media, s, m);
  }

  lemma SettledWiden(out: seq<Yield>, open: seq<Message>, open': seq<Message>, todo: set<Id>, todo': set<Id>)
    requires Settled(out, open, todo) && todo <= todo' && forall m | m in open :: m in open'
    ensures Settled(out, open', todo')
  {
  }

  // ---------------------------------------------------------------- collecting results

  lemma CollectServed(cfg: Config, s: Stream, ready: set<nat>)
    requires Served(cfg, s)
    ensures Served(cfg, Collect(s, ready))
  {
    hide Results, Outstanding, NewResults, Answers;
    if s.executor.Some? && !s.aborted {
      var ex := s.executor.value;
      YieldedOnce(ex, ready);
      ResultsOfAnswers(NewResults(ex, ready));
      UsesConcat(s.results, Answers(NewResults(ex, ready)));
    }
  }

  lemma CollectClassified(s: Stream, ready: set<nat>)
    requires Classified(s)
    ensures Classified(Collect(s, ready))
  {
    if s.executor.Some? && !s.aborted {
      var ids := NewResults(s.executor.value, ready);
      AnswersOut(ids);
      TombstonesConcat(s.out, EmitAll(Answers(ids)));
      hide TombstonesIn, OfFate, UseIds;
      assert TombstonesIn(s.out) + [] == TombstonesIn(s.out);
    }
  }

  /** What is no longer owed has just been yielded. */
  lemma CollectTodo(cfg: Config, s: Stream, ready: set<nat>, id: Id)
    requires Served(cfg, s) && s.executor.Some? && !s.aborted
    requires id in Todo(s) && id !in Todo(Collect(s, ready))
    ensures id in NewResults(s.executor.value, ready)
  {
    hide Outstanding, Results, NewResults;
    var ids := NewResults(s.executor.value, ready);
    YieldedOnce(s.executor.value, ready);
    assert id in multiset(ids);
  }

  lemma CollectSettled(cfg: Config, s: Stream, ready: set<nat>)
    requires Served(cfg, s) && Settled(s.out, s.assistants, Todo(s))
    ensures var w := Collect(s, ready); Settled(w.out, w.assistants, Todo(w))
  {
    hide NewResults, Settled, Todo;
    if s.executor.Some? && !s.aborted {
      var w := Collect(s, ready);
      var ids := NewResults(s.executor.value, ready);
      AnswersShow(ids);
      forall id | id in Todo(s) && id !in Todo(w) ensures id in ids {
        CollectTodo(cfg, s, ready, id);
      }
      hide Served, Quiet, ResultAt;
      SettledQuiet(s.out, EmitAll(Answers(ids)), s.assistants, Todo(s), Todo(w));
    }
  }

  lemma CollectGood(cfg: Config, s: Stream, ready: set<nat>)
    requires Good(cfg, s)
    ensures Good(cfg, Collect(s, ready))
  {
    CollectServed(cfg, s, ready);
    CollectClassified(s, ready);
    CollectSettled(cfg, s, ready);
    hide Served, Classified, Settled, Todo;
  }

  // ---------------------------------------------------------------- whole requests

  lemma StepGood(cfg: Config, media: bool, s: Stream, item: Item)
    requires Good(cfg, s) && ItemOk(item)
    ensures Good(cfg, StepItem(cfg, media, s, item))
  {
    match item
    case AbortSignal =>
    case FallbackSignal =>
    case Reply(m, ready) =>
      hide Good;
      WithdrawGood(cfg, s);
      AcceptGood(cfg, media, Withdraw(cfg, s), m);
      CollectGood(cfg, Accept(cfg, media, Withdraw(cfg, s), m), ready);
    case Other(ready) =>
      WithdrawGood(cfg, s);
      SignalGood(cfg, Withdraw(cfg, s));
      hide Good;
      var w := Withdraw(cfg, s);
      CollectGood(cfg, w.(out := w.out + [Signal]), ready);
  }

  lemma SignalGood(cfg: Config, s: Stream)
    requires Good(cfg, s)
    ensures Good(cfg, s.(out := s.out + [Signal]))
  {
    SignalOut(s.out);
    var todo := Todo(s);
    hide UsesOut, ResultsOut, WithdrawnOut, TombstonesIn, UseIds, OfFate, Outstanding, Results, Quiet, Todo, Settled;
    SettledQuiet(s.out, [Signal], s.assistants, todo, todo);
    TodoIgnoresOut(s, s.out + [Signal]);
  }

  lemma TodoIgnoresOut(s: Stream, out: seq<Yield>)
    ensures Todo(s.(out := out)) == Todo(s)
  {
    hide Outstanding;
  }

  lemma SignalOut(out: seq<Yield>)
    ensures UsesOut(out + [Signal]) == UsesOut(out) && ResultsOut(out + [Signal]) == ResultsOut(out)
    ensures WithdrawnOut(out + [Signal]) == WithdrawnOut(out)
    ensures TombstonesIn(out + [Signal]) == TombstonesIn(out) && Quiet([Signal])
  {
    OutConcat(out, [Signal]);
    TombstonesConcat(out, [Signal]);
    OneYield(Signal);
    hide UsesOut, ResultsOut, WithdrawnOut, TombstonesIn;
    assert TombstonesIn(out) + [] == TombstonesIn(out);
  }

  lemma {:induction false} ItemsGood(cfg: Config, media: bool, s: Stream, items: seq<Item>)
    requires Good(cfg, s) && ItemsOk(items)
    ensures Good(cfg, RunItems(cfg, media, s, items))
  {
    hide Good, StepItem;
    if items != [] {
      ItemsGood(cfg, media, s, items[..|items| - 1]);
      StepGood(cfg, media, RunItems(cfg, media, s, items[..|items| - 1]), items[|items| - 1]);
    }
  }

  lemma StartGood(cfg: Config, aborted: bool)
    ensures Good(cfg, Start(cfg, aborted))
  {
    assert OutstandingUpTo(Executor([], {}), 0) == multiset{};
  }

  lemma FlagGood(cfg: Config, s: Stream)
    requires Good(cfg, s)
    ensures Good(cfg, s.(fallback := false))
  {
    hide Settled, UsesOut, ResultsOut, WithdrawnOut, TombstonesIn, UseIds, OfFate, Outstanding, Results;
  }

  lemma {:induction false} RetriedGood(cfg: Config, media: bool, s: Stream, attempts: seq<Attempt>, n: nat)
    requires Good(cfg, s) && n <= |attempts| && forall k | 0 <= k < n :: ItemsOk(attempts[k].items)
    ensures Good(cfg, RunRetried(cfg, media, s, attempts, n))
  {
    hide Good, RunItems, SwitchModel;
    if n > 0 {
      RetriedGood(cfg, media, s, attempts, n - 1);
      var before := RunRetried(cfg, media, s, attempts, n - 1);
      FlagGood(cfg, before);
      ItemsGood(cfg, media, before.(fallback := false), attempts[n - 1].items);
      SwitchGood(cfg, RunItems(cfg, media, before.(fallback := false), attempts[n - 1].items));
    }
  }

  /** Main result: whatever was streamed, the request ends in a classified, served, settled and
      conserved state. */
  lemma AttemptsGood(cfg: Config, media: bool, aborted: bool, attempts: seq<Attempt>)
    requires AttemptsOk(cfg, attempts)
    ensures Good(cfg, RunAttempts(cfg, media, Start(cfg, aborted), attempts))
  {
    hide Good, RunItems, RunRetried, Start;
    var n := |attempts| - 1;
    StartGood(cfg, aborted);
    RetriedGood(cfg, media, Start(cfg, aborted), attempts, n);
    var before := RunRetried(cfg, media, Start(cfg, aborted), attempts, n);
    FlagGood(cfg, before);
    ItemsGood(cfg, media, before.(fallback := false), attempts[n].items);
  }
}
