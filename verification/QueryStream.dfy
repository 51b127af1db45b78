/** One request of the agentic loop: the attempts, the streamed replies, what is yielded, withheld,
    withdrawn and retained, and the tools started while the reply streams (source/src/query.ts). */
module QueryStream {
  import opened Options
  import opened QueryMessages

  /** Build-time features and parameters that do not change while the loop runs. */
  datatype Config = Config(
    streamingTools: bool,
    hasFallbackModel: bool,
    reactive: bool,
    collapse: bool,
    tokenBudget: bool,
    forked: bool,
    maxTurns: nat,
    taskBudget: Option<nat>)

  // ---------------------------------------------------------------- the tool executor

  /** The streaming tool executor: the tools it was given and the positions already yielded. */
  datatype Executor = Executor(added: seq<Id>, yielded: set<nat>)

  predicate ExecutorOk(ex: Executor) {
    forall p | p in ex.yielded :: p < |ex.added|
  }

  /** The tools whose results are ready and not yet yielded, in the order they were added. */
  function NewResults(ex: Executor, ready: set<nat>): seq<Id> {
    NewResultsUpTo(ex, ready, |ex.added|)
  }

  function NewResultsUpTo(ex: Executor, ready: set<nat>, n: nat): seq<Id>
    requires n <= |ex.added|
  {
    if n == 0 then []
    else NewResultsUpTo(ex, ready, n - 1)
         + if n - 1 in ready && n - 1 !in ex.yielded then [ex.added[n - 1]] else []
  }

  function MarkYielded(ex: Executor, ready: set<nat>): Executor {
    ex.(yielded := ex.yielded + set p | p in ready && p < |ex.added|)
  }

  /** Tools that were added and have not yielded a result yet. */
  function Outstanding(ex: Executor): multiset<Id> {
    OutstandingUpTo(ex, |ex.added|)
  }

  function OutstandingUpTo(ex: Executor, n: nat): multiset<Id>
    requires n <= |ex.added|
  {
    if n == 0 then multiset{}
    else OutstandingUpTo(ex, n - 1) + if n - 1 in ex.yielded then multiset{} else multiset{ex.added[n - 1]}
  }

  function Below(n: nat): (ps: set<nat>)
    ensures forall p: nat :: p in ps <==> p < n
  {
    if n == 0 then {} else Below(n - 1) + {n - 1}
  }

  function Positions(ex: Executor): set<nat> {
    Below(|ex.added|)
  }

  /** The rest of the results: batches as they complete, then whatever is left. */
  function Drain(ex: Executor, batches: seq<set<nat>>): seq<Id>
    decreases |batches|
  {
    if batches == [] then NewResults(ex, Positions(ex))
    else NewResults(ex, batches[0]) + Drain(MarkYielded(ex, batches[0]), batches[1..])
  }

  lemma {:induction false} YieldedUpTo(ex: Executor, done: Executor, ready: set<nat>, n: nat)
    requires n <= |ex.added| && done.added == ex.added
    requires forall p: nat | p < n :: p in done.yielded <==> p in ex.yielded || p in ready
    ensures OutstandingUpTo(ex, n) == OutstandingUpTo(done, n) + multiset(NewResultsUpTo(ex, ready, n))
  {
    if n > 0 {
      YieldedUpTo(ex, done, ready, n - 1);
      Snoc(NewResultsUpTo(ex, ready, n - 1), ex.added[n - 1]);
    }
  }

  lemma Snoc(ids: seq<Id>, id: Id)
    ensures multiset(ids + [id]) == multiset(ids) + multiset{id} && ids + [] == ids
  {
  }

  /** A result that is yielded is no longer outstanding, and nothing else changes. */
  lemma YieldedOnce(ex: Executor, ready: set<nat>)
    ensures Outstanding(ex) == Outstanding(MarkYielded(ex, ready)) + multiset(NewResults(ex, ready))
  {
    YieldedUpTo(ex, MarkYielded(ex, ready), ready, |ex.added|);
  }

  lemma {:induction false} NothingLeft(ex: Executor, n: nat)
    requires n <= |ex.added| && forall p | 0 <= p < n :: p in ex.yielded
    ensures OutstandingUpTo(ex, n) == multiset{}
  {
    if n > 0 {
      NothingLeft(ex, n - 1);
    }
  }

  /** Draining yields exactly one result for each tool that has none yet. */
  lemma {:induction false} DrainYieldsRest(ex: Executor, batches: seq<set<nat>>)
    ensures multiset(Drain(ex, batches)) == Outstanding(ex)
    decreases |batches|
  {
    if batches == [] {
      YieldedOnce(ex, Positions(ex));
      var done := MarkYielded(ex, Positions(ex));
      NothingLeft(done, |done.added|);
    } else {
      YieldedOnce(ex, batches[0]);
      DrainYieldsRest(MarkYielded(ex, batches[0]), batches[1..]);
    }
  }

  lemma {:induction false} AddedUpTo(ex: Executor, more: seq<Id>, n: nat)
    requires ExecutorOk(ex) && |ex.added| <= n <= |ex.added + more|
    ensures OutstandingUpTo(ex.(added := ex.added + more), n) == Outstanding(ex) + multiset(more[..n - |ex.added|])
    decreases n
  {
    var big := ex.(added := ex.added + more);
    if n == |ex.added| {
      SamePrefix(ex, more, n);
    } else {
      AddedUpTo(ex, more, n - 1);
      assert more[..n - |ex.added|] == more[..n - 1 - |ex.added|] + [big.added[n - 1]];
    }
  }

  lemma {:induction false} SamePrefix(ex: Executor, more: seq<Id>, n: nat)
    requires n <= |ex.added|
    ensures OutstandingUpTo(ex.(added := ex.added + more), n) == OutstandingUpTo(ex, n)
  {
    if n > 0 {
      SamePrefix(ex, more, n - 1);
    }
  }

  lemma AddedIsOutstanding(ex: Executor, more: seq<Id>)
    requires ExecutorOk(ex)
    ensures Outstanding(ex.(added := ex.added + more)) == Outstanding(ex) + multiset(more)
  {
    AddedUpTo(ex, more, |ex.added + more|);
    assert more[..|more|] == more;
  }

  function Answers(ids: seq<Id>): seq<Message> {
    seq(|ids|, i requires 0 <= i < |ids| => User([ids[i]]))
  }

  lemma {:induction false} ResultsOfAnswers(ids: seq<Id>)
    ensures Results(Answers(ids)) == multiset(ids) && NoneAssistant(Answers(ids))
  {
    if ids != [] {
      var init := ids[..|ids| - 1];
      assert Answers(ids)[..|ids| - 1] == Answers(init);
      ResultsOfAnswers(init);
      assert ids == init + [ids[|ids| - 1]];
      OneMessage(User([ids[|ids| - 1]]));
    }
  }

  // ---------------------------------------------------------------- one request

  /** What happens while a reply streams. `ready` are the tools whose results are ready at that moment. */
  datatype Item =
    | AbortSignal
    | FallbackSignal
    | Reply(message: Message, ready: set<nat>)
    | Other(ready: set<nat>)

  datatype End = Finished | ModelFallback | ImageFailure | OtherFailure

  datatype Attempt = Attempt(items: seq<Item>, end: End)

  datatype Fate = Withdrawn | ClearedByFallback

  datatype Discarded = Discarded(message: Message, fate: Fate)

  /** The local variables of the request. `received` and `discarded` record its history. */
  datatype Stream = Stream(
    assistants: seq<Message>,
    results: seq<Message>,
    blocks: seq<Id>,
    followUp: bool,
    executor: Option<Executor>,
    aborted: bool,
    fallback: bool,
    out: seq<Yield>,
    received: seq<Message>,
    discarded: seq<Discarded>)

  function NewExecutor(cfg: Config): Option<Executor> {
    if cfg.streamingTools then Some(Executor([], {})) else None
  }

  function Start(cfg: Config, aborted: bool): Stream {
    Stream([], [], [], false, NewExecutor(cfg), aborted, false, [], [], [])
  }

  predicate IsTooLong(m: Message) {
    m.Assistant? && m.isApiError && m.problem == PromptTooLong
  }

  /** Errors the stream keeps back until it is known whether the loop can recover from them. */
  predicate Withheld(cfg: Config, mediaRecovery: bool, m: Message) {
    m.Assistant? &&
    (|| (cfg.collapse && IsTooLong(m))
     || (cfg.reactive && IsTooLong(m))
     || (mediaRecovery && cfg.reactive && m.problem == MediaSize)
     || m.problem == MaxOutputTokens)
  }

  function Fated(ms: seq<Message>, fate: Fate): seq<Discarded> {
    seq(|ms|, i requires 0 <= i < |ms| => Discarded(ms[i], fate))
  }

  /** The replies so far are given up and everything derived from them is dropped. */
  function GiveUp(cfg: Config, s: Stream, fate: Fate): Stream {
    s.(assistants := [], results := [], blocks := [], followUp := false, executor := NewExecutor(cfg),
       discarded := s.discarded + Fated(s.assistants, fate))
  }

  /** Once the fallback has been signalled every message gives up the replies before it. */
  function Withdraw(cfg: Config, s: Stream): Stream {
    if s.fallback then GiveUp(cfg, s.(out := s.out + TombstoneAll(s.assistants)), Withdrawn) else s
  }

  function Accept(cfg: Config, mediaRecovery: bool, s: Stream, m: Message): Stream
    requires m.Assistant?
  {
    var s1 := if Withheld(cfg, mediaRecovery, m) then s else s.(out := s.out + [Emit(m)]);
    s1.(assistants := s.assistants + [m],
        received := s.received + [m],
        blocks := s.blocks + m.uses,
        followUp := s.followUp || m.uses != [],
        executor := if s.executor.Some? && !s.aborted
                    then Some(s.executor.value.(added := s.executor.value.added + m.uses))
                    else s.executor)
  }

  function Collect(s: Stream, ready: set<nat>): Stream {
    if s.executor.Some? && !s.aborted then
      var done := Answers(NewResults(s.executor.value, ready));
      s.(out := s.out + EmitAll(done), results := s.results + done,
         executor := Some(MarkYielded(s.executor.value, ready)))
    else s
  }

  predicate ItemOk(item: Item) {
    item.Reply? ==>
      && item.message.Assistant?
      && (item.message.isApiError || item.message.problem != NoProblem ==> item.message.uses == [])
  }

  function StepItem(cfg: Config, mediaRecovery: bool, s: Stream, item: Item): Stream
    requires ItemOk(item)
  {
    match item
    case AbortSignal => s.(aborted := true)
    case FallbackSignal => s.(fallback := true)
    case Reply(m, ready) => Collect(Accept(cfg, mediaRecovery, Withdraw(cfg, s), m), ready)
    case Other(ready) =>
      var w := Withdraw(cfg, s);
      Collect(w.(out := w.out + [Signal]), ready)
  }

  predicate ItemsOk(items: seq<Item>) { forall i | i in items :: ItemOk(i) }

  function RunItems(cfg: Config, mediaRecovery: bool, s: Stream, items: seq<Item>): Stream
    requires ItemsOk(items)
  {
    if items == [] then s
    else StepItem(cfg, mediaRecovery, RunItems(cfg, mediaRecovery, s, items[..|items| - 1]), items[|items| - 1])
  }

  predicate Retried(cfg: Config, a: Attempt) { a.end == ModelFallback && cfg.hasFallbackModel }

  /** One answer for every tool call of the given replies (`yieldMissingToolResultBlocks`). */
  function MissingResults(blocks: seq<Id>): seq<Yield> {
    EmitAll(Answers(blocks))
  }

  function UseIds(ms: seq<Message>): seq<Id> {
    if ms == [] then [] else UseIds(ms[..|ms| - 1]) + UsesOf(ms[|ms| - 1])
  }

  /** The switch to the fallback model: what was called is answered, and the request starts over. */
  function SwitchModel(cfg: Config, s: Stream): Stream {
    GiveUp(cfg, s.(out := s.out + MissingResults(UseIds(s.assistants)) + [Signal]), ClearedByFallback)
  }

  /** The attempts of a request: all but the last are retried with the fallback model. */
  predicate AttemptsOk(cfg: Config, attempts: seq<Attempt>) {
    && attempts != []
    && (forall k | 0 <= k < |attempts| :: ItemsOk(attempts[k].items))
    && (forall k | 0 <= k < |attempts| - 1 :: Retried(cfg, attempts[k]))
    && !Retried(cfg, attempts[|attempts| - 1])
  }

  /** The request after its first `n` attempts were retried. */
  function RunRetried(cfg: Config, mediaRecovery: bool, s: Stream, attempts: seq<Attempt>, n: nat): Stream
    requires n <= |attempts| && forall k | 0 <= k < n :: ItemsOk(attempts[k].items)
  {
    if n == 0 then s
    else
      var before := RunRetried(cfg, mediaRecovery, s, attempts, n - 1);
      SwitchModel(cfg, RunItems(cfg, mediaRecovery, before.(fallback := false), attempts[n - 1].items))
  }

  function RunAttempts(cfg: Config, mediaRecovery: bool, s: Stream, attempts: seq<Attempt>): Stream
    requires AttemptsOk(cfg, attempts)
  {
    var n := |attempts| - 1;
    RunItems(cfg, mediaRecovery, RunRetried(cfg, mediaRecovery, s, attempts, n).(fallback := false), attempts[n].items)
  }

  function EndOf(attempts: seq<Attempt>): End
    requires attempts != []
  {
    attempts[|attempts| - 1].end
  }
}
