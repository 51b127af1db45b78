/** What the loop does with the iterations that its environment supplies, up to the one that returns. */
module QueryPlay {
  import opened Options
  import opened QueryMessages
  import opened QueryStream
  import opened QueryLoop
  import opened QueryPairing
  import opened QueryTranscript
  import QueryBounds

  /** Where the loop is after the given iterations, and why it stopped if it did. */
  function Play(cfg: Config, st: Loop, envs: seq<Iteration>): (Loop, Option<Reason>)
    requires forall k | 0 <= k < |envs| :: AttemptsOk(cfg, envs[k].attempts)
    decreases |envs|
  {
    if envs == [] then (st, None)
    else
      match Iterate(cfg, st, envs[0])
      case Next(next) => Play(cfg, next, envs[1..])
      case End(reason, last) => (last, Some(reason))
  }

  /** Every iteration that is reached satisfies what the other modules guarantee. */
  ghost predicate AllOk(cfg: Config, st: Loop, envs: seq<Iteration>)
    decreases |envs|
  {
    envs != [] ==>
      && IterationOk(cfg, st, envs[0])
      && (Iterate(cfg, st, envs[0]).Next? ==> AllOk(cfg, Iterate(cfg, st, envs[0]).loop, envs[1..]))
  }

  /** A run in the sense of `Runs` is what the loop does as long as no iteration returns. */
  lemma {:induction false} PlayIsRun(cfg: Config, st: Loop, envs: seq<Iteration>, st': Loop)
    requires Runs(cfg, st, envs, st')
    ensures forall k | 0 <= k < |envs| :: AttemptsOk(cfg, envs[k].attempts)
    ensures Play(cfg, st, envs) == (st', None) && AllOk(cfg, st, envs)
    decreases |envs|
  {
    if envs != [] {
      assert AttemptsOk(cfg, envs[0].attempts);
      var st1 := Iterate(cfg, st, envs[0]).loop;
      hide Iterate, IterationOk, AttemptsOk;
      PlayIsRun(cfg, st1, envs[1..], st');
      assert forall k | 0 < k < |envs| :: envs[k] == envs[1..][k - 1];
    }
  }

  /** Conversely, whatever the loop does is a run, followed by the one iteration that returned, if any. */
  lemma {:induction false} RunOfPlay(cfg: Config, st: Loop, envs: seq<Iteration>) returns (n: nat, mid: Loop)
    requires forall k | 0 <= k < |envs| :: AttemptsOk(cfg, envs[k].attempts)
    requires AllOk(cfg, st, envs)
    ensures n <= |envs| && Runs(cfg, st, envs[..n], mid)
    ensures var (last, why) := Play(cfg, st, envs);
      if why.None? then n == |envs| && last == mid
      else n < |envs| && IterationOk(cfg, mid, envs[n]) && Iterate(cfg, mid, envs[n]) == End(why.value, last)
    decreases |envs|
  {
    hide Iterate, IterationOk, AttemptsOk;
    if envs == [] || Iterate(cfg, st, envs[0]).End? {
      n, mid := 0, st;
    } else {
      var next := Iterate(cfg, st, envs[0]).loop;
      n, mid := RunOfPlay(cfg, next, envs[1..]);
      n := n + 1;
      assert envs[..n][0] == envs[0] && envs[..n][1..] == envs[1..][..n - 1];
    }
  }

  predicate SameHead(a: Loop, b: Loop) {
    a.messages == b.messages && a.trace == b.trace && a.turnCount == b.turnCount
  }

  lemma FinishStops(cfg: Config, st: Loop, env: Iteration, s: Stream)
    ensures Finish(cfg, st, env, s).End? ==> SameHead(Finish(cfg, st, env, s).loop, st)
  {
    hide EmitAll, Notes, Sent, Last;
  }

  lemma RecoverStops(cfg: Config, st: Loop, env: Iteration, s: Stream)
    ensures Recover(cfg, st, env, s).End? ==> SameHead(Recover(cfg, st, env, s).loop, st)
  {
    CompactGoesOn(cfg, st);
    FinishStops(cfg, st, env, s);
    if Last(s).Some? {
      FinishStops(cfg, Yielding(st, [Emit(Last(s).value)]), env, s);
    }
    hide EmitAll, Notes, Sent, Last, IsTooLong, MediaError, Finish, CompactRetry;
  }

  lemma ToolsStop(cfg: Config, st: Loop, env: Iteration, s: Stream)
    ensures RunTools(cfg, st, env, s).End? ==> SameHead(RunTools(cfg, st, env, s).loop, st)
  {
    hide EmitAll, Notes, Sent, RestOfTools, Answers, Interruption;
  }

  lemma StoppingKeeps(cfg: Config, st: Loop, env: Iteration)
    requires AttemptsOk(cfg, env.attempts) && Iterate(cfg, st, env).End?
    ensures SameHead(Iterate(cfg, st, env).loop, st)
  {
    var s := Request(cfg, st, env);
    var st1 := Replied(Prepare(cfg, st, env), env, s);
    RecoverStops(cfg, st1, env, s);
    ToolsStop(cfg, st1, env, s);
    assert SameHead(Prepare(cfg, st, env), st);
    assert SameHead(st1, st);
    hide Request, EmitAll, Answers, AbortAnswers, MissingResults, UseIds, RunTools, Recover, Prepare, Replied;
  }

  /** The exits on which a call may be left without a result. */
  lemma DroppedReason(cfg: Config, st: Loop, env: Iteration)
    requires AttemptsOk(cfg, env.attempts) && CallDropped(cfg, st, env)
    ensures Iterate(cfg, st, env).End? && Iterate(cfg, st, env).reason in {ImageError, AbortedStreaming}
  {
    hide Request, Prepare, Recover, RunTools;
  }

  /** What is known of the loop whenever it is observed: at a loop head, or after it has returned. */
  ghost predicate Sound(cfg: Config, last: Loop, why: Option<Reason>) {
    && WellPaired(last.messages)
    && (why !in {Some(ImageError), Some(AbortedStreaming)} ==> Complete(last.out))
    && (!cfg.streamingTools && why != Some(ImageError) ==> Balanced(last.out))
    && (cfg.maxTurns > 0 ==>
          && last.turnCount == 1 + QueryBounds.Turns(last.trace) <= cfg.maxTurns
          && |last.trace| < 10 * (cfg.maxTurns + QueryBounds.Blocks(last.trace) + QueryBounds.Continuations(last.trace))
                            + 2 * QueryBounds.Drains(last.trace))
  }

  lemma RunIsSound(cfg: Config, messages: seq<Message>, override: Option<nat>, envs: seq<Iteration>, st: Loop)
    requires Runs(cfg, Initial(messages, override), envs, st) && WellPaired(messages)
    ensures Sound(cfg, st, None)
  {
    EmptyTranscript(messages, override);
    hide WellPaired, Runs, Complete, Balanced, QueryBounds.Turns, QueryBounds.Blocks, QueryBounds.Continuations,
         QueryBounds.Drains;
    PairedAtEveryHead(cfg, Initial(messages, override), envs, st);
    TranscriptAtEveryHead(cfg, Initial(messages, override), envs, st);
    QueryBounds.InitialCounted(cfg, messages, override);
    QueryBounds.RunIsOrderly(cfg, override, Initial(messages, override), envs, st);
    if cfg.maxTurns > 0 {
      QueryBounds.RunIsBounded(cfg, messages, override, envs, st);
    }
  }

  lemma StopIsSound(cfg: Config, messages: seq<Message>, override: Option<nat>, envs: seq<Iteration>, st: Loop,
                    env: Iteration)
    requires Runs(cfg, Initial(messages, override), envs, st) && Sound(cfg, st, None)
    requires AttemptsOk(cfg, env.attempts) && IterationOk(cfg, st, env) && Iterate(cfg, st, env).End?
    ensures Sound(cfg, Iterate(cfg, st, env).loop, Some(Iterate(cfg, st, env).reason))
  {
    StoppingKeeps(cfg, st, env);
    hide WellPaired, Runs, Complete, Balanced, QueryBounds.Turns, QueryBounds.Blocks, QueryBounds.Continuations,
         QueryBounds.Drains, Iterate, IterationOk, CallDropped;
    RunTranscript(cfg, messages, override, envs, st, env);
    if CallDropped(cfg, st, env) {
      DroppedReason(cfg, st, env);
    }
  }

  /** Main result: for every environment, a loop that starts from a well-paired history has a well-paired
      history and, with a turn limit, is within its bounds whenever it is observed; what it has yielded is
      complete unless an image-size error or an abort stopped it. */
  lemma PlayIsSound(cfg: Config, messages: seq<Message>, override: Option<nat>, envs: seq<Iteration>)
    requires forall k | 0 <= k < |envs| :: AttemptsOk(cfg, envs[k].attempts)
    requires AllOk(cfg, Initial(messages, override), envs) && WellPaired(messages)
    ensures var (last, why) := Play(cfg, Initial(messages, override), envs); Sound(cfg, last, why)
  {
    hide WellPaired, Runs, Iterate, IterationOk, Play, AllOk, AttemptsOk, Sound;
    var n, mid := RunOfPlay(cfg, Initial(messages, override), envs);
    RunIsSound(cfg, messages, override, envs[..n], mid);
    var (last, why) := Play(cfg, Initial(messages, override), envs);
    if why.Some? {
      StopIsSound(cfg, messages, override, envs[..n], mid, envs[n]);
    }
  }
}
