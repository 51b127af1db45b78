/** Which streams leave a call that the streaming executor was never given, told from the messages and
    signals of the stream alone. */
module QueryLate {
  import opened Options
  import opened QueryMessages
  import opened QueryStream
  import opened QueryLoop
  import opened QueryTranscript

  predicate IsMessage(item: Item) { item.Reply? || item.Other? }

  /** A message that withdraws the reply at `k`: one that comes later, after the fallback was signalled. */
  predicate WithdrawsAt(items: seq<Item>, k: nat, j: nat) {
    k < j < |items| && IsMessage(items[j]) && FallbackSignal in items[..j]
  }

  /** A reply with calls that arrives after the abort and is retained. */
  ghost predicate LateAt(items: seq<Item>, aborted: bool, k: nat) {
    && k < |items| && items[k].Reply? && UsesOf(items[k].message) != []
    && (aborted || AbortSignal in items[..k])
    && forall j :: !WithdrawsAt(items, k, j)
  }

  ghost predicate LateReply(items: seq<Item>, aborted: bool) {
    exists k: nat :: LateAt(items, aborted, k)
  }

  lemma NextWithdraws(items: seq<Item>, item: Item, k: nat)
    requires k < |items|
    ensures (forall j :: !WithdrawsAt(items + [item], k, j))
            <==> (forall j :: !WithdrawsAt(items, k, j)) && !(IsMessage(item) && FallbackSignal in items)
  {
    var all := items + [item];
    assert forall j: nat | j < |items| :: all[..j] == items[..j];
    assert all[..|items|] == items;
    forall j: nat | k < j < |items| ensures WithdrawsAt(all, k, j) <==> WithdrawsAt(items, k, j) {
    }
    assert WithdrawsAt(all, k, |items|) <==> IsMessage(item) && FallbackSignal in items;
  }

  lemma LateNext(items: seq<Item>, aborted: bool, item: Item, k: nat)
    ensures LateAt(items + [item], aborted, k)
            <==> if k == |items| then
                   item.Reply? && UsesOf(item.message) != [] && (aborted || AbortSignal in items)
                 else LateAt(items, aborted, k) && !(IsMessage(item) && FallbackSignal in items)
  {
    var all := items + [item];
    assert all[..|items|] == items;
    if k < |items| {
      assert all[..k] == items[..k];
      NextWithdraws(items, item, k);
    } else if k == |items| {
      assert forall j :: !WithdrawsAt(all, k, j);
    }
  }

  lemma LateReplyNext(items: seq<Item>, aborted: bool, item: Item)
    ensures LateReply(items + [item], aborted)
            <==> || (item.Reply? && UsesOf(item.message) != [] && (aborted || AbortSignal in items))
                 || (LateReply(items, aborted) && !(IsMessage(item) && FallbackSignal in items))
  {
    hide LateAt;
    forall k: nat
      ensures LateAt(items + [item], aborted, k)
              <==> if k == |items| then
                     item.Reply? && UsesOf(item.message) != [] && (aborted || AbortSignal in items)
                   else LateAt(items, aborted, k) && !(IsMessage(item) && FallbackSignal in items)
    {
      LateNext(items, aborted, item, k);
    }
    assert !LateAt(items, aborted, |items|) by { LateWithin(items, aborted, |items|); }
  }

  lemma LateWithin(items: seq<Item>, aborted: bool, k: nat)
    ensures LateAt(items, aborted, k) ==> k < |items|
  {
  }

  /** The executor has been given a prefix of the calls in hand, and all of them until the abort. */
  predicate Handed(s: Stream) {
    s.executor.Some? && s.executor.value.added <= s.blocks && (!s.aborted ==> s.executor.value.added == s.blocks)
  }

  lemma LongerDiffers(added: seq<Id>, blocks: seq<Id>, more: seq<Id>)
    requires added <= blocks
    ensures added <= blocks + more && (added == blocks + more <==> added == blocks && more == [])
    ensures added + more == blocks + more <==> added == blocks
  {
    if added + more == blocks + more {
      assert (added + more)[..|added|] == added && (blocks + more)[..|blocks|] == blocks;
    }
  }

  lemma WithdrawLate(cfg: Config, s: Stream)
    requires Handed(s) && cfg.streamingTools
    ensures var w := Withdraw(cfg, s);
      && Handed(w) && w.aborted == s.aborted && w.fallback == s.fallback
      && (LateCalls(w) <==> LateCalls(s) && !s.fallback)
  {
    hide TombstoneAll, Fated;
  }

  lemma AcceptLate(cfg: Config, media: bool, s: Stream, m: Message)
    requires Handed(s) && m.Assistant?
    ensures var w := Accept(cfg, media, s, m);
      && Handed(w) && w.aborted == s.aborted && w.fallback == s.fallback
      && (LateCalls(w) <==> LateCalls(s) || (s.aborted && m.uses != []))
  {
    LongerDiffers(s.executor.value.added, s.blocks, m.uses);
    hide Withheld;
  }

  lemma CollectLate(s: Stream, ready: set<nat>)
    requires Handed(s)
    ensures var w := Collect(s, ready);
      && Handed(w) && w.aborted == s.aborted && w.fallback == s.fallback && (LateCalls(w) <==> LateCalls(s))
  {
    hide NewResults, EmitAll, Answers;
  }

  lemma StepLate(cfg: Config, media: bool, s: Stream, item: Item)
    requires Handed(s) && cfg.streamingTools && ItemOk(item)
    ensures var w := StepItem(cfg, media, s, item);
      && Handed(w)
      && (w.aborted <==> s.aborted || item == AbortSignal)
      && (w.fallback <==> s.fallback || item == FallbackSignal)
      && (LateCalls(w) <==> || (item.Reply? && UsesOf(item.message) != [] && s.aborted)
                            || (LateCalls(s) && !(IsMessage(item) && s.fallback)))
  {
    match item
    case AbortSignal =>
    case FallbackSignal =>
    case Reply(m, ready) =>
      hide Handed, LateCalls, Withdraw, Accept, Collect;
      WithdrawLate(cfg, s);
      AcceptLate(cfg, media, Withdraw(cfg, s), m);
      CollectLate(Accept(cfg, media, Withdraw(cfg, s), m), ready);
    case Other(ready) =>
      WithdrawLate(cfg, s);
      var w := Withdraw(cfg, s);
      hide Withdraw, Accept, Collect;
      CollectLate(w.(out := w.out + [Signal]), ready);
  }

  lemma {:induction false} ItemsLate(cfg: Config, media: bool, s: Stream, items: seq<Item>)
    requires Handed(s) && !LateCalls(s) && !s.fallback && cfg.streamingTools && ItemsOk(items)
    ensures var w := RunItems(cfg, media, s, items);
      && Handed(w)
      && (w.aborted <==> s.aborted || AbortSignal in items)
      && (w.fallback <==> FallbackSignal in items)
      && (LateCalls(w) <==> LateReply(items, s.aborted))
  {
    hide Handed, LateCalls, StepItem, LateReply;
    if items == [] {
      NoneLate(s.aborted);
    } else {
      var init, item := items[..|items| - 1], items[|items| - 1];
      ItemsLate(cfg, media, s, init);
      StepLate(cfg, media, RunItems(cfg, media, s, init), item);
      LateReplyNext(init, s.aborted, item);
      assert items == init + [item];
    }
  }

  lemma NoneLate(aborted: bool)
    ensures !LateReply([], aborted)
  {
  }

  /** The abort signal came in one of the first `n` attempts. */
  ghost predicate AbortedBefore(attempts: seq<Attempt>, n: nat)
    requires n <= |attempts|
  {
    exists i: nat :: i < n && AbortSignal in attempts[i].items
  }

  lemma SwitchLate(cfg: Config, s: Stream)
    requires cfg.streamingTools
    ensures var w := SwitchModel(cfg, s).(fallback := false);
      Handed(w) && !LateCalls(w) && !w.fallback && w.aborted == s.aborted
  {
    hide MissingResults, UseIds, Fated;
  }

  lemma {:induction false} RetriedLate(cfg: Config, media: bool, aborted: bool, attempts: seq<Attempt>, n: nat)
    requires cfg.streamingTools && n <= |attempts| && forall k | 0 <= k < n :: ItemsOk(attempts[k].items)
    ensures var w := RunRetried(cfg, media, Start(cfg, aborted), attempts, n).(fallback := false);
      Handed(w) && !LateCalls(w) && !w.fallback && (w.aborted <==> aborted || AbortedBefore(attempts, n))
  {
    hide RunItems, SwitchModel;
    if n > 0 {
      RetriedLate(cfg, media, aborted, attempts, n - 1);
      var before := RunRetried(cfg, media, Start(cfg, aborted), attempts, n - 1).(fallback := false);
      ItemsLate(cfg, media, before, attempts[n - 1].items);
      SwitchLate(cfg, RunItems(cfg, media, before, attempts[n - 1].items));
      hide Handed, LateCalls;
      assert AbortedBefore(attempts, n) <==> AbortedBefore(attempts, n - 1) || AbortSignal in attempts[n - 1].items;
    }
  }

  lemma {:induction false} NeverHanded(cfg: Config, media: bool, s: Stream, items: seq<Item>)
    requires !cfg.streamingTools && s.executor.None? && ItemsOk(items)
    ensures RunItems(cfg, media, s, items).executor.None?
  {
    if items != [] {
      NeverHanded(cfg, media, s, items[..|items| - 1]);
    }
    hide Withheld, NewResults;
  }

  lemma {:induction false} RetriedNeverHanded(cfg: Config, media: bool, aborted: bool, attempts: seq<Attempt>, n: nat)
    requires !cfg.streamingTools && n <= |attempts| && forall k | 0 <= k < n :: ItemsOk(attempts[k].items)
    ensures RunRetried(cfg, media, Start(cfg, aborted), attempts, n).executor.None?
  {
    hide RunItems;
    if n > 0 {
      RetriedNeverHanded(cfg, media, aborted, attempts, n - 1);
      var before := RunRetried(cfg, media, Start(cfg, aborted), attempts, n - 1).(fallback := false);
      NeverHanded(cfg, media, before, attempts[n - 1].items);
    }
  }

  /** Main result: a request leaves a call that the executor was never given exactly if tools stream, and in
      the last attempt a reply with calls follows the abort and is not withdrawn afterwards. */
  lemma LateCallsIff(cfg: Config, st: Loop, env: Iteration)
    requires AttemptsOk(cfg, env.attempts)
    ensures var n := |env.attempts| - 1;
      LateCalls(Request(cfg, st, env)) <==>
        cfg.streamingTools && LateReply(env.attempts[n].items, st.aborted || AbortedBefore(env.attempts, n))
  {
    var n := |env.attempts| - 1;
    var w := RunRetried(cfg, env.mediaRecovery, Start(cfg, st.aborted), env.attempts, n).(fallback := false);
    hide RunItems, RunRetried, Start, LateReply;
    if cfg.streamingTools {
      RetriedLate(cfg, env.mediaRecovery, st.aborted, env.attempts, n);
      ItemsLate(cfg, env.mediaRecovery, w, env.attempts[n].items);
    } else {
      RetriedNeverHanded(cfg, env.mediaRecovery, st.aborted, env.attempts, n);
      NeverHanded(cfg, env.mediaRecovery, w, env.attempts[n].items);
    }
  }

  /** The abort exit leaves a call of this iteration without a result exactly on those streams. */
  lemma AbortCompleteIff(cfg: Config, st: Loop, env: Iteration)
    requires IterationOk(cfg, st, env) && Complete(st.out) && DistinctCalls(Request(cfg, st, env))
    requires Iterate(cfg, st, env).End? && Iterate(cfg, st, env).reason == AbortedStreaming
    ensures var n := |env.attempts| - 1;
      Complete(Iterate(cfg, st, env).loop.out) <==>
        !(cfg.streamingTools && LateReply(env.attempts[n].items, st.aborted || AbortedBefore(env.attempts, n)))
  {
    AbortReason(cfg, st, env);
    LateCallsIff(cfg, st, env);
    hide Complete, DistinctCalls, Iterate, Request, LateCalls, LateReply, IterationOk;
    CompleteIff(cfg, st, env);
  }

  lemma AbortReason(cfg: Config, st: Loop, env: Iteration)
    requires AttemptsOk(cfg, env.attempts)
    requires Iterate(cfg, st, env).End? && Iterate(cfg, st, env).reason == AbortedStreaming
    ensures CallDropped(cfg, st, env) <==> LateCalls(Request(cfg, st, env))
  {
    var s := Request(cfg, st, env);
    var st1 := Replied(Prepare(cfg, st, env), env, s);
    RecoverNoAbort(cfg, st1, env, s);
    ToolsNoAbort(cfg, st1, env, s);
    hide Request, Prepare, Recover, RunTools, LateCalls, Replied;
  }

  lemma RecoverNoAbort(cfg: Config, st: Loop, env: Iteration, s: Stream)
    ensures Recover(cfg, st, env, s).End? ==> Recover(cfg, st, env, s).reason != AbortedStreaming
  {
    hide Sent, EmitAll, Notes, CompactRetry, Last, IsTooLong, MediaError;
    CompactGoesOn(cfg, st);
  }

  lemma ToolsNoAbort(cfg: Config, st: Loop, env: Iteration, s: Stream)
    ensures RunTools(cfg, st, env, s).End? ==> RunTools(cfg, st, env, s).reason != AbortedStreaming
  {
    hide Sent, EmitAll, Notes, RestOfTools, Answers, Interruption;
  }
}
