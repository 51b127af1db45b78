/** The two message stores of the conversation engine: the list that outlives a submission and the copy
    that one submission works on, both cut at compaction boundaries (source/src/QueryEngine.ts). */
module EngineStores {
  import opened Options

  datatype StopReason = EndTurn | OtherStop

  /** The last content block of an assistant message. */
  datatype Content = NoContent | Text | Thinking | RedactedThinking | ToolUse

  /** What the query loop yields to the engine. */
  datatype Message =
    | Assistant(id: nat, content: Content, stop: Option<StopReason>, isApiError: bool)
    | User(id: nat, toolResultsOnly: bool)
    | Progress(id: nat)
    | Attachment(id: nat, maxTurns: Option<nat>)
    | CompactBoundary(id: nat, metadata: bool)
    | OtherSystem(id: nat, apiError: bool)
    | Tombstone(id: nat)
    | RequestStart
    | StreamEvent(stop: Option<StopReason>)
    | Summary(id: nat)

  /** What replaying a snip on the store gave: the remaining messages, and whether it did anything. */
  datatype Snip = Snip(messages: seq<Message>, executed: bool)

  /** A message as it was pushed, and whether the store was cut at it. */
  datatype Pushed = Pushed(message: Message, cuts: bool)

  /** Both stores, the full logs behind them, and how many messages of the lasting store are older than
      the submission. */
  datatype Stores = Stores(
    lasting: seq<Message>,
    local: seq<Message>,
    lastingLog: seq<Pushed>,
    localLog: seq<Pushed>,
    older: nat)

  // ---------------------------------------------------------------- logs and views

  function All(log: seq<Pushed>): seq<Message> {
    seq(|log|, i requires 0 <= i < |log| => log[i].message)
  }

  /** What a store holds: everything from the last cut on. */
  function Kept(log: seq<Pushed>): seq<Message> {
    if log == [] then []
    else if log[|log| - 1].cuts then [log[|log| - 1].message]
    else Kept(log[..|log| - 1]) + [log[|log| - 1].message]
  }

  /** What the model is shown: everything from the last compaction boundary on. */
  function AfterBoundary(ms: seq<Message>): seq<Message> {
    if ms == [] then []
    else if ms[|ms| - 1].CompactBoundary? then [ms[|ms| - 1]]
    else AfterBoundary(ms[..|ms| - 1]) + [ms[|ms| - 1]]
  }

  ghost predicate CutsAtBoundaries(log: seq<Pushed>) {
    forall p | p in log :: p.cuts ==> p.message.CompactBoundary?
  }

  function Uncut(ms: seq<Message>): seq<Pushed> {
    seq(|ms|, i requires 0 <= i < |ms| => Pushed(ms[i], false))
  }

  lemma {:induction false} KeptUncut(ms: seq<Message>)
    ensures Kept(Uncut(ms)) == ms
  {
    if ms != [] {
      assert Uncut(ms)[..|ms| - 1] == Uncut(ms[..|ms| - 1]);
      KeptUncut(ms[..|ms| - 1]);
    }
  }

  lemma KeptNext(log: seq<Pushed>, p: Pushed)
    ensures Kept(log + [p]) == if p.cuts then [p.message] else Kept(log) + [p.message]
  {
    assert (log + [p])[..|log|] == log;
  }

  /** Cutting a store at boundaries is invisible to the model: the view of the store is the view of
      everything that was ever pushed. */
  lemma {:induction false} CutIsInvisible(log: seq<Pushed>)
    requires CutsAtBoundaries(log)
    ensures AfterBoundary(Kept(log)) == AfterBoundary(All(log))
  {
    if log != [] {
      var init, last := log[..|log| - 1], log[|log| - 1];
      assert last in log;
      assert All(log)[..|log| - 1] == All(init);
      CutIsInvisible(init);
      if last.cuts {
        assert [last.message][..0] == [];
      } else {
        assert Kept(log)[..|Kept(log)| - 1] == Kept(init);
      }
    }
  }

  // ---------------------------------------------------------------- one message

  function PushLasting(s: Stores, m: Message): Stores {
    s.(lasting := s.lasting + [m], lastingLog := s.lastingLog + [Pushed(m, false)])
  }

  function PushLocal(s: Stores, m: Message): Stores {
    s.(local := s.local + [m], localLog := s.localLog + [Pushed(m, false)])
  }

  /** Both stores keep only their last message. */
  function CutBoth(s: Stores, m: Message): Stores {
    s.(lasting := [m], local := [m], older := 0,
       lastingLog := s.lastingLog + [Pushed(m, true)], localLog := s.localLog + [Pushed(m, true)])
  }

  /** What the engine stores for a yielded message. `snip` is the answer of the snip replay, which is asked
      about system messages only. */
  function Receive(persist: bool, s: Stores, m: Message, snip: Option<Snip>): Stores {
    match m
    case Assistant(_, _, _, _) => PushLasting(PushLocal(s, m), m)
    case User(_, _) => PushLasting(PushLocal(s, m), m)
    case Progress(_) => if persist then PushLocal(PushLasting(s, m), m) else PushLasting(s, m)
    case Attachment(_, _) => if persist then PushLocal(PushLasting(s, m), m) else PushLasting(s, m)
    case CompactBoundary(_, metadata) =>
      if snip.Some? then Replay(PushLocal(s, m), snip.value)
      else if metadata then CutBoth(s, m)
      else PushLasting(PushLocal(s, m), m)
    case OtherSystem(_, _) => if snip.Some? then Replay(s, snip.value) else PushLasting(s, m)
    case Tombstone(_) => s
    case RequestStart => s
    case StreamEvent(_) => s
    case Summary(_) => s
  }

  /** An executed snip replaces the lasting store; its log starts over. */
  function Replay(s: Stores, snip: Snip): Stores {
    if snip.executed then s.(lasting := snip.messages, lastingLog := Uncut(snip.messages), older := 0) else s
  }

  /** The start of a submission: the user's messages are pushed and the store is copied. */
  function Begin(s: Stores, input: seq<Message>): Stores {
    Stores(s.lasting + input, s.lasting + input, s.lastingLog + Uncut(input), s.lastingLog + Uncut(input),
           |s.lasting + input|)
  }

  /** A message of the engine's own, pushed to both stores. */
  function PushBoth(s: Stores, m: Message): Stores { PushLocal(PushLasting(s, m), m) }

  // ---------------------------------------------------------------- the stores refine their logs

  ghost predicate Refines(s: Stores) {
    && s.lasting == Kept(s.lastingLog) && s.local == Kept(s.localLog)
    && CutsAtBoundaries(s.lastingLog) && CutsAtBoundaries(s.localLog)
  }

  lemma PushRefines(s: Stores, m: Message)
    requires Refines(s)
    ensures Refines(PushLasting(s, m)) && Refines(PushLocal(s, m))
  {
    KeptNext(s.lastingLog, Pushed(m, false));
    KeptNext(s.localLog, Pushed(m, false));
    hide Kept;
  }

  lemma CutRefines(s: Stores, m: Message)
    requires Refines(s) && m.CompactBoundary?
    ensures Refines(CutBoth(s, m))
  {
    KeptNext(s.lastingLog, Pushed(m, true));
    KeptNext(s.localLog, Pushed(m, true));
    hide Kept;
  }

  lemma ReplayRefines(s: Stores, snip: Snip)
    requires Refines(s)
    ensures Refines(Replay(s, snip))
  {
    KeptUncut(snip.messages);
    hide Kept;
  }

  lemma ReceiveRefines(persist: bool, s: Stores, m: Message, snip: Option<Snip>)
    requires Refines(s)
    ensures Refines(Receive(persist, s, m, snip))
  {
    hide Refines, PushLasting, PushLocal, CutBoth, Replay;
    PushRefines(s, m);
    PushRefines(PushLocal(s, m), m);
    PushRefines(PushLasting(s, m), m);
    if m.CompactBoundary? {
      CutRefines(s, m);
    }
    if snip.Some? {
      ReplayRefines(s, snip.value);
      ReplayRefines(PushLocal(s, m), snip.value);
    }
  }

  lemma {:induction false} KeptAppend(log: seq<Pushed>, ms: seq<Message>)
    ensures Kept(log + Uncut(ms)) == Kept(log) + ms
  {
    hide Kept;
    if ms == [] {
      assert log + Uncut(ms) == log;
    } else {
      var init, last := ms[..|ms| - 1], ms[|ms| - 1];
      assert log + Uncut(ms) == (log + Uncut(init)) + [Pushed(last, false)];
      KeptAppend(log, init);
      KeptNext(log + Uncut(init), Pushed(last, false));
      assert ms == init + [last];
    }
  }

  lemma BeginRefines(s: Stores, input: seq<Message>)
    requires Refines(s)
    ensures Refines(Begin(s, input))
  {
    KeptAppend(s.lastingLog, input);
  }

  lemma PushBothRefines(s: Stores, m: Message)
    requires Refines(s)
    ensures Refines(PushBoth(s, m))
  {
    hide Refines, PushLasting, PushLocal;
    PushRefines(s, m);
    PushRefines(PushLasting(s, m), m);
  }

  // ---------------------------------------------------------------- the stores in step

  /** Messages of this submission that only the lasting store gets. */
  predicate LastingOnly(persist: bool, m: Message) {
    m.OtherSystem? || (!persist && (m.Progress? || m.Attachment?))
  }

  function WithoutLastingOnly(persist: bool, ms: seq<Message>): seq<Message> {
    if ms == [] then []
    else
      WithoutLastingOnly(persist, ms[..|ms| - 1])
      + if LastingOnly(persist, ms[|ms| - 1]) then [] else [ms[|ms| - 1]]
  }

  /** The local copy is the lasting store without those messages. */
  ghost predicate InStep(persist: bool, s: Stores) {
    && s.older <= |s.lasting|
    && s.local == s.lasting[..s.older] + WithoutLastingOnly(persist, s.lasting[s.older..])
  }

  lemma WithoutNext(persist: bool, ms: seq<Message>, m: Message)
    ensures WithoutLastingOnly(persist, ms + [m])
            == WithoutLastingOnly(persist, ms) + if LastingOnly(persist, m) then [] else [m]
  {
    assert (ms + [m])[..|ms|] == ms;
  }

  lemma LastingInStep(persist: bool, lasting: seq<Message>, older: nat, m: Message)
    requires older <= |lasting|
    ensures var now := lasting + [m];
      && now[..older] == lasting[..older]
      && now[..older] + WithoutLastingOnly(persist, now[older..])
         == (lasting[..older] + WithoutLastingOnly(persist, lasting[older..]))
            + if LastingOnly(persist, m) then [] else [m]
  {
    assert (lasting + [m])[older..] == lasting[older..] + [m];
    WithoutNext(persist, lasting[older..], m);
  }

  /** Whatever is received, the stores stay in step, as long as no snip is executed. */
  lemma ReceiveInStep(persist: bool, s: Stores, m: Message)
    requires InStep(persist, s)
    ensures InStep(persist, Receive(persist, s, m, None))
  {
    LastingInStep(persist, s.lasting, s.older, m);
    if m.CompactBoundary? && m.metadata {
      LastingInStep(persist, [], 0, m);
      assert [] + [m] == [m];
    }
    hide WithoutLastingOnly;
  }

  lemma BeginInStep(persist: bool, s: Stores, input: seq<Message>)
    ensures InStep(persist, Begin(s, input))
  {
    var b := Begin(s, input);
    assert b.lasting[b.older..] == [] && b.lasting[..b.older] == b.lasting;
  }
}
