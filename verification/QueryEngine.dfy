/** One submission to the conversation engine: the inner queries, the results that stop them, and the
    bounded review and repair loop around them (source/src/QueryEngine.ts). */
module QueryEngine {
  import opened Options
  import opened EngineStores

  const GEMINI_STRICT_MAX_REPAIR_ATTEMPTS: nat := 1

  datatype Config = Config(persist: bool, partialMessages: bool, jsonSchema: bool, strict: bool)

  /** A message yielded by the inner query, what replaying a snip on the store would give for it, and
      whether the cost limit and the structured-output limit are reached after it. */
  datatype Event = Event(message: Message, snip: Option<Snip>, overBudget: bool, outputsExhausted: bool)

  datatype Review = Approve | NeedsChanges | Blocked

  /** One inner query and the review of what it left, if there is something to review. */
  datatype Round = Round(events: seq<Event>, review: Option<Review>)

  datatype Subtype = Success | ErrorMaxTurns | ErrorMaxBudget | ErrorMaxStructuredOutputRetries | ErrorDuringExecution

  /** What the engine yields. */
  datatype Output =
    | Init
    | Shown(message: Message)
    | PartialEvent
    | BoundaryNotice
    | RetryNotice
    | SummaryNotice
    | Result(subtype: Subtype, isError: bool, turns: int)

  /** The variables of a submission; `received` records what the queries yielded. */
  datatype Turn = Turn(
    stores: Stores,
    turnCount: nat,
    stop: Option<StopReason>,
    repairs: nat,
    ended: bool,
    out: seq<Output>,
    received: seq<Message>)

  const REPAIR_PROMPT := User(0, false)
  const REVIEW_FAILURE := Assistant(0, Text, None, false)

  // ---------------------------------------------------------------- one message

  predicate IsSystem(m: Message) { m.CompactBoundary? || m.OtherSystem? }

  /** The snip replay as it applies to this message. */
  function SnipOf(e: Event): Option<Snip> {
    if IsSystem(e.message) then e.snip else None
  }

  function OutputsFor(cfg: Config, e: Event): seq<Output> {
    match e.message
    case Assistant(_, _, _, _) => [Shown(e.message)]
    case User(_, _) => [Shown(e.message)]
    case Progress(_) => [Shown(e.message)]
    case CompactBoundary(_, metadata) => if SnipOf(e).None? && metadata then [BoundaryNotice] else []
    case OtherSystem(_, apiError) => if SnipOf(e).None? && apiError then [RetryNotice] else []
    case StreamEvent(_) => if cfg.partialMessages then [PartialEvent] else []
    case Summary(_) => [SummaryNotice]
    case Attachment(_, _) => []
    case Tombstone(_) => []
    case RequestStart => []
  }

  function StopOf(m: Message, stop: Option<StopReason>): Option<StopReason> {
    if (m.Assistant? || m.StreamEvent?) && m.stop.Some? then m.stop else stop
  }

  /** The result that ends the submission at this message, if any. */
  function Halt(cfg: Config, e: Event, turnCount: nat): Option<Output> {
    if e.message.Attachment? && e.message.maxTurns.Some? then
      Some(Result(ErrorMaxTurns, true, e.message.maxTurns.value))
    else if e.overBudget then Some(Result(ErrorMaxBudget, true, turnCount))
    else if e.message.User? && cfg.jsonSchema && e.outputsExhausted then
      Some(Result(ErrorMaxStructuredOutputRetries, true, turnCount))
    else None
  }

  function Step(cfg: Config, t: Turn, e: Event): Turn {
    var turnCount := if e.message.User? then t.turnCount + 1 else t.turnCount;
    var halt := Halt(cfg, e, turnCount);
    t.(stores := Receive(cfg.persist, t.stores, e.message, SnipOf(e)),
       turnCount := turnCount,
       stop := StopOf(e.message, t.stop),
       ended := halt.Some?,
       out := t.out + OutputsFor(cfg, e) + if halt.Some? then [halt.value] else [],
       received := t.received + [e.message])
  }

  function RunEvents(cfg: Config, t: Turn, events: seq<Event>): Turn
    decreases |events|
  {
    if events == [] || t.ended then t else RunEvents(cfg, Step(cfg, t, events[0]), events[1..])
  }

  // ---------------------------------------------------------------- the end of a query

  function LastReply(ms: seq<Message>): Option<Message> {
    if ms == [] then None
    else if ms[|ms| - 1].Assistant? || ms[|ms| - 1].User? then Some(ms[|ms| - 1])
    else LastReply(ms[..|ms| - 1])
  }

  predicate IsResultSuccessful(last: Option<Message>, stop: Option<StopReason>) {
    match last
    case None => false
    case Some(m) =>
      if m.Assistant? then m.content in {Text, Thinking, RedactedThinking}
      else (m.User? && m.toolResultsOnly) || stop == Some(EndTurn)
  }

  predicate NeedsReview(cfg: Config, round: Round) { cfg.strict && round.review.Some? }

  function Finish(t: Turn, result: Output): Turn { t.(ended := true, out := t.out + [result]) }

  /** The query has run to its end: report failure, start a repair, reject, or report success. */
  function Conclude(cfg: Config, t: Turn, round: Round): Turn {
    var last := LastReply(t.stores.local);
    if !IsResultSuccessful(last, t.stop) then Finish(t, Result(ErrorDuringExecution, true, t.turnCount))
    else if NeedsReview(cfg, round) && round.review.value == NeedsChanges
            && t.repairs < GEMINI_STRICT_MAX_REPAIR_ATTEMPTS then
      t.(stores := PushBoth(t.stores, REPAIR_PROMPT), repairs := t.repairs + 1)
    else if NeedsReview(cfg, round) && round.review.value != Approve then
      Finish(t.(stores := PushBoth(t.stores, REVIEW_FAILURE), out := t.out + [Shown(REVIEW_FAILURE)]),
             Result(ErrorDuringExecution, true, t.turnCount))
    else
      Finish(t, Result(Success, last.value.Assistant? && last.value.isApiError, t.turnCount))
  }

  /** One inner query, up to the point where its outcome is judged. */
  function RunQuery(cfg: Config, t: Turn, rounds: nat -> Round): Turn {
    RunEvents(cfg, t.(stop := None), rounds(t.repairs).events)
  }

  lemma {:induction false} EventsKeepRepairs(cfg: Config, t: Turn, events: seq<Event>)
    ensures RunEvents(cfg, t, events).repairs == t.repairs
    decreases |events|
  {
    if events != [] && !t.ended {
      EventsKeepRepairs(cfg, Step(cfg, t, events[0]), events[1..]);
    }
    hide Receive, OutputsFor;
  }

  /** Queries until one of them ends the submission. */
  function RunRounds(cfg: Config, t: Turn, rounds: nat -> Round): Turn
    requires t.repairs <= GEMINI_STRICT_MAX_REPAIR_ATTEMPTS
    decreases GEMINI_STRICT_MAX_REPAIR_ATTEMPTS - t.repairs
  {
    var t1 := RunQuery(cfg, t, rounds);
    EventsKeepRepairs(cfg, t.(stop := None), rounds(t.repairs).events);
    if t1.ended then t1
    else
      var t2 := Conclude(cfg, t1, rounds(t.repairs));
      if t2.ended then t2 else RunRounds(cfg, t2, rounds)
  }

  function Opened(s: Stores, input: seq<Message>): Turn {
    Turn(Begin(s, input), 1, None, 0, false, [Init], [])
  }

  /** A submission. Local commands that do not query report their output and succeed. */
  function Submit(cfg: Config, s: Stores, input: seq<Message>, shouldQuery: bool, local: seq<Message>,
        rounds: nat -> Round): Turn {
    var t := Opened(s, input);
    if shouldQuery then RunRounds(cfg, t, rounds)
    else
      Finish(t.(out := t.out + seq(|local|, i requires 0 <= i < |local| => Shown(local[i]))),
             Result(Success, false, |t.stores.local| - 1))
  }

  // ---------------------------------------------------------------- exactly one result

  function Results(out: seq<Output>): nat {
    if out == [] then 0 else Results(out[..|out| - 1]) + if out[|out| - 1].Result? then 1 else 0
  }

  lemma {:induction false} ResultsConcat(a: seq<Output>, b: seq<Output>)
    ensures Results(a + b) == Results(a) + Results(b)
  {
    if b == [] {
      assert a + b == a;
    } else {
      assert (a + b)[..|a + b| - 1] == a + b[..|b| - 1];
      ResultsConcat(a, b[..|b| - 1]);
    }
  }

  /** A result has been yielded exactly if the submission has ended, and then it is the last output. */
  ghost predicate ResultLast(t: Turn) {
    && Results(t.out) == (if t.ended then 1 else 0)
    && (t.ended ==> t.out != [] && t.out[|t.out| - 1].Result?)
  }

  lemma OneOutput(o: Output)
    ensures Results([o]) == (if o.Result? then 1 else 0) && Results([]) == 0
  {
    assert [o][..0] == [];
  }

  lemma OutputsHaveNoResult(cfg: Config, e: Event)
    ensures Results(OutputsFor(cfg, e)) == 0
  {
    if |OutputsFor(cfg, e)| == 1 {
      OneOutput(OutputsFor(cfg, e)[0]);
      assert OutputsFor(cfg, e) == [OutputsFor(cfg, e)[0]];
    }
  }

  lemma StepResult(cfg: Config, t: Turn, e: Event)
    requires ResultLast(t) && !t.ended
    ensures ResultLast(Step(cfg, t, e))
  {
    OutputsHaveNoResult(cfg, e);
    ResultsConcat(t.out, OutputsFor(cfg, e));
    var turnCount := if e.message.User? then t.turnCount + 1 else t.turnCount;
    var halt := Halt(cfg, e, turnCount);
    if halt.Some? {
      ResultsConcat(t.out + OutputsFor(cfg, e), [halt.value]);
      OneOutput(halt.value);
    } else {
      assert t.out + OutputsFor(cfg, e) + [] == t.out + OutputsFor(cfg, e);
    }
    hide Results, OutputsFor, Receive;
  }

  lemma {:induction false} EventsResult(cfg: Config, t: Turn, events: seq<Event>)
    requires ResultLast(t)
    ensures ResultLast(RunEvents(cfg, t, events))
    decreases |events|
  {
    hide ResultLast, Step;
    if events != [] && !t.ended {
      StepResult(cfg, t, events[0]);
      EventsResult(cfg, Step(cfg, t, events[0]), events[1..]);
    }
  }

  lemma FinishResult(t: Turn, result: Output)
    requires Results(t.out) == 0 && result.Result?
    ensures ResultLast(Finish(t, result))
  {
    ResultsConcat(t.out, [result]);
    OneOutput(result);
  }

  lemma ConcludeResult(cfg: Config, t: Turn, round: Round)
    requires ResultLast(t) && !t.ended
    ensures ResultLast(Conclude(cfg, t, round))
  {
    var t1 := t.(stores := PushBoth(t.stores, REVIEW_FAILURE), out := t.out + [Shown(REVIEW_FAILURE)]);
    ResultsConcat(t.out, [Shown(REVIEW_FAILURE)]);
    OneOutput(Shown(REVIEW_FAILURE));
    hide Results, Finish, LastReply, PushBoth;
    var last := LastReply(t.stores.local);
    FinishResult(t, Result(ErrorDuringExecution, true, t.turnCount));
    FinishResult(t1, Result(ErrorDuringExecution, true, t.turnCount));
    if last.Some? {
      FinishResult(t, Result(Success, last.value.Assistant? && last.value.isApiError, t.turnCount));
    }
  }

  lemma {:induction false} RoundsResult(cfg: Config, t: Turn, rounds: nat -> Round)
    requires t.repairs <= GEMINI_STRICT_MAX_REPAIR_ATTEMPTS && ResultLast(t) && !t.ended
    ensures ResultLast(RunRounds(cfg, t, rounds)) && RunRounds(cfg, t, rounds).ended
    decreases GEMINI_STRICT_MAX_REPAIR_ATTEMPTS - t.repairs
  {
    var t0 := t.(stop := None);
    assert ResultLast(t0);
    EventsResult(cfg, t0, rounds(t.repairs).events);
    EventsKeepRepairs(cfg, t0, rounds(t.repairs).events);
    var t1 := RunQuery(cfg, t, rounds);
    if !t1.ended {
      ConcludeResult(cfg, t1, rounds(t.repairs));
      var t2 := Conclude(cfg, t1, rounds(t.repairs));
      if !t2.ended {
        hide ResultLast, RunEvents, RunQuery;
        RoundsResult(cfg, t2, rounds);
      }
    }
  }

  lemma {:induction false} ShownHasNoResult(local: seq<Message>)
    ensures Results(seq(|local|, i requires 0 <= i < |local| => Shown(local[i]))) == 0
  {
    if local != [] {
      var init := local[..|local| - 1];
      assert seq(|local|, i requires 0 <= i < |local| => Shown(local[i]))[..|local| - 1]
          == seq(|init|, i requires 0 <= i < |init| => Shown(init[i]));
      ShownHasNoResult(init);
    }
  }

  /** Main result: a submission yields exactly one result, as its last output. */
  lemma OneResultLast(cfg: Config, s: Stores, input: seq<Message>, shouldQuery: bool, local: seq<Message>,
        rounds: nat -> Round)
    ensures var t := Submit(cfg, s, input, shouldQuery, local, rounds);
      t.ended && Results(t.out) == 1 && t.out[|t.out| - 1].Result?
  {
    var t := Opened(s, input);
    OneOutput(Init);
    if shouldQuery {
      RoundsResult(cfg, t, rounds);
    } else {
      var shown := seq(|local|, i requires 0 <= i < |local| => Shown(local[i]));
      ShownHasNoResult(local);
      ResultsConcat([Init], shown);
      FinishResult(t.(out := [Init] + shown), Result(Success, false, |t.stores.local| - 1));
    }
  }

  predicate ReportsApiError(last: Option<Message>) { last.Some? && last.value.Assistant? && last.value.isApiError }

  /** A result is flagged as an error unless it reports success, and success only if the reply it reports
      is an API error. */
  predicate Flagged(t: Turn) {
    t.ended ==>
      && t.out != [] && t.out[|t.out| - 1].Result?
      && var r := t.out[|t.out| - 1];
      && (r.subtype != Success ==> r.isError)
      && (r.subtype == Success ==> (r.isError <==> ReportsApiError(LastReply(t.stores.local))))
  }

  lemma StepFlagged(cfg: Config, t: Turn, e: Event)
    ensures Flagged(Step(cfg, t, e))
  {
    hide Receive, OutputsFor, LastReply;
  }

  lemma {:induction false} EventsFlagged(cfg: Config, t: Turn, events: seq<Event>)
    requires Flagged(t)
    ensures Flagged(RunEvents(cfg, t, events))
    decreases |events|
  {
    hide Flagged, Step;
    if events != [] && !t.ended {
      StepFlagged(cfg, t, events[0]);
      EventsFlagged(cfg, Step(cfg, t, events[0]), events[1..]);
    }
  }

  lemma ConcludeFlagged(cfg: Config, t: Turn, round: Round)
    requires !t.ended
    ensures Flagged(Conclude(cfg, t, round))
  {
    hide PushBoth, LastReply;
  }

  /** Errors are flagged as errors, whatever ended the submission. */
  lemma {:induction false} ErrorsAreFlagged(cfg: Config, t: Turn, rounds: nat -> Round)
    requires t.repairs <= GEMINI_STRICT_MAX_REPAIR_ATTEMPTS && !t.ended
    ensures Flagged(RunRounds(cfg, t, rounds))
    decreases GEMINI_STRICT_MAX_REPAIR_ATTEMPTS - t.repairs
  {
    var t0 := t.(stop := None);
    EventsFlagged(cfg, t0, rounds(t.repairs).events);
    EventsKeepRepairs(cfg, t0, rounds(t.repairs).events);
    var t1 := RunQuery(cfg, t, rounds);
    if !t1.ended {
      ConcludeFlagged(cfg, t1, rounds(t.repairs));
      var t2 := Conclude(cfg, t1, rounds(t.repairs));
      if !t2.ended {
        ConcludeSuccess(cfg, t1, rounds(t.repairs));
        hide Flagged, RunEvents, RunQuery, Conclude;
        ErrorsAreFlagged(cfg, t2, rounds);
      }
    }
  }

  // ---------------------------------------------------------------- review and repair

  /** The state in which the last query of the submission ended. */
  function LastQuery(cfg: Config, t: Turn, rounds: nat -> Round): Turn
    requires t.repairs <= GEMINI_STRICT_MAX_REPAIR_ATTEMPTS
    decreases GEMINI_STRICT_MAX_REPAIR_ATTEMPTS - t.repairs
  {
    var t1 := RunQuery(cfg, t, rounds);
    EventsKeepRepairs(cfg, t.(stop := None), rounds(t.repairs).events);
    if t1.ended then t1
    else
      var t2 := Conclude(cfg, t1, rounds(t.repairs));
      if t2.ended then t1 else LastQuery(cfg, t2, rounds)
  }

  predicate EndsInSuccess(t: Turn) {
    t.out != [] && t.out[|t.out| - 1].Result? && t.out[|t.out| - 1].subtype == Success
  }

  lemma StepNoSuccess(cfg: Config, t: Turn, e: Event)
    ensures Step(cfg, t, e).ended ==> !EndsInSuccess(Step(cfg, t, e))
  {
    hide Receive, OutputsFor;
  }

  lemma {:induction false} EventsNoSuccess(cfg: Config, t: Turn, events: seq<Event>)
    requires t.ended ==> !EndsInSuccess(t)
    ensures RunEvents(cfg, t, events).ended ==> !EndsInSuccess(RunEvents(cfg, t, events))
    decreases |events|
  {
    hide Step, EndsInSuccess;
    if events != [] && !t.ended {
      StepNoSuccess(cfg, t, events[0]);
      EventsNoSuccess(cfg, Step(cfg, t, events[0]), events[1..]);
    }
  }

  /** Whether the review lets the round pass. */
  predicate Passes(cfg: Config, round: Round) { NeedsReview(cfg, round) ==> round.review.value == Approve }

  lemma ConcludeSuccess(cfg: Config, t: Turn, round: Round)
    requires !t.ended
    ensures var t' := Conclude(cfg, t, round);
      if t'.ended then
        && t'.repairs == t.repairs
        && (EndsInSuccess(t') <==> IsResultSuccessful(LastReply(t.stores.local), t.stop) && Passes(cfg, round))
        && (EndsInSuccess(t') ==> t'.stores == t.stores)
      else
        && t'.repairs == t.repairs + 1 <= GEMINI_STRICT_MAX_REPAIR_ATTEMPTS
        && cfg.strict && round.review == Some(NeedsChanges)
  {
    hide LastReply, PushBoth;
  }

  /** Main result: at most one query and its repairs are run; all but the last were sent back by the
      review; and success is reported exactly if the last query ran to its end, left a successful reply,
      and was approved or had nothing to review. */
  lemma {:induction false} SuccessIff(cfg: Config, t: Turn, rounds: nat -> Round)
    requires t.repairs <= GEMINI_STRICT_MAX_REPAIR_ATTEMPTS && !t.ended
    ensures var end, last := RunRounds(cfg, t, rounds), LastQuery(cfg, t, rounds);
      && t.repairs <= end.repairs == last.repairs <= GEMINI_STRICT_MAX_REPAIR_ATTEMPTS
      && (forall k | t.repairs <= k < end.repairs :: cfg.strict && rounds(k).review == Some(NeedsChanges))
      && (EndsInSuccess(end) <==>
            && !last.ended && IsResultSuccessful(LastReply(last.stores.local), last.stop)
            && Passes(cfg, rounds(end.repairs)))
      && (EndsInSuccess(end) ==> end.stores == last.stores)
    decreases GEMINI_STRICT_MAX_REPAIR_ATTEMPTS - t.repairs
  {
    var t1 := RunQuery(cfg, t, rounds);
    EventsKeepRepairs(cfg, t.(stop := None), rounds(t.repairs).events);
    EventsNoSuccess(cfg, t.(stop := None), rounds(t.repairs).events);
    if !t1.ended {
      ConcludeSuccess(cfg, t1, rounds(t.repairs));
      var t2 := Conclude(cfg, t1, rounds(t.repairs));
      hide RunEvents, RunQuery, Conclude, EndsInSuccess, Passes, LastReply, IsResultSuccessful;
      if !t2.ended {
        SuccessIff(cfg, t2, rounds);
      }
    }
  }

  /** Main result: the result of a submission is flagged as an error exactly if its last query was stopped,
      left no successful reply, was not approved, or left an API error. */
  lemma ErrorFlagIff(cfg: Config, s: Stores, input: seq<Message>, rounds: nat -> Round)
    ensures var end, last := Submit(cfg, s, input, true, [], rounds), LastQuery(cfg, Opened(s, input), rounds);
      && end.out != [] && end.out[|end.out| - 1].Result?
      && (end.out[|end.out| - 1].isError <==>
            || last.ended || !IsResultSuccessful(LastReply(last.stores.local), last.stop)
            || !Passes(cfg, rounds(end.repairs)) || ReportsApiError(LastReply(last.stores.local)))
  {
    OneResultLast(cfg, s, input, true, [], rounds);
    SuccessIff(cfg, Opened(s, input), rounds);
    ErrorsAreFlagged(cfg, Opened(s, input), rounds);
    hide RunRounds, LastQuery, Passes, IsResultSuccessful, LastReply, Results, ReportsApiError;
  }

  // ---------------------------------------------------------------- the stores over a conversation

  /** What holds between any two steps: each store is its log cut at the last boundary, and unless a snip
      was replayed the local copy is in step with the lasting store. */
  ghost predicate StoresOk(cfg: Config, s: Stores, snipped: bool) {
    Refines(s) && (!snipped ==> InStep(cfg.persist, s))
  }

  predicate HasSnip(events: seq<Event>) {
    exists e :: e in events && SnipOf(e).Some?
  }

  lemma StepStores(cfg: Config, t: Turn, e: Event, snipped: bool)
    requires StoresOk(cfg, t.stores, snipped) && (SnipOf(e).Some? ==> snipped)
    ensures StoresOk(cfg, Step(cfg, t, e).stores, snipped)
  {
    hide Refines, InStep, Receive;
    ReceiveRefines(cfg.persist, t.stores, e.message, SnipOf(e));
    if !snipped {
      ReceiveInStep(cfg.persist, t.stores, e.message);
    }
  }

  lemma {:induction false} EventsStores(cfg: Config, t: Turn, events: seq<Event>, snipped: bool)
    requires StoresOk(cfg, t.stores, snipped) && (HasSnip(events) ==> snipped)
    ensures StoresOk(cfg, RunEvents(cfg, t, events).stores, snipped)
    decreases |events|
  {
    hide StoresOk, Step;
    if events != [] && !t.ended {
      assert events[0] in events && forall e | e in events[1..] :: e in events;
      StepStores(cfg, t, events[0], snipped);
      EventsStores(cfg, Step(cfg, t, events[0]), events[1..], snipped);
    }
  }

  lemma PushBothInStep(persist: bool, s: Stores, m: Message)
    requires InStep(persist, s) && !LastingOnly(persist, m)
    ensures InStep(persist, PushBoth(s, m))
  {
    LastingInStep(persist, s.lasting, s.older, m);
    hide WithoutLastingOnly;
  }

  lemma ConcludeStores(cfg: Config, t: Turn, round: Round, snipped: bool)
    requires StoresOk(cfg, t.stores, snipped)
    ensures StoresOk(cfg, Conclude(cfg, t, round).stores, snipped)
  {
    hide Refines, InStep, PushBoth, LastReply, IsResultSuccessful;
    PushBothRefines(t.stores, REPAIR_PROMPT);
    PushBothRefines(t.stores, REVIEW_FAILURE);
    if !snipped {
      PushBothInStep(cfg.persist, t.stores, REPAIR_PROMPT);
      PushBothInStep(cfg.persist, t.stores, REVIEW_FAILURE);
    }
  }

  lemma {:induction false} RoundsStores(cfg: Config, t: Turn, rounds: nat -> Round, snipped: bool)
    requires t.repairs <= GEMINI_STRICT_MAX_REPAIR_ATTEMPTS && StoresOk(cfg, t.stores, snipped)
    requires forall k | 0 <= k <= GEMINI_STRICT_MAX_REPAIR_ATTEMPTS :: HasSnip(rounds(k).events) ==> snipped
    ensures StoresOk(cfg, RunRounds(cfg, t, rounds).stores, snipped)
    decreases GEMINI_STRICT_MAX_REPAIR_ATTEMPTS - t.repairs
  {
    hide StoresOk, HasSnip, RunEvents, Conclude;
    EventsStores(cfg, t.(stop := None), rounds(t.repairs).events, snipped);
    EventsKeepRepairs(cfg, t.(stop := None), rounds(t.repairs).events);
    var t1 := RunQuery(cfg, t, rounds);
    if !t1.ended {
      ConcludeStores(cfg, t1, rounds(t.repairs), snipped);
      var t2 := Conclude(cfg, t1, rounds(t.repairs));
      if !t2.ended {
        ConcludeRepairs(cfg, t1, rounds(t.repairs));
        RoundsStores(cfg, t2, rounds, snipped);
      }
    }
  }

  lemma ConcludeRepairs(cfg: Config, t: Turn, round: Round)
    requires !t.ended && !Conclude(cfg, t, round).ended
    ensures t.repairs < Conclude(cfg, t, round).repairs <= GEMINI_STRICT_MAX_REPAIR_ATTEMPTS
  {
    ConcludeSuccess(cfg, t, round);
  }

  datatype Submission = Submission(
    cfg: Config, input: seq<Message>, shouldQuery: bool, local: seq<Message>, rounds: nat -> Round)

  function SubmitOne(s: Stores, sub: Submission): Turn {
    Submit(sub.cfg, s, sub.input, sub.shouldQuery, sub.local, sub.rounds)
  }

  predicate Snips(sub: Submission) {
    exists k | 0 <= k <= GEMINI_STRICT_MAX_REPAIR_ATTEMPTS :: HasSnip(sub.rounds(k).events)
  }

  lemma SubmitStores(s: Stores, sub: Submission)
    requires Refines(s)
    ensures StoresOk(sub.cfg, SubmitOne(s, sub).stores, Snips(sub))
  {
    BeginRefines(s, sub.input);
    BeginInStep(sub.cfg.persist, s, sub.input);
    hide Refines, InStep, HasSnip;
    if sub.shouldQuery {
      RoundsStores(sub.cfg, Opened(s, sub.input), sub.rounds, Snips(sub));
    }
  }

  /** The stores after a sequence of submissions to an engine that starts with the given messages. */
  function Conversation(initial: seq<Message>, subs: seq<Submission>): Stores {
    if subs == [] then Stores(initial, [], Uncut(initial), [], |initial|)
    else SubmitOne(Conversation(initial, subs[..|subs| - 1]), subs[|subs| - 1]).stores
  }

  /** Main result: after any conversation, both stores show the model what the uncut logs would show, and
      the local copy differs from the lasting store only by the messages that it is not given. */
  lemma {:induction false} ConversationRefines(initial: seq<Message>, subs: seq<Submission>)
    ensures var s := Conversation(initial, subs);
      && Refines(s)
      && AfterBoundary(s.lasting) == AfterBoundary(All(s.lastingLog))
      && AfterBoundary(s.local) == AfterBoundary(All(s.localLog))
      && (subs != [] && !Snips(subs[|subs| - 1]) ==> InStep(subs[|subs| - 1].cfg.persist, s))
  {
    if subs == [] {
      KeptUncut(initial);
    } else {
      ConversationRefines(initial, subs[..|subs| - 1]);
      hide Refines, InStep, Submit, Snips;
      SubmitStores(Conversation(initial, subs[..|subs| - 1]), subs[|subs| - 1]);
    }
    RefinesViews(Conversation(initial, subs));
  }

  lemma RefinesViews(s: Stores)
    requires Refines(s)
    ensures AfterBoundary(s.lasting) == AfterBoundary(All(s.lastingLog))
    ensures AfterBoundary(s.local) == AfterBoundary(All(s.localLog))
  {
    CutIsInvisible(s.lastingLog);
    CutIsInvisible(s.localLog);
  }

  // ---------------------------------------------------------------- the reported number of turns

  function Users(ms: seq<Message>): nat {
    if ms == [] then 0 else Users(ms[..|ms| - 1]) + if ms[|ms| - 1].User? then 1 else 0
  }

  /** Turns are the user messages received, across repairs; a result reports them, except that the turn
      limit reports the count it was told. */
  ghost predicate TurnsCounted(t: Turn) {
    && t.turnCount == 1 + Users(t.received)
    && (t.ended ==> Reports(t.out, t.turnCount))
  }

  predicate Reports(out: seq<Output>, turnCount: nat) {
    && out != [] && out[|out| - 1].Result?
    && (out[|out| - 1].subtype == ErrorMaxTurns || out[|out| - 1].turns == turnCount)
  }

  lemma StepTurns(cfg: Config, t: Turn, e: Event)
    requires TurnsCounted(t) && !t.ended
    ensures TurnsCounted(Step(cfg, t, e))
  {
    assert (t.received + [e.message])[..|t.received|] == t.received;
    hide Receive, OutputsFor;
  }

  lemma {:induction false} EventsTurns(cfg: Config, t: Turn, events: seq<Event>)
    requires TurnsCounted(t)
    ensures TurnsCounted(RunEvents(cfg, t, events))
    decreases |events|
  {
    hide TurnsCounted, Step;
    if events != [] && !t.ended {
      StepTurns(cfg, t, events[0]);
      EventsTurns(cfg, Step(cfg, t, events[0]), events[1..]);
    }
  }

  lemma ConcludeTurns(cfg: Config, t: Turn, round: Round)
    requires TurnsCounted(t) && !t.ended
    ensures TurnsCounted(Conclude(cfg, t, round))
  {
    hide PushBoth, LastReply, Users;
  }

  lemma {:induction false} RoundsTurns(cfg: Config, t: Turn, rounds: nat -> Round)
    requires t.repairs <= GEMINI_STRICT_MAX_REPAIR_ATTEMPTS && TurnsCounted(t) && !t.ended
    ensures TurnsCounted(RunRounds(cfg, t, rounds))
    decreases GEMINI_STRICT_MAX_REPAIR_ATTEMPTS - t.repairs
  {
    var t0 := t.(stop := None);
    assert TurnsCounted(t0);
    EventsTurns(cfg, t0, rounds(t.repairs).events);
    EventsKeepRepairs(cfg, t0, rounds(t.repairs).events);
    var t1 := RunQuery(cfg, t, rounds);
    if !t1.ended {
      ConcludeTurns(cfg, t1, rounds(t.repairs));
      var t2 := Conclude(cfg, t1, rounds(t.repairs));
      if !t2.ended {
        ConcludeRepairs(cfg, t1, rounds(t.repairs));
        hide TurnsCounted, RunEvents, RunQuery;
        RoundsTurns(cfg, t2, rounds);
      }
    }
  }

  /** Main result: the result reports one turn more than the user messages that were received, over all
      queries of the submission. */
  lemma TurnsReported(cfg: Config, s: Stores, input: seq<Message>, rounds: nat -> Round)
    ensures var t := Submit(cfg, s, input, true, [], rounds);
      t.turnCount == 1 + Users(t.received) && Reports(t.out, t.turnCount)
  {
    OneOutput(Init);
    RoundsResult(cfg, Opened(s, input), rounds);
    RoundsTurns(cfg, Opened(s, input), rounds);
    hide RunRounds;
  }

  // ---------------------------------------------------------------- the engine

  lemma SuccessHasReply(last: Option<Message>, stop: Option<StopReason>)
    requires IsResultSuccessful(last, stop)
    ensures last.Some?
  {
  }

  lemma EventsStart(cfg: Config, t: Turn, events: seq<Event>)
    ensures RunEvents(cfg, t, events[0..]) == RunEvents(cfg, t, events)
  {
    assert events[0..] == events;
  }

  lemma EventsNext(cfg: Config, t: Turn, events: seq<Event>, i: nat)
    requires i < |events| && !t.ended
    ensures RunEvents(cfg, t, events[i..]) == RunEvents(cfg, Step(cfg, t, events[i]), events[i + 1..])
  {
    assert events[i..][1..] == events[i + 1..];
    hide Step;
  }

  lemma EventsDone(cfg: Config, t: Turn, events: seq<Event>)
    requires events == [] || t.ended
    ensures RunEvents(cfg, t, events) == t
  {
  }

  /** A query and the judgement of it. */
  function AfterQuery(cfg: Config, t: Turn, rounds: nat -> Round): Turn {
    var t1 := RunQuery(cfg, t, rounds);
    if t1.ended then t1 else Conclude(cfg, t1, rounds(t.repairs))
  }

  lemma RoundsNext(cfg: Config, t: Turn, rounds: nat -> Round)
    requires t.repairs <= GEMINI_STRICT_MAX_REPAIR_ATTEMPTS && !t.ended
    ensures var t' := AfterQuery(cfg, t, rounds);
      if t'.ended then RunRounds(cfg, t, rounds) == t'
      else
        && t.repairs < t'.repairs <= GEMINI_STRICT_MAX_REPAIR_ATTEMPTS
        && RunRounds(cfg, t, rounds) == RunRounds(cfg, t', rounds)
  {
    EventsKeepRepairs(cfg, t.(stop := None), rounds(t.repairs).events);
    var t1 := RunQuery(cfg, t, rounds);
    if !t1.ended {
      hide RunQuery;
      ConcludeSuccess(cfg, t1, rounds(t.repairs));
      hide Conclude;
    }
  }

  /** The engine with its two stores as it updates them: pushing, and cutting in place at a boundary. */
  class Engine {
    const cfg: Config
    var mutableMessages: seq<Message>
    var messages: seq<Message>
    var turnCount: nat
    var lastStopReason: Option<StopReason>
    var strictRepairAttempts: nat
    var out: seq<Output>
    var ended: bool
    ghost var lastingLog: seq<Pushed>
    ghost var localLog: seq<Pushed>
    ghost var older: nat
    ghost var received: seq<Message>

    ghost function Stores(): EngineStores.Stores
      reads this
    {
      EngineStores.Stores(mutableMessages, messages, lastingLog, localLog, older)
    }

    ghost function State(): Turn
      reads this
    {
      Turn(Stores(), turnCount, lastStopReason, strictRepairAttempts, ended, out, received)
    }

    constructor (cfg: Config, initial: seq<Message>)
      ensures this.cfg == cfg && Stores() == Conversation(initial, [])
    {
      this.cfg, mutableMessages, messages := cfg, initial, [];
      turnCount, lastStopReason, strictRepairAttempts, out, ended := 1, None, 0, [], true;
      lastingLog, localLog, older, received := Uncut(initial), [], |initial|, [];
    }

    method PushMutable(m: Message)
      modifies this`mutableMessages, this`lastingLog
      ensures Stores() == PushLasting(old(Stores()), m)
    {
      mutableMessages := mutableMessages + [m];
      lastingLog := lastingLog + [Pushed(m, false)];
    }

    method PushMessages(m: Message)
      modifies this`messages, this`localLog
      ensures Stores() == PushLocal(old(Stores()), m)
    {
      messages := messages + [m];
      localLog := localLog + [Pushed(m, false)];
    }

    /** A system message: replay a snip, or store it and cut both stores at a compaction boundary. */
    method OnSystem(m: Message, snip: Option<Snip>)
      requires IsSystem(m)
      requires m.CompactBoundary? ==>
                 |messages| > 0 && messages[|messages| - 1] == m
                 && |localLog| > 0 && localLog[|localLog| - 1] == Pushed(m, false)
      modifies this`mutableMessages, this`messages, this`lastingLog, this`localLog, this`older
      ensures var before := old(Stores());
        Stores() ==
          if snip.Some? then Replay(before, snip.value)
          else if m.CompactBoundary? && m.metadata then
            CutBoth(before.(localLog := before.localLog[..|before.localLog| - 1]), m)
          else PushLasting(before, m)
    {
      if snip.Some? {
        if snip.value.executed {
          mutableMessages := snip.value.messages;
          lastingLog, older := Uncut(snip.value.messages), 0;
        }
        return;
      }
      PushMutable(m);
      if m.CompactBoundary? && m.metadata {
        var mutableBoundaryIdx := |mutableMessages| - 1;
        if mutableBoundaryIdx > 0 {
          mutableMessages := mutableMessages[mutableBoundaryIdx..];
        }
        var localBoundaryIdx := |messages| - 1;
        if localBoundaryIdx > 0 {
          messages := messages[localBoundaryIdx..];
        }
        older := 0;
        lastingLog := lastingLog[..|lastingLog| - 1] + [Pushed(m, true)];
        localLog := localLog[..|localLog| - 1] + [Pushed(m, true)];
      }
    }

    /** Stores one yielded message. */
    method StoreMessage(m: Message, snip: Option<Snip>)
      modifies this`mutableMessages, this`messages, this`lastingLog, this`localLog, this`older
      ensures Stores() == Receive(cfg.persist, old(Stores()), m, snip)
    {
      if m.Assistant? || m.User? || m.CompactBoundary? {
        PushMessages(m);
      }
      match m
      case Assistant(_, _, _, _) => PushMutable(m);
      case User(_, _) => PushMutable(m);
      case Progress(_) =>
        PushMutable(m);
        if cfg.persist {
          PushMessages(m);
        }
      case Attachment(_, _) =>
        PushMutable(m);
        if cfg.persist {
          PushMessages(m);
        }
      case CompactBoundary(_, _) => OnSystem(m, snip);
      case OtherSystem(_, _) => OnSystem(m, snip);
      case Tombstone(_) =>
      case RequestStart =>
      case StreamEvent(_) =>
      case Summary(_) =>
    }

    /** Handles one yielded message; afterwards the submission may have ended. */
    method OnMessage(e: Event)
      modifies this
      ensures State() == Step(cfg, old(State()), e)
    {
      hide Receive;
      var m := e.message;
      StoreMessage(m, SnipOf(e));
      received := received + [m];
      if m.User? {
        turnCount := turnCount + 1;
      }
      if (m.Assistant? || m.StreamEvent?) && m.stop.Some? {
        lastStopReason := m.stop;
      }
      out := out + OutputsFor(cfg, e);
      ended := false;
      var halt := Halt(cfg, e, turnCount);
      if halt.Some? {
        out := out + [halt.value];
        ended := true;
      } else {
        assert out + [] == out;
      }
    }

    /** Judges a query that has run to its end. */
    method Judge(round: Round)
      requires !ended
      modifies this
      ensures State() == Conclude(cfg, old(State()), round)
    {
      hide LastReply, IsResultSuccessful;
      var result := LastReply(messages);
      if !IsResultSuccessful(result, lastStopReason) {
        out := out + [Result(ErrorDuringExecution, true, turnCount)];
        ended := true;
        return;
      }
      if cfg.strict && round.review.Some? {
        if round.review.value == NeedsChanges && strictRepairAttempts < GEMINI_STRICT_MAX_REPAIR_ATTEMPTS {
          strictRepairAttempts := strictRepairAttempts + 1;
          PushMutable(REPAIR_PROMPT);
          PushMessages(REPAIR_PROMPT);
          return;
        }
        if round.review.value != Approve {
          PushMutable(REVIEW_FAILURE);
          PushMessages(REVIEW_FAILURE);
          out := out + [Shown(REVIEW_FAILURE)];
          out := out + [Result(ErrorDuringExecution, true, turnCount)];
          ended := true;
          return;
        }
      }
      assert result.Some? by { SuccessHasReply(result, lastStopReason); }
      out := out + [Result(Success, result.value.Assistant? && result.value.isApiError, turnCount)];
      ended := true;
    }

    /** One query, message by message, and the judgement of it. */
    method RunOneQuery(rounds: nat -> Round)
      requires !ended && strictRepairAttempts <= GEMINI_STRICT_MAX_REPAIR_ATTEMPTS
      modifies this
      ensures State() == AfterQuery(cfg, old(State()), rounds)
    {
      hide RunEvents, Conclude, Step;
      var round := rounds(strictRepairAttempts);
      lastStopReason := None;
      ghost var before := State();
      EventsStart(cfg, before, round.events);
      var i := 0;
      while i < |round.events| && !ended
        invariant i <= |round.events|
        invariant RunEvents(cfg, State(), round.events[i..]) == RunEvents(cfg, before, round.events)
        decreases |round.events| - i
      {
        EventsNext(cfg, State(), round.events, i);
        OnMessage(round.events[i]);
        i := i + 1;
      }
      EventsDone(cfg, State(), round.events[i..]);
      if !ended {
        Judge(round);
      }
    }

    /** Takes in the user's messages and copies the store for this submission. */
    method BeginSubmission(input: seq<Message>)
      modifies this
      ensures State() == Opened(old(Stores()), input)
    {
      mutableMessages := mutableMessages + input;
      messages := mutableMessages;
      lastingLog := lastingLog + Uncut(input);
      localLog, older, received := lastingLog, |mutableMessages|, [];
      turnCount, lastStopReason, strictRepairAttempts, ended, out := 1, None, 0, false, [Init];
    }

    /** Queries until one of them ends the submission. */
    method RunQueries(rounds: nat -> Round)
      requires !ended && strictRepairAttempts <= GEMINI_STRICT_MAX_REPAIR_ATTEMPTS
      modifies this
      ensures State() == RunRounds(cfg, old(State()), rounds)
    {
      hide RunRounds, AfterQuery;
      ghost var start := State();
      while !ended
        invariant ended || strictRepairAttempts <= GEMINI_STRICT_MAX_REPAIR_ATTEMPTS
        invariant start.repairs <= GEMINI_STRICT_MAX_REPAIR_ATTEMPTS
        invariant if ended then State() == RunRounds(cfg, start, rounds)
                  else RunRounds(cfg, State(), rounds) == RunRounds(cfg, start, rounds)
        decreases !ended, GEMINI_STRICT_MAX_REPAIR_ATTEMPTS - strictRepairAttempts
      {
        RoundsNext(cfg, State(), rounds);
        RunOneQuery(rounds);
      }
    }

    /** A submission. */
    method SubmitMessage(input: seq<Message>, shouldQuery: bool, local: seq<Message>, rounds: nat -> Round)
      modifies this
      ensures State() == Submit(cfg, old(Stores()), input, shouldQuery, local, rounds)
      ensures ended && Results(out) == 1 && out[|out| - 1].Result?
      ensures old(Refines(Stores())) ==> Refines(Stores())
    {
      ghost var before := Stores();
      OneResultLast(cfg, before, input, shouldQuery, local, rounds);
      if Refines(before) {
        SubmitStores(before, Submission(cfg, input, shouldQuery, local, rounds));
      }
      hide Refines, Results;
      BeginSubmission(input);
      if shouldQuery {
        hide RunRounds;
        RunQueries(rounds);
      } else {
        out := out + seq(|local|, i requires 0 <= i < |local| => Shown(local[i]));
        out := out + [Result(Success, false, |messages| - 1)];
        ended := true;
      }
    }
  }
}
