/** Session costs: adding the cost of a reply and of the advisor replies nested in it, totals per model,
    regrouping by short name, and saving and restoring (source/src/cost-tracker.ts). Costs are exact. */
module CostTracker {
  import opened Options

  type Model = string

  /** The counters that are added up. */
  datatype Counters = Counters(input: nat, output: nat, cacheRead: nat, cacheCreation: nat, webSearch: nat, cost: real)

  const ZERO := Counters(0, 0, 0, 0, 0, 0.0)

  function Plus(a: Counters, b: Counters): Counters {
    Counters(a.input + b.input, a.output + b.output, a.cacheRead + b.cacheRead,
             a.cacheCreation + b.cacheCreation, a.webSearch + b.webSearch, a.cost + b.cost)
  }

  datatype Limits = Limits(contextWindow: nat, maxOutputTokens: nat)

  datatype ModelUsage = ModelUsage(counters: Counters, limits: Limits)

  /** A dictionary by model, in insertion order. */
  datatype Entry = Entry(model: Model, usage: ModelUsage)

  /** The usage block of a reply. Its iterations may include advisor replies with usage of their own. */
  datatype Usage = Usage(
    input: nat, output: nat,
    cacheRead: Option<nat>, cacheCreation: Option<nat>, webSearch: Option<nat>,
    iterations: seq<Iteration>)

  datatype Iteration = OtherIteration | AdvisorMessage(model: Model, usage: Usage)

  /** What the tracker is configured with: prices, model limits and short names. */
  datatype Catalog = Catalog(price: (Model, Usage) -> real, limits: Model -> Limits, shortName: Model -> Model)

  // ---------------------------------------------------------------- dictionaries

  predicate Has(es: seq<Entry>, model: Model) { exists i :: 0 <= i < |es| && es[i].model == model }

  predicate DistinctModels(es: seq<Entry>) {
    forall i, j | 0 <= i < j < |es| :: es[i].model != es[j].model
  }

  function Get(es: seq<Entry>, model: Model): Option<ModelUsage> {
    if es == [] then None
    else if es[|es| - 1].model == model then Some(es[|es| - 1].usage)
    else Get(es[..|es| - 1], model)
  }

  function Replace(es: seq<Entry>, model: Model, usage: ModelUsage): seq<Entry> {
    if es == [] then []
    else
      Replace(es[..|es| - 1], model, usage)
      + [if es[|es| - 1].model == model then Entry(model, usage) else es[|es| - 1]]
  }

  /** Assigns an entry in place, or adds it at the end. */
  function Put(es: seq<Entry>, model: Model, usage: ModelUsage): seq<Entry> {
    if Get(es, model).Some? then Replace(es, model, usage) else es + [Entry(model, usage)]
  }

  function Sum(es: seq<Entry>): Counters {
    if es == [] then ZERO else Plus(Sum(es[..|es| - 1]), es[|es| - 1].usage.counters)
  }

  lemma {:induction false} GetIsHas(es: seq<Entry>, model: Model)
    ensures Get(es, model).Some? <==> Has(es, model)
  {
    if es != [] {
      GetIsHas(es[..|es| - 1], model);
      assert forall i | 0 <= i < |es| - 1 :: es[..|es| - 1][i] == es[i];
      if es[|es| - 1].model != model && Has(es, model) {
        var i :| 0 <= i < |es| && es[i].model == model;
        assert es[..|es| - 1][i].model == model;
      }
    }
  }

  lemma {:induction false} ReplaceKeepsModels(es: seq<Entry>, model: Model, usage: ModelUsage)
    ensures |Replace(es, model, usage)| == |es|
    ensures forall i | 0 <= i < |es| :: Replace(es, model, usage)[i]
              == if es[i].model == model then Entry(model, usage) else es[i]
  {
    if es != [] {
      ReplaceKeepsModels(es[..|es| - 1], model, usage);
    }
  }

  lemma {:induction false} ReplaceAbsent(es: seq<Entry>, model: Model, usage: ModelUsage)
    requires !Has(es, model)
    ensures Replace(es, model, usage) == es
  {
    ReplaceKeepsModels(es, model, usage);
  }

  lemma PutDistinct(es: seq<Entry>, model: Model, usage: ModelUsage)
    requires DistinctModels(es)
    ensures DistinctModels(Put(es, model, usage))
  {
    GetIsHas(es, model);
    ReplaceKeepsModels(es, model, usage);
  }

  lemma PlusArith(a: Counters, b: Counters, c: Counters)
    ensures Plus(Plus(a, b), c) == Plus(Plus(a, c), b) == Plus(a, Plus(b, c))
    ensures Plus(a, ZERO) == a == Plus(ZERO, a)
  {
  }

  /** What the dictionary holds for a model; nothing yet counts as zero. */
  function CountersOf(es: seq<Entry>, model: Model): Counters {
    match Get(es, model)
    case None => ZERO
    case Some(usage) => usage.counters
  }

  lemma ReplaceInit(es: seq<Entry>, model: Model, u: ModelUsage)
    requires es != []
    ensures |Replace(es, model, u)| == |es|
    ensures Replace(es, model, u)[..|es| - 1] == Replace(es[..|es| - 1], model, u)
    ensures Sum(Replace(es, model, u))
            == Plus(Sum(Replace(es[..|es| - 1], model, u)),
                    if es[|es| - 1].model == model then u.counters else es[|es| - 1].usage.counters)
  {
    ReplaceKeepsModels(es[..|es| - 1], model, u);
    hide Plus;
  }

  lemma {:induction false} ReplaceSum(es: seq<Entry>, model: Model, delta: Counters, limits: Limits)
    requires DistinctModels(es) && Has(es, model)
    ensures Sum(Replace(es, model, ModelUsage(Plus(CountersOf(es, model), delta), limits))) == Plus(Sum(es), delta)
  {
    var init, last := es[..|es| - 1], es[|es| - 1];
    var u := ModelUsage(Plus(CountersOf(es, model), delta), limits);
    ReplaceInit(es, model, u);
    if last.model == model {
      assert !Has(init, model);
      ReplaceAbsent(init, model, u);
      PlusArith(Sum(init), last.usage.counters, delta);
      hide Plus, Replace;
    } else {
      var i :| 0 <= i < |es| && es[i].model == model;
      assert init[i].model == model;
      ReplaceSum(init, model, delta, limits);
      PlusArith(Sum(init), delta, last.usage.counters);
      hide Plus, Replace;
    }
  }

  /** Adding to one model's counters adds exactly that to the sum over all models. */
  lemma PutSum(es: seq<Entry>, model: Model, delta: Counters, limits: Limits)
    requires DistinctModels(es)
    ensures Sum(Put(es, model, ModelUsage(Plus(CountersOf(es, model), delta), limits))) == Plus(Sum(es), delta)
  {
    GetIsHas(es, model);
    var u := ModelUsage(Plus(CountersOf(es, model), delta), limits);
    if Has(es, model) {
      ReplaceSum(es, model, delta, limits);
    } else {
      assert (es + [Entry(model, u)])[..|es|] == es;
    }
  }

  // ---------------------------------------------------------------- adding the cost of a reply

  datatype Ledger = Ledger(total: real, byModel: seq<Entry>)

  /** What one reply, without its advisors, adds. */
  function Delta(cost: real, usage: Usage): Counters {
    Counters(usage.input, usage.output, usage.cacheRead.Or(0), usage.cacheCreation.Or(0), usage.webSearch.Or(0), cost)
  }

  function Charge(cat: Catalog, l: Ledger, cost: real, usage: Usage, model: Model): Ledger {
    Ledger(
      l.total + cost,
      Put(l.byModel, model, ModelUsage(Plus(CountersOf(l.byModel, model), Delta(cost, usage)), cat.limits(model))))
  }

  function ChargeTree(cat: Catalog, l: Ledger, cost: real, usage: Usage, model: Model): Ledger
    decreases usage, 1
  {
    ChargeAdvisors(cat, Charge(cat, l, cost, usage, model), usage, |usage.iterations|)
  }

  function ChargeAdvisors(cat: Catalog, l: Ledger, usage: Usage, n: nat): Ledger
    requires n <= |usage.iterations|
    decreases usage, 0, n
  {
    if n == 0 then l
    else
      var before := ChargeAdvisors(cat, l, usage, n - 1);
      match usage.iterations[n - 1]
      case OtherIteration => before
      case AdvisorMessage(model, u) => ChargeTree(cat, before, cat.price(model, u), u, model)
  }

  /** The counters of a reply and of all advisor replies below it. */
  function Tree(cat: Catalog, cost: real, usage: Usage): Counters
    decreases usage, 1
  {
    Plus(Delta(cost, usage), Advisors(cat, usage, |usage.iterations|))
  }

  function Advisors(cat: Catalog, usage: Usage, n: nat): Counters
    requires n <= |usage.iterations|
    decreases usage, 0, n
  {
    if n == 0 then ZERO
    else
      var before := Advisors(cat, usage, n - 1);
      match usage.iterations[n - 1]
      case OtherIteration => before
      case AdvisorMessage(model, u) => Plus(before, Tree(cat, cat.price(model, u), u))
  }

  /** Main result: charging a reply adds exactly the sum of its tree, both to the session total and to the
      sum over the models. */
  lemma {:induction false} TreeCharged(cat: Catalog, l: Ledger, cost: real, usage: Usage, model: Model)
    requires DistinctModels(l.byModel)
    ensures var l' := ChargeTree(cat, l, cost, usage, model); var tree := Tree(cat, cost, usage);
      && DistinctModels(l'.byModel)
      && l'.total == l.total + tree.cost
      && Sum(l'.byModel) == Plus(Sum(l.byModel), tree)
    decreases usage, 1
  {
    var l1 := Charge(cat, l, cost, usage, model);
    var delta := Delta(cost, usage);
    PutDistinct(l.byModel, model, ModelUsage(Plus(CountersOf(l.byModel, model), delta), cat.limits(model)));
    PutSum(l.byModel, model, delta, cat.limits(model));
    AdvisorsCharged(cat, l1, usage, |usage.iterations|);
    PlusArith(Sum(l.byModel), delta, Advisors(cat, usage, |usage.iterations|));
  }

  lemma {:induction false} AdvisorsCharged(cat: Catalog, l: Ledger, usage: Usage, n: nat)
    requires DistinctModels(l.byModel) && n <= |usage.iterations|
    ensures var l' := ChargeAdvisors(cat, l, usage, n); var more := Advisors(cat, usage, n);
      && DistinctModels(l'.byModel)
      && l'.total == l.total + more.cost
      && Sum(l'.byModel) == Plus(Sum(l.byModel), more)
    decreases usage, 0, n
  {
    if n == 0 {
      PlusArith(Sum(l.byModel), ZERO, ZERO);
    } else {
      AdvisorsCharged(cat, l, usage, n - 1);
      match usage.iterations[n - 1]
      case OtherIteration =>
      case AdvisorMessage(model, u) =>
        var before := ChargeAdvisors(cat, l, usage, n - 1);
        TreeCharged(cat, before, cat.price(model, u), u, model);
        PlusArith(Sum(l.byModel), Advisors(cat, usage, n - 1), Tree(cat, cat.price(model, u), u));
    }
  }

  lemma {:induction false} GetReplace(es: seq<Entry>, model: Model, usage: ModelUsage, m: Model)
    ensures Get(Replace(es, model, usage), m)
            == if m == model && Has(es, model) then Some(usage) else Get(es, m)
  {
    if es != [] {
      var init := es[..|es| - 1];
      GetReplace(init, model, usage, m);
      GetIsHas(es, model);
      GetIsHas(init, model);
      assert Replace(es, model, usage)[..|es| - 1] == Replace(init, model, usage) by {
        ReplaceKeepsModels(init, model, usage);
      }
    }
  }

  lemma GetPut(es: seq<Entry>, model: Model, usage: ModelUsage, m: Model)
    ensures Get(Put(es, model, usage), m) == if m == model then Some(usage) else Get(es, m)
  {
    GetIsHas(es, model);
    GetReplace(es, model, usage, m);
    assert (es + [Entry(model, usage)])[..|es|] == es;
  }

  /** The part of a reply's tree that belongs to one model. */
  function Share(cat: Catalog, cost: real, usage: Usage, model: Model, m: Model): Counters
    decreases usage, 1
  {
    Plus(if m == model then Delta(cost, usage) else ZERO, AdvisorShare(cat, usage, |usage.iterations|, m))
  }

  function AdvisorShare(cat: Catalog, usage: Usage, n: nat, m: Model): Counters
    requires n <= |usage.iterations|
    decreases usage, 0, n
  {
    if n == 0 then ZERO
    else
      var before := AdvisorShare(cat, usage, n - 1, m);
      match usage.iterations[n - 1]
      case OtherIteration => before
      case AdvisorMessage(model, u) => Plus(before, Share(cat, cat.price(model, u), u, model, m))
  }

  /** Main result: every model is charged its own share of the tree. */
  lemma {:induction false} ShareCharged(cat: Catalog, l: Ledger, cost: real, usage: Usage, model: Model, m: Model)
    ensures CountersOf(ChargeTree(cat, l, cost, usage, model).byModel, m)
            == Plus(CountersOf(l.byModel, m), Share(cat, cost, usage, model, m))
    decreases usage, 1
  {
    var delta := Delta(cost, usage);
    var l1 := Charge(cat, l, cost, usage, model);
    GetPut(l.byModel, model, ModelUsage(Plus(CountersOf(l.byModel, model), delta), cat.limits(model)), m);
    AdvisorShareCharged(cat, l1, usage, |usage.iterations|, m);
    PlusArith(CountersOf(l.byModel, m), if m == model then delta else ZERO,
              AdvisorShare(cat, usage, |usage.iterations|, m));
    PlusArith(CountersOf(l.byModel, m), ZERO, ZERO);
    hide Put, CountersOf, AdvisorShare, ChargeAdvisors, Delta;
  }

  lemma {:induction false} AdvisorShareCharged(cat: Catalog, l: Ledger, usage: Usage, n: nat, m: Model)
    requires n <= |usage.iterations|
    ensures CountersOf(ChargeAdvisors(cat, l, usage, n).byModel, m)
            == Plus(CountersOf(l.byModel, m), AdvisorShare(cat, usage, n, m))
    decreases usage, 0, n
  {
    if n == 0 {
      PlusArith(CountersOf(l.byModel, m), ZERO, ZERO);
    } else {
      AdvisorShareCharged(cat, l, usage, n - 1, m);
      match usage.iterations[n - 1]
      case OtherIteration =>
      case AdvisorMessage(model, u) =>
        var before := ChargeAdvisors(cat, l, usage, n - 1);
        ShareCharged(cat, before, cat.price(model, u), u, model, m);
        PlusArith(CountersOf(l.byModel, m), AdvisorShare(cat, usage, n - 1, m),
                  Share(cat, cat.price(model, u), u, model, m));
    }
  }

  // ---------------------------------------------------------------- a session

  datatype Call = Call(cost: real, usage: Usage, model: Model)

  function Session(cat: Catalog, calls: seq<Call>): Ledger {
    if calls == [] then Ledger(0.0, [])
    else
      var c := calls[|calls| - 1];
      ChargeTree(cat, Session(cat, calls[..|calls| - 1]), c.cost, c.usage, c.model)
  }

  /** The sum of what the calls returned. */
  function Returned(cat: Catalog, calls: seq<Call>): Counters {
    if calls == [] then ZERO
    else
      var c := calls[|calls| - 1];
      Plus(Returned(cat, calls[..|calls| - 1]), Tree(cat, c.cost, c.usage))
  }

  /** Main result: over any calls the session total, the sum of the per-model costs and the sum of the
      returned totals agree. */
  lemma {:induction false} SessionAgrees(cat: Catalog, calls: seq<Call>)
    ensures var l := Session(cat, calls);
      && DistinctModels(l.byModel)
      && l.total == Sum(l.byModel).cost == Returned(cat, calls).cost
      && Sum(l.byModel) == Returned(cat, calls)
  {
    if calls != [] {
      var c := calls[|calls| - 1];
      var before := calls[..|calls| - 1];
      SessionAgrees(cat, before);
      TreeCharged(cat, Session(cat, before), c.cost, c.usage, c.model);
      hide Tree, Sum, ChargeTree;
    }
  }

  // ---------------------------------------------------------------- limits

  /** Every entry carries the limits of its model. */
  ghost predicate Limited(cat: Catalog, es: seq<Entry>) {
    forall e | e in es :: e.usage.limits == cat.limits(e.model)
  }

  lemma PutLimited(cat: Catalog, es: seq<Entry>, model: Model, usage: ModelUsage)
    requires Limited(cat, es) && usage.limits == cat.limits(model)
    ensures Limited(cat, Put(es, model, usage))
  {
    ReplaceKeepsModels(es, model, usage);
    var out := Put(es, model, usage);
    forall e | e in out ensures e.usage.limits == cat.limits(e.model) {
      var i :| 0 <= i < |out| && out[i] == e;
      if i < |es| {
        assert es[i] in es;
      }
    }
  }

  lemma {:induction false} TreeLimited(cat: Catalog, l: Ledger, cost: real, usage: Usage, model: Model)
    requires Limited(cat, l.byModel)
    ensures Limited(cat, ChargeTree(cat, l, cost, usage, model).byModel)
    decreases usage, 1
  {
    hide Limited, Put;
    PutLimited(cat, l.byModel, model,
               ModelUsage(Plus(CountersOf(l.byModel, model), Delta(cost, usage)), cat.limits(model)));
    AdvisorsLimited(cat, Charge(cat, l, cost, usage, model), usage, |usage.iterations|);
  }

  lemma {:induction false} AdvisorsLimited(cat: Catalog, l: Ledger, usage: Usage, n: nat)
    requires Limited(cat, l.byModel) && n <= |usage.iterations|
    ensures Limited(cat, ChargeAdvisors(cat, l, usage, n).byModel)
    decreases usage, 0, n
  {
    hide Limited;
    if n > 0 {
      AdvisorsLimited(cat, l, usage, n - 1);
      match usage.iterations[n - 1]
      case OtherIteration =>
      case AdvisorMessage(model, u) =>
        TreeLimited(cat, ChargeAdvisors(cat, l, usage, n - 1), cat.price(model, u), u, model);
    }
  }

  // ---------------------------------------------------------------- regrouping by short name

  /** The usage added up under the short names, in the order in which the names first occur. */
  function Regroup(cat: Catalog, es: seq<Entry>): seq<Entry> {
    if es == [] then []
    else
      var before, e := Regroup(cat, es[..|es| - 1]), es[|es| - 1];
      Put(before, cat.shortName(e.model),
          ModelUsage(Plus(CountersOf(before, cat.shortName(e.model)), e.usage.counters), Limits(0, 0)))
  }

  /** The counters of all models with the given short name. */
  function Named(cat: Catalog, es: seq<Entry>, name: Model): Counters {
    if es == [] then ZERO
    else
      Plus(Named(cat, es[..|es| - 1], name),
           if cat.shortName(es[|es| - 1].model) == name then es[|es| - 1].usage.counters else ZERO)
  }

  lemma {:induction false} RegroupSum(cat: Catalog, es: seq<Entry>)
    ensures DistinctModels(Regroup(cat, es)) && Sum(Regroup(cat, es)) == Sum(es)
  {
    if es != [] {
      var before, e := Regroup(cat, es[..|es| - 1]), es[|es| - 1];
      var short := cat.shortName(e.model);
      RegroupSum(cat, es[..|es| - 1]);
      hide Plus, Put, CountersOf, DistinctModels;
      PutDistinct(before, short, ModelUsage(Plus(CountersOf(before, short), e.usage.counters), Limits(0, 0)));
      PutSum(before, short, e.usage.counters, Limits(0, 0));
    }
  }

  lemma CountersPut(es: seq<Entry>, model: Model, usage: ModelUsage, m: Model)
    ensures CountersOf(Put(es, model, usage), m) == if m == model then usage.counters else CountersOf(es, m)
  {
    GetPut(es, model, usage, m);
    hide Put, Get;
  }

  lemma RegroupNext(cat: Catalog, es: seq<Entry>, name: Model)
    requires es != []
    ensures var before, e := Regroup(cat, es[..|es| - 1]), es[|es| - 1];
      var short := cat.shortName(e.model);
      CountersOf(Regroup(cat, es), name)
      == if name == short then Plus(CountersOf(before, short), e.usage.counters) else CountersOf(before, name)
  {
    var before, e := Regroup(cat, es[..|es| - 1]), es[|es| - 1];
    var short := cat.shortName(e.model);
    CountersPut(before, short, ModelUsage(Plus(CountersOf(before, short), e.usage.counters), Limits(0, 0)), name);
    hide Plus, Put, CountersOf;
  }

  lemma NamedNext(cat: Catalog, es: seq<Entry>, name: Model)
    ensures es == [] ==> Named(cat, es, name) == ZERO == CountersOf(Regroup(cat, es), name)
    ensures es != [] ==>
              Named(cat, es, name)
              == if name == cat.shortName(es[|es| - 1].model)
                 then Plus(Named(cat, es[..|es| - 1], name), es[|es| - 1].usage.counters)
                 else Named(cat, es[..|es| - 1], name)
  {
    if es == [] {
      assert Regroup(cat, es) == [];
    } else {
      PlusArith(Named(cat, es[..|es| - 1], name), ZERO, ZERO);
    }
  }

  lemma {:induction false} RegroupNamed(cat: Catalog, es: seq<Entry>, name: Model)
    ensures CountersOf(Regroup(cat, es), name) == Named(cat, es, name)
  {
    hide *;
    NamedNext(cat, es, name);
    if es != [] {
      RegroupNamed(cat, es[..|es| - 1], name);
      RegroupNext(cat, es, name);
    }
  }

  /** Main result: regrouping keeps every sum, and each short name holds the sum of its models. */
  lemma RegroupKeeps(cat: Catalog, es: seq<Entry>, name: Model)
    ensures DistinctModels(Regroup(cat, es)) && Sum(Regroup(cat, es)) == Sum(es)
    ensures CountersOf(Regroup(cat, es), name) == Named(cat, es, name)
  {
    hide *;
    RegroupSum(cat, es);
    RegroupNamed(cat, es, name);
  }

  // ---------------------------------------------------------------- saving and restoring

  /** The cost state of the process. */
  datatype State = State(
    ledger: Ledger,
    apiDuration: nat,
    apiDurationWithoutRetries: nat,
    toolDuration: nat,
    linesAdded: nat,
    linesRemoved: nat,
    startTime: int,
    sessionId: string)

  /** What the project configuration remembers of the last session; every field may be absent. */
  datatype Saved = Saved(
    lastSessionId: Option<string>,
    lastCost: Option<real>,
    lastAPIDuration: Option<nat>,
    lastAPIDurationWithoutRetries: Option<nat>,
    lastToolDuration: Option<nat>,
    lastLinesAdded: Option<nat>,
    lastLinesRemoved: Option<nat>,
    lastDuration: Option<int>,
    lastTotals: Option<Counters>,
    lastModelUsage: Option<seq<(Model, Counters)>>)

  function Duration(st: State, now: int): int { now - st.startTime }

  function SavedUsage(es: seq<Entry>): seq<(Model, Counters)> {
    seq(|es|, i requires 0 <= i < |es| => (es[i].model, es[i].usage.counters))
  }

  function RestoredUsage(cat: Catalog, us: seq<(Model, Counters)>): seq<Entry> {
    seq(|us|, i requires 0 <= i < |us| => Entry(us[i].0, ModelUsage(us[i].1, cat.limits(us[i].0))))
  }

  function Save(st: State, now: int): Saved {
    Saved(Some(st.sessionId), Some(st.ledger.total), Some(st.apiDuration), Some(st.apiDurationWithoutRetries),
          Some(st.toolDuration), Some(st.linesAdded), Some(st.linesRemoved), Some(Duration(st, now)),
          Some(Sum(st.ledger.byModel).(cost := 0.0)), Some(SavedUsage(st.ledger.byModel)))
  }

  /** The state after restoring a session, and whether anything was restored. */
  function Restore(cat: Catalog, st: State, saved: Saved, sessionId: string, now: int): (State, bool) {
    if saved.lastSessionId != Some(sessionId) then (st, false)
    else
      var duration := saved.lastDuration.Or(0);
      (State(
         Ledger(saved.lastCost.Or(0.0),
                match saved.lastModelUsage
                case None => st.ledger.byModel
                case Some(us) => RestoredUsage(cat, us)),
         saved.lastAPIDuration.Or(0), saved.lastAPIDurationWithoutRetries.Or(0), saved.lastToolDuration.Or(0),
         saved.lastLinesAdded.Or(0), saved.lastLinesRemoved.Or(0),
         if duration != 0 then now - duration else st.startTime,
         st.sessionId), true)
  }

  /** Everything but the clock and the session id. */
  predicate SameCosts(a: State, b: State) {
    && a.ledger == b.ledger
    && a.apiDuration == b.apiDuration && a.apiDurationWithoutRetries == b.apiDurationWithoutRetries
    && a.toolDuration == b.toolDuration
    && a.linesAdded == b.linesAdded && a.linesRemoved == b.linesRemoved
  }

  lemma UsageRestored(cat: Catalog, es: seq<Entry>)
    requires Limited(cat, es)
    ensures RestoredUsage(cat, SavedUsage(es)) == es
  {
    var back := RestoredUsage(cat, SavedUsage(es));
    forall i | 0 <= i < |es| ensures back[i] == es[i] {
      assert es[i] in es;
    }
  }

  /** Main result: restoring a saved session brings back all costs and the usage of every model, whatever
      the process had counted in between; the wall clock continues where it stopped, unless nothing had
      elapsed, in which case the clock of the restoring process is left as it is. */
  lemma SaveThenRestore(cat: Catalog, st: State, now: int, other: State, later: int)
    requires Limited(cat, st.ledger.byModel)
    ensures var (back, restored) := Restore(cat, other, Save(st, now), st.sessionId, later);
      && restored
      && SameCosts(back, st)
      && back.sessionId == other.sessionId
      && (Duration(back, later) == Duration(st, now) <==> Duration(st, now) != 0 || other.startTime == later)
  {
    UsageRestored(cat, st.ledger.byModel);
  }

  /** Only the session that was saved last is restored; any other id leaves the state as it is. */
  lemma RestoresOnlyTheSaved(cat: Catalog, st: State, saved: Saved, sessionId: string, now: int)
    ensures var (back, restored) := Restore(cat, st, saved, sessionId, now);
      && (restored <==> saved.lastSessionId == Some(sessionId))
      && (!restored ==> back == st)
      && (restored && saved.lastModelUsage.None? ==> back.ledger.byModel == st.ledger.byModel)
  {
  }

  /** A session that only charged replies is restored exactly. */
  lemma SessionSurvives(cat: Catalog, calls: seq<Call>, st: State, now: int, other: State, later: int)
    requires st.ledger == Session(cat, calls)
    ensures SameCosts(Restore(cat, other, Save(st, now), st.sessionId, later).0, st)
  {
    SessionLimited(cat, calls);
    SaveThenRestore(cat, st, now, other, later);
  }

  lemma {:induction false} SessionLimited(cat: Catalog, calls: seq<Call>)
    ensures Limited(cat, Session(cat, calls).byModel)
  {
    hide Limited, ChargeTree;
    if calls != [] {
      var c := calls[|calls| - 1];
      SessionLimited(cat, calls[..|calls| - 1]);
      TreeLimited(cat, Session(cat, calls[..|calls| - 1]), c.cost, c.usage, c.model);
    } else {
      NothingLimited(cat);
    }
  }

  lemma NothingLimited(cat: Catalog)
    ensures Limited(cat, [])
  {
  }

  // ---------------------------------------------------------------- the tracker

  class Tracker {
    const cat: Catalog
    var totalCostUSD: real
    var modelUsage: seq<Entry>

    function State(): Ledger
      reads this
    {
      Ledger(totalCostUSD, modelUsage)
    }

    constructor (cat: Catalog)
      ensures this.cat == cat && State() == Session(cat, [])
    {
      this.cat, totalCostUSD, modelUsage := cat, 0.0, [];
    }

    /** The usage of the model with this reply added, field by field. */
    method AddToTotalModelUsage(cost: real, usage: Usage, model: Model) returns (r: ModelUsage)
      ensures r == ModelUsage(Plus(CountersOf(modelUsage, model), Delta(cost, usage)), cat.limits(model))
    {
      var counters := ZERO;
      var known := Get(modelUsage, model);
      if known.Some? {
        counters := known.value.counters;
      }
      counters := counters.(input := counters.input + usage.input);
      counters := counters.(output := counters.output + usage.output);
      counters := counters.(cacheRead := counters.cacheRead + usage.cacheRead.Or(0));
      counters := counters.(cacheCreation := counters.cacheCreation + usage.cacheCreation.Or(0));
      counters := counters.(webSearch := counters.webSearch + usage.webSearch.Or(0));
      counters := counters.(cost := counters.cost + cost);
      r := ModelUsage(counters, cat.limits(model));
    }

    /** Charges a reply and, recursively, its advisors; returns the cost of the whole tree. */
    method AddToTotalSessionCost(cost: real, usage: Usage, model: Model) returns (totalCost: real)
      modifies this
      ensures State() == ChargeTree(cat, old(State()), cost, usage, model)
      ensures totalCost == Tree(cat, cost, usage).cost
      decreases usage
    {
      var updated := AddToTotalModelUsage(cost, usage, model);
      modelUsage := Put(modelUsage, model, updated);
      totalCostUSD := totalCostUSD + cost;
      ghost var charged := State();
      totalCost := cost;
      for i := 0 to |usage.iterations|
        invariant State() == ChargeAdvisors(cat, charged, usage, i)
        invariant totalCost == cost + Advisors(cat, usage, i).cost
      {
        if usage.iterations[i].AdvisorMessage? {
          var advisor := usage.iterations[i];
          var advisorCost := cat.price(advisor.model, advisor.usage);
          var more := AddToTotalSessionCost(advisorCost, advisor.usage, advisor.model);
          totalCost := totalCost + more;
        }
      }
    }

    /** The accumulation loop of the usage display. */
    method UsageByShortName() returns (usageByShortName: seq<Entry>)
      ensures usageByShortName == Regroup(cat, modelUsage)
    {
      usageByShortName := [];
      for i := 0 to |modelUsage|
        invariant usageByShortName == Regroup(cat, modelUsage[..i])
      {
        assert modelUsage[..i + 1][..i] == modelUsage[..i];
        var usage := modelUsage[i].usage;
        var shortName := cat.shortName(modelUsage[i].model);
        var accumulated := ModelUsage(ZERO, Limits(0, 0));
        var known := Get(usageByShortName, shortName);
        if known.Some? {
          accumulated := accumulated.(counters := known.value.counters);
        }
        accumulated := accumulated.(counters := Plus(accumulated.counters, usage.counters));
        usageByShortName := Put(usageByShortName, shortName, accumulated);
      }
      assert modelUsage[..|modelUsage|] == modelUsage;
    }
  }
}
