/** The results a tool collects while it runs under the streaming executor
    (source/src/services/tools/StreamingToolExecutor.ts), and what becomes of them when they are yielded. */
module QueryTools {
  import opened QueryMessages
  import opened QueryStream

  // ---------------------------------------------------------------- one tool

  /** What the tool runner yields. */
  datatype Kind = PlainResult | ErrorResult | ProgressNote | OtherMessage

  /** An update of the runner, and whether a reason to abort this tool is seen when it arrives. */
  datatype Update = Update(kind: Kind, abortSeen: bool)

  datatype ToolMessage = Synthetic | Forwarded(kind: Kind)

  predicate IsResult(k: Kind) { k in {PlainResult, ErrorResult} }

  function Kept(k: Kind): seq<ToolMessage> {
    if IsResult(k) || k == OtherMessage then [Forwarded(k)] else []
  }

  /** The messages collected from the updates; `errored` says whether this tool has reported an error. */
  function Collected(updates: seq<Update>, errored: bool): seq<ToolMessage> {
    if updates == [] then []
    else if updates[0].abortSeen && !errored then [Synthetic]
    else Kept(updates[0].kind) + Collected(updates[1..], errored || updates[0].kind == ErrorResult)
  }

  function CollectedFrom(abortedAtStart: bool, updates: seq<Update>): seq<ToolMessage> {
    if abortedAtStart then [Synthetic] else Collected(updates, false)
  }

  /** Runs one tool and collects its messages until it ends or is aborted. */
  method ExecuteTool(abortedAtStart: bool, updates: seq<Update>) returns (messages: seq<ToolMessage>, progress: nat)
    ensures messages == CollectedFrom(abortedAtStart, updates)
    ensures OneResult(updates) ==> ResultCount(messages) == if !abortedAtStart && CutAfterResult(updates) then 2 else 1
  {
    if OneResult(updates) {
      OneOrTwoResults(abortedAtStart, updates);
    }
    messages, progress := [], 0;
    if abortedAtStart {
      return [Synthetic], 0;
    }
    hide ResultCount, CutAfterResult, OneResult, Collected;
    CollectStart(updates);
    var thisToolErrored, i := false, 0;
    while i < |updates|
      invariant i <= |updates|
      invariant messages + Collected(updates[i..], thisToolErrored) == Collected(updates, false)
      decreases |updates| - i
    {
      var update := updates[i];
      CollectNext(messages, updates, i, thisToolErrored);
      if update.abortSeen && !thisToolErrored {
        messages := messages + [Synthetic];
        return;
      }
      if update.kind == ErrorResult {
        thisToolErrored := true;
      }
      if update.kind == ProgressNote {
        progress := progress + 1;
      } else {
        messages := messages + [Forwarded(update.kind)];
      }
      i := i + 1;
    }
    CollectEnd(updates, thisToolErrored);
  }

  lemma CollectStart(updates: seq<Update>)
    ensures [] + Collected(updates[0..], false) == Collected(updates, false)
  {
    assert updates[0..] == updates;
  }

  lemma CollectNext(messages: seq<ToolMessage>, updates: seq<Update>, i: nat, errored: bool)
    requires i < |updates|
    ensures messages + Collected(updates[i..], errored)
            == if updates[i].abortSeen && !errored then messages + [Synthetic]
               else messages + Kept(updates[i].kind)
                    + Collected(updates[i + 1..], errored || updates[i].kind == ErrorResult)
  {
    assert updates[i..][0] == updates[i] && updates[i..][1..] == updates[i + 1..];
    var rest := Collected(updates[i + 1..], errored || updates[i].kind == ErrorResult);
    assert messages + (Kept(updates[i].kind) + rest) == messages + Kept(updates[i].kind) + rest;
  }

  lemma CollectEnd(updates: seq<Update>, errored: bool)
    ensures Collected(updates[|updates|..], errored) == []
  {
  }

  // ---------------------------------------------------------------- how many results

  function ResultCount(messages: seq<ToolMessage>): nat {
    if messages == [] then 0
    else (if messages[0].Synthetic? || IsResult(messages[0].kind) then 1 else 0) + ResultCount(messages[1..])
  }

  function Produced(updates: seq<Update>): nat {
    if updates == [] then 0 else (if IsResult(updates[0].kind) then 1 else 0) + Produced(updates[1..])
  }

  /** The runner yields exactly one result for the call. */
  predicate OneResult(updates: seq<Update>) { Produced(updates) == 1 }

  predicate CutAt(updates: seq<Update>, i: nat, k: nat) {
    && i < k < |updates| && updates[i].kind == PlainResult && updates[k].abortSeen
    && forall j | 0 <= j <= i :: !updates[j].abortSeen
  }

  /** The tool delivers a result that is no error, and only then an update at which an abort is seen. */
  predicate CutAfterResult(updates: seq<Update>) {
    exists i: nat, k: nat | i < k < |updates| :: CutAt(updates, i, k)
  }

  predicate AbortSeen(updates: seq<Update>) { exists k | 0 <= k < |updates| :: updates[k].abortSeen }

  lemma CountConcat(a: seq<ToolMessage>, b: seq<ToolMessage>)
    ensures ResultCount(a + b) == ResultCount(a) + ResultCount(b)
    decreases |a|
  {
    if a == [] {
      assert a + b == b;
    } else {
      assert (a + b)[1..] == a[1..] + b;
      CountConcat(a[1..], b);
    }
  }

  lemma KeptCount(k: Kind)
    ensures ResultCount(Kept(k)) == if IsResult(k) then 1 else 0
  {
    if Kept(k) != [] {
      assert Kept(k)[1..] == [];
    }
  }

  /** Once the tool has reported an error it runs to its end. */
  lemma {:induction false} ErroredCount(updates: seq<Update>)
    ensures ResultCount(Collected(updates, true)) == Produced(updates)
  {
    if updates != [] {
      ErroredCount(updates[1..]);
      KeptCount(updates[0].kind);
      CountConcat(Kept(updates[0].kind), Collected(updates[1..], true));
    }
  }

  /** After the result no more are produced, and an abort adds one. */
  lemma {:induction false} AfterResultCount(updates: seq<Update>)
    requires Produced(updates) == 0
    ensures ResultCount(Collected(updates, false)) == if AbortSeen(updates) then 1 else 0
  {
    if updates != [] {
      var rest := updates[1..];
      if updates[0].abortSeen {
        assert [Synthetic][1..] == [];
      } else {
        AfterResultCount(rest);
        KeptCount(updates[0].kind);
        CountConcat(Kept(updates[0].kind), Collected(rest, false));
        LaterAbort(updates);
      }
    }
  }

  lemma LaterAbort(updates: seq<Update>)
    requires updates != [] && !updates[0].abortSeen
    ensures AbortSeen(updates) <==> AbortSeen(updates[1..])
  {
    assert forall k | 0 < k < |updates| :: updates[k] == updates[1..][k - 1];
    if AbortSeen(updates[1..]) {
      var k :| 0 <= k < |updates[1..]| && updates[1..][k].abortSeen;
      assert updates[k + 1].abortSeen;
    }
  }

  lemma {:induction false} NothingProduced(updates: seq<Update>, i: nat)
    requires Produced(updates) == 0 && i < |updates|
    ensures !IsResult(updates[i].kind)
  {
    if i > 0 {
      NothingProduced(updates[1..], i - 1);
    }
  }

  lemma CutLater(updates: seq<Update>)
    requires updates != [] && !updates[0].abortSeen && !IsResult(updates[0].kind)
    ensures CutAfterResult(updates) <==> CutAfterResult(updates[1..])
  {
    var rest := updates[1..];
    if CutAfterResult(rest) {
      var i: nat, k: nat :| i < k < |rest| && CutAt(rest, i, k);
      assert CutAt(updates, i + 1, k + 1);
    }
    if CutAfterResult(updates) {
      var i: nat, k: nat :| i < k < |updates| && CutAt(updates, i, k);
      assert CutAt(rest, i - 1, k - 1);
    }
  }

  lemma CutHere(updates: seq<Update>)
    requires updates != [] && !updates[0].abortSeen && updates[0].kind == PlainResult && Produced(updates[1..]) == 0
    ensures CutAfterResult(updates) <==> AbortSeen(updates[1..])
  {
    var rest := updates[1..];
    if AbortSeen(rest) {
      var k :| 0 <= k < |rest| && rest[k].abortSeen;
      assert CutAt(updates, 0, k + 1);
    }
    if CutAfterResult(updates) {
      var i: nat, k: nat :| i < k < |updates| && CutAt(updates, i, k);
      assert rest[k - 1].abortSeen;
    }
  }

  lemma NotCutFirst(updates: seq<Update>)
    requires updates != [] && updates[0].abortSeen
    ensures !CutAfterResult(updates)
  {
  }

  lemma ErrorIsNotCut(updates: seq<Update>)
    requires updates != [] && updates[0].kind == ErrorResult && Produced(updates[1..]) == 0
    ensures !CutAfterResult(updates)
  {
    forall i: nat, k: nat | i < k < |updates| ensures !CutAt(updates, i, k) {
      if i > 0 {
        NothingProduced(updates[1..], i - 1);
      }
    }
  }

  lemma {:induction false} CollectedCount(updates: seq<Update>)
    requires OneResult(updates)
    ensures ResultCount(Collected(updates, false)) == if CutAfterResult(updates) then 2 else 1
  {
    var kind, rest := updates[0].kind, updates[1..];
    if updates[0].abortSeen {
      NotCutFirst(updates);
      assert [Synthetic][1..] == [];
    } else {
      KeptCount(kind);
      CountConcat(Kept(kind), Collected(rest, kind == ErrorResult));
      hide CutAfterResult, AbortSeen;
      if kind == PlainResult {
        AfterResultCount(rest);
        CutHere(updates);
      } else if kind == ErrorResult {
        ErroredCount(rest);
        ErrorIsNotCut(updates);
      } else {
        CollectedCount(rest);
        CutLater(updates);
      }
    }
  }

  /** Main result: if the runner yields one result for a call, the tool ends with one result or with two, and
      with two exactly if it delivers a result that is no error and sees an abort at a later update. */
  lemma OneOrTwoResults(abortedAtStart: bool, updates: seq<Update>)
    requires OneResult(updates)
    ensures ResultCount(CollectedFrom(abortedAtStart, updates))
            == if !abortedAtStart && CutAfterResult(updates) then 2 else 1
  {
    CollectedCount(updates);
    assert [Synthetic][1..] == [];
  }

  // ---------------------------------------------------------------- yielding the lists

  function Repeat(id: Id, n: nat): (ids: seq<Id>)
    ensures |ids| == n && forall x | x in ids :: x == id
  {
    seq(n, _ => id)
  }

  /** The results that are yielded when each tool in turn gives up its whole list; `counts` are the
      numbers of results in the lists. */
  function ListsUpTo(ex: Executor, counts: seq<nat>, ready: set<nat>, n: nat): seq<Id>
    requires n <= |ex.added| == |counts|
  {
    if n == 0 then []
    else ListsUpTo(ex, counts, ready, n - 1)
         + if n - 1 in ready && n - 1 !in ex.yielded then Repeat(ex.added[n - 1], counts[n - 1]) else []
  }

  function DrainLists(ex: Executor, counts: seq<nat>, batches: seq<set<nat>>): seq<Id>
    requires |ex.added| == |counts|
    decreases |batches|
  {
    if batches == [] then ListsUpTo(ex, counts, Positions(ex), |ex.added|)
    else ListsUpTo(ex, counts, batches[0], |ex.added|) + DrainLists(MarkYielded(ex, batches[0]), counts, batches[1..])
  }

  /** The tools that have yielded nothing yet. */
  predicate Owes(ex: Executor, p: nat) { p < |ex.added| && p !in ex.yielded }

  /** The number of results in the lists that have not been yielded. */
  function Owed(ex: Executor, counts: seq<nat>, n: nat): nat
    requires n <= |ex.added| == |counts|
  {
    if n == 0 then 0 else Owed(ex, counts, n - 1) + if Owes(ex, n - 1) then counts[n - 1] else 0
  }

  lemma {:induction false} ListsTake(ex: Executor, done: Executor, counts: seq<nat>, ready: set<nat>, n: nat)
    requires n <= |ex.added| == |counts| && done.added == ex.added
    requires forall p: nat | p < n :: p in done.yielded <==> p in ex.yielded || p in ready
    ensures Owed(ex, counts, n) == Owed(done, counts, n) + |ListsUpTo(ex, counts, ready, n)|
  {
    if n > 0 {
      ListsTake(ex, done, counts, ready, n - 1);
    }
  }

  lemma {:induction false} NothingOwed(ex: Executor, counts: seq<nat>, n: nat)
    requires n <= |ex.added| == |counts| && forall p | 0 <= p < n :: p in ex.yielded
    ensures Owed(ex, counts, n) == 0
  {
    if n > 0 {
      NothingOwed(ex, counts, n - 1);
    }
  }

  /** However the tools complete, draining yields every list once. */
  lemma {:induction false} DrainCount(ex: Executor, counts: seq<nat>, batches: seq<set<nat>>)
    requires |ex.added| == |counts|
    ensures |DrainLists(ex, counts, batches)| == Owed(ex, counts, |ex.added|)
    decreases |batches|
  {
    if batches == [] {
      var done := MarkYielded(ex, Positions(ex));
      ListsTake(ex, done, counts, Positions(ex), |ex.added|);
      NothingOwed(done, counts, |ex.added|);
    } else {
      ListsTake(ex, MarkYielded(ex, batches[0]), counts, batches[0], |ex.added|);
      DrainCount(MarkYielded(ex, batches[0]), counts, batches[1..]);
    }
  }

  lemma RepeatOne(id: Id)
    ensures Repeat(id, 1) == [id]
  {
  }

  lemma {:induction false} SingleLists(ex: Executor, counts: seq<nat>, ready: set<nat>, n: nat)
    requires n <= |ex.added| == |counts| && forall p: nat | Owes(ex, p) :: counts[p] == 1
    ensures ListsUpTo(ex, counts, ready, n) == NewResultsUpTo(ex, ready, n)
  {
    if n > 0 {
      SingleLists(ex, counts, ready, n - 1);
      RepeatOne(ex.added[n - 1]);
      if n - 1 !in ex.yielded {
        assert Owes(ex, n - 1);
      }
    }
  }

  lemma {:induction false} SingleDrain(ex: Executor, counts: seq<nat>, batches: seq<set<nat>>)
    requires |ex.added| == |counts| && forall p: nat | Owes(ex, p) :: counts[p] == 1
    ensures DrainLists(ex, counts, batches) == Drain(ex, batches)
    decreases |batches|
  {
    if batches == [] {
      SingleLists(ex, counts, Positions(ex), |ex.added|);
    } else {
      var done := MarkYielded(ex, batches[0]);
      SingleLists(ex, counts, batches[0], |ex.added|);
      assert forall p: nat | Owes(done, p) :: Owes(ex, p);
      SingleDrain(done, counts, batches[1..]);
    }
  }

  lemma {:induction false} OwedAtLeast(ex: Executor, counts: seq<nat>, n: nat)
    requires n <= |ex.added| == |counts| && forall p: nat | Owes(ex, p) :: counts[p] >= 1
    ensures Owed(ex, counts, n) >= |OutstandingUpTo(ex, n)|
    ensures (exists p: nat :: p < n && Owes(ex, p) && counts[p] > 1) ==> Owed(ex, counts, n) > |OutstandingUpTo(ex, n)|
  {
    if n > 0 {
      OwedAtLeast(ex, counts, n - 1);
      if Owes(ex, n - 1) {
        assert counts[n - 1] >= 1;
      }
    }
  }

  /** Main result: with lists as `OneOrTwoResults` leaves them, draining yields exactly one result for each
      tool that owes one if and only if no tool that owes one holds two. */
  lemma OneEachIff(ex: Executor, counts: seq<nat>, batches: seq<set<nat>>)
    requires |ex.added| == |counts| && forall p: nat | Owes(ex, p) :: counts[p] >= 1
    ensures multiset(DrainLists(ex, counts, batches)) == Outstanding(ex)
            <==> forall p: nat | Owes(ex, p) :: counts[p] == 1
    ensures (forall p: nat | Owes(ex, p) :: counts[p] == 1) ==> DrainLists(ex, counts, batches) == Drain(ex, batches)
  {
    if forall p: nat | Owes(ex, p) :: counts[p] == 1 {
      SingleDrain(ex, counts, batches);
      DrainYieldsRest(ex, batches);
    } else {
      var p: nat :| Owes(ex, p) && counts[p] != 1;
      OwedAtLeast(ex, counts, |ex.added|);
      DrainCount(ex, counts, batches);
      assert |multiset(DrainLists(ex, counts, batches))| == |DrainLists(ex, counts, batches)|;
    }
  }
}
