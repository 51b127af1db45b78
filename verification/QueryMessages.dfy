/** Messages of the agentic loop, reduced to what its control flow and the pairing of tool calls with
    tool results depend on. */
module QueryMessages {

  type Id = nat

  /** What an assistant message reports instead of a reply. */
  datatype Problem = NoProblem | PromptTooLong | MediaSize | MaxOutputTokens | OtherProblem

  datatype Message =
    | Assistant(uid: nat, uses: seq<Id>, problem: Problem, isApiError: bool)
    | User(results: seq<Id>)
    | Note

  /** What the loop yields to its caller. `Signal` stands for everything that is not a message. */
  datatype Yield = Emit(message: Message) | Tombstone(message: Message) | Signal

  function UsesOf(m: Message): seq<Id> {
    if m.Assistant? then m.uses else []
  }

  function ResultsOf(m: Message): seq<Id> {
    if m.User? then m.results else []
  }

  function Uses(ms: seq<Message>): multiset<Id> {
    if ms == [] then multiset{} else Uses(ms[..|ms| - 1]) + multiset(UsesOf(ms[|ms| - 1]))
  }

  function Results(ms: seq<Message>): multiset<Id> {
    if ms == [] then multiset{} else Results(ms[..|ms| - 1]) + multiset(ResultsOf(ms[|ms| - 1]))
  }

  /** Every tool call is answered once, later, and every answer belongs to an earlier call. */
  ghost predicate WellPaired(ms: seq<Message>) {
    && Uses(ms) == Results(ms)
    && forall k | 0 <= k <= |ms| :: Results(ms[..k]) <= Uses(ms[..k])
  }

  predicate AllAssistant(ms: seq<Message>) { forall m | m in ms :: m.Assistant? }

  predicate NoneAssistant(ms: seq<Message>) { forall m | m in ms :: !m.Assistant? }

  // ---------------------------------------------------------------- pairing

  lemma {:induction false} UsesConcat(a: seq<Message>, b: seq<Message>)
    ensures Uses(a + b) == Uses(a) + Uses(b)
    ensures Results(a + b) == Results(a) + Results(b)
  {
    if b == [] {
      assert a + b == a;
    } else {
      assert (a + b)[..|a + b| - 1] == a + b[..|b| - 1];
      UsesConcat(a, b[..|b| - 1]);
    }
  }

  lemma {:induction false} OnlyUses(ms: seq<Message>)
    requires AllAssistant(ms)
    ensures Results(ms) == multiset{}
  {
    if ms != [] {
      OnlyUses(ms[..|ms| - 1]);
      assert ms[|ms| - 1] in ms;
    }
  }

  lemma {:induction false} OnlyResults(ms: seq<Message>)
    requires NoneAssistant(ms)
    ensures Uses(ms) == multiset{}
  {
    if ms != [] {
      OnlyResults(ms[..|ms| - 1]);
      assert ms[|ms| - 1] in ms;
    }
  }

  lemma {:induction false} ResultsGrow(ms: seq<Message>, k: nat)
    requires k <= |ms|
    ensures Results(ms[..k]) <= Results(ms) && Uses(ms[..k]) <= Uses(ms)
  {
    assert ms == ms[..k] + ms[k..];
    UsesConcat(ms[..k], ms[k..]);
  }

  lemma OneMessage(m: Message)
    ensures Uses([m]) == multiset(UsesOf(m)) && Results([m]) == multiset(ResultsOf(m))
    ensures Uses([]) == multiset{} == Results([])
  {
    assert [m][..0] == [];
  }

  /** Appending replies and then answers to exactly their calls keeps a history well paired. */
  lemma PairedAppend(ms: seq<Message>, replies: seq<Message>, answers: seq<Message>)
    requires WellPaired(ms) && AllAssistant(replies) && NoneAssistant(answers)
    requires Uses(replies) == Results(answers)
    ensures WellPaired(ms + replies + answers)
  {
    hide Uses, Results, AllAssistant, NoneAssistant;
    var all := ms + replies + answers;
    UsesConcat(ms, replies);
    UsesConcat(ms + replies, answers);
    OnlyUses(replies);
    OnlyResults(answers);
    forall k | 0 <= k <= |all| ensures Results(all[..k]) <= Uses(all[..k]) {
      PairedAppendAt(ms, replies, answers, k);
    }
  }

  lemma PairedAppendAt(ms: seq<Message>, replies: seq<Message>, answers: seq<Message>, k: nat)
    requires WellPaired(ms) && AllAssistant(replies) && NoneAssistant(answers)
    requires Uses(replies) == Results(answers) && k <= |ms + replies + answers|
    ensures Results((ms + replies + answers)[..k]) <= Uses((ms + replies + answers)[..k])
  {
    hide Uses, Results;
    var all := ms + replies + answers;
    if k <= |ms| {
      assert all[..k] == ms[..k];
    } else if k <= |ms| + |replies| {
      var r := replies[..k - |ms|];
      assert all[..k] == ms + r;
      UsesConcat(ms, r);
      OnlyUses(r);
      assert Results(ms) == Uses(ms);
    } else {
      var a := answers[..k - |ms| - |replies|];
      assert all[..k] == (ms + replies) + a;
      UsesConcat(ms + replies, a);
      UsesConcat(ms, replies);
      OnlyUses(replies);
      OnlyResults(a);
      ResultsGrow(answers, k - |ms| - |replies|);
    }
  }

  lemma {:induction false} UsedSomewhere(ms: seq<Message>, id: Id)
    requires id in Uses(ms)
    ensures exists i :: 0 <= i < |ms| && id in UsesOf(ms[i])
  {
    var init, m := ms[..|ms| - 1], ms[|ms| - 1];
    if id in UsesOf(m) {
    } else {
      UsedSomewhere(init, id);
      var i :| 0 <= i < |init| && id in UsesOf(init[i]);
      assert ms[i] == init[i];
    }
  }

  lemma {:induction false} AnsweredSomewhere(ms: seq<Message>, id: Id)
    requires id in Results(ms)
    ensures exists i :: 0 <= i < |ms| && id in ResultsOf(ms[i])
  {
    var init, m := ms[..|ms| - 1], ms[|ms| - 1];
    if id in ResultsOf(m) {
    } else {
      AnsweredSomewhere(init, id);
      var i :| 0 <= i < |init| && id in ResultsOf(init[i]);
      assert ms[i] == init[i];
    }
  }

  /** A history cut around one message. */
  lemma SplitAt(ms: seq<Message>, i: nat)
    requires i < |ms|
    ensures Uses(ms[..i + 1]) == Uses(ms[..i]) + multiset(UsesOf(ms[i]))
    ensures Results(ms[..i + 1]) == Results(ms[..i]) + multiset(ResultsOf(ms[i]))
    ensures Uses(ms) == Uses(ms[..i + 1]) + Uses(ms[i + 1..])
    ensures Results(ms) == Results(ms[..i + 1]) + Results(ms[i + 1..])
  {
    hide Uses, Results;
    assert ms[..i + 1] == ms[..i] + [ms[i]];
    UsesConcat(ms[..i], [ms[i]]);
    OneMessage(ms[i]);
    assert ms == ms[..i + 1] + ms[i + 1..];
    UsesConcat(ms[..i + 1], ms[i + 1..]);
  }

  /** In a well-paired history an answer has an earlier call. */
  lemma ResultHasUse(ms: seq<Message>, j: nat, id: Id)
    requires WellPaired(ms) && j < |ms| && id in ResultsOf(ms[j])
    ensures exists i :: 0 <= i < j && id in UsesOf(ms[i])
  {
    hide Uses, Results;
    SplitAt(ms, j);
    assert Results(ms[..j + 1]) <= Uses(ms[..j + 1]);
    assert multiset(ResultsOf(ms[j]))[id] > 0 && multiset(UsesOf(ms[j]))[id] == 0;
    assert Uses(ms[..j])[id] >= Results(ms[..j + 1])[id] > 0;
    UsedSomewhere(ms[..j], id);
  }

  /** In a well-paired history a call has a later answer. */
  lemma UseHasResult(ms: seq<Message>, i: nat, id: Id)
    requires WellPaired(ms) && i < |ms| && id in UsesOf(ms[i])
    ensures exists j :: i < j < |ms| && id in ResultsOf(ms[j])
  {
    hide Uses, Results;
    SplitAt(ms, i);
    assert Results(ms[..i]) <= Uses(ms[..i]);
    assert multiset(UsesOf(ms[i]))[id] > 0 && multiset(ResultsOf(ms[i]))[id] == 0;
    assert Results(ms)[id] == Uses(ms)[id] > Uses(ms[..i])[id] >= Results(ms[..i])[id];
    assert Results(ms[i + 1..])[id] > 0;
    AnsweredSomewhere(ms[i + 1..], id);
    var k :| 0 <= k < |ms[i + 1..]| && id in ResultsOf(ms[i + 1..][k]);
    assert ms[i + 1 + k] == ms[i + 1..][k];
  }

  lemma InResults(ms: seq<Message>, k: nat, id: Id)
    requires k < |ms| && id in ResultsOf(ms[k])
    ensures id in Results(ms)
  {
    hide Results;
    SplitAt(ms, k);
  }

  /** When no id is used twice, the answer is the only one. */
  lemma ResultIsUnique(ms: seq<Message>, j: nat, k: nat, id: Id)
    requires WellPaired(ms) && Uses(ms)[id] <= 1
    requires j <= k < |ms| && id in ResultsOf(ms[j]) && id in ResultsOf(ms[k])
    ensures j == k && multiset(ResultsOf(ms[j]))[id] == 1
  {
    hide Uses, Results;
    SplitAt(ms, j);
    if j < k {
      assert ms[j + 1..][k - j - 1] == ms[k];
      InResults(ms[j + 1..], k - j - 1, id);
    }
  }

  // ---------------------------------------------------------------- the yielded transcript

  function UsesOut(out: seq<Yield>): multiset<Id> {
    if out == [] then multiset{}
    else
      var y := out[|out| - 1];
      UsesOut(out[..|out| - 1]) + if y.Emit? then multiset(UsesOf(y.message)) else multiset{}
  }

  function ResultsOut(out: seq<Yield>): multiset<Id> {
    if out == [] then multiset{}
    else
      var y := out[|out| - 1];
      ResultsOut(out[..|out| - 1]) + if y.Emit? then multiset(ResultsOf(y.message)) else multiset{}
  }

  /** Tool calls of the messages that were withdrawn. */
  function WithdrawnOut(out: seq<Yield>): multiset<Id> {
    if out == [] then multiset{}
    else
      var y := out[|out| - 1];
      WithdrawnOut(out[..|out| - 1]) + if y.Tombstone? then multiset(UsesOf(y.message)) else multiset{}
  }

  lemma {:induction false} OutConcat(a: seq<Yield>, b: seq<Yield>)
    ensures UsesOut(a + b) == UsesOut(a) + UsesOut(b)
    ensures ResultsOut(a + b) == ResultsOut(a) + ResultsOut(b)
    ensures WithdrawnOut(a + b) == WithdrawnOut(a) + WithdrawnOut(b)
  {
    if b == [] {
      assert a + b == a;
    } else {
      assert (a + b)[..|a + b| - 1] == a + b[..|b| - 1];
      OutConcat(a, b[..|b| - 1]);
    }
  }

  function EmitAll(ms: seq<Message>): seq<Yield> {
    seq(|ms|, i requires 0 <= i < |ms| => Emit(ms[i]))
  }

  function TombstoneAll(ms: seq<Message>): seq<Yield> {
    seq(|ms|, i requires 0 <= i < |ms| => Tombstone(ms[i]))
  }

  lemma {:induction false} OutOfEmits(ms: seq<Message>)
    ensures UsesOut(EmitAll(ms)) == Uses(ms)
    ensures ResultsOut(EmitAll(ms)) == Results(ms)
    ensures WithdrawnOut(EmitAll(ms)) == multiset{}
  {
    if ms != [] {
      assert EmitAll(ms)[..|ms| - 1] == EmitAll(ms[..|ms| - 1]);
      OutOfEmits(ms[..|ms| - 1]);
    }
  }

  lemma {:induction false} OutOfTombstones(ms: seq<Message>)
    ensures UsesOut(TombstoneAll(ms)) == multiset{} == ResultsOut(TombstoneAll(ms))
    ensures WithdrawnOut(TombstoneAll(ms)) == Uses(ms)
  {
    if ms != [] {
      assert TombstoneAll(ms)[..|ms| - 1] == TombstoneAll(ms[..|ms| - 1]);
      OutOfTombstones(ms[..|ms| - 1]);
    }
  }

  predicate UseAt(out: seq<Yield>, i: nat, id: Id) {
    i < |out| && out[i].Emit? && id in UsesOf(out[i].message)
  }

  predicate ResultAt(out: seq<Yield>, j: nat, id: Id) {
    j < |out| && out[j].Emit? && id in ResultsOf(out[j].message)
  }

  ghost predicate AnsweredAfter(out: seq<Yield>, i: nat, id: Id) {
    exists j :: i < j && ResultAt(out, j, id)
  }

  ghost predicate WithdrawnAfter(out: seq<Yield>, i: nat) {
    exists j :: i < j < |out| && i < |out| && out[i].Emit? && out[j] == Tombstone(out[i].message)
  }

  /** Every yielded tool call is answered later, withdrawn later, or still in hand: its message is
      among `open` and its id among `todo`. */
  ghost predicate Settled(out: seq<Yield>, open: seq<Message>, todo: set<Id>) {
    forall i: nat, id: Id | UseAt(out, i, id) ::
      AnsweredAfter(out, i, id) || WithdrawnAfter(out, i) || (out[i].message in open && id in todo)
  }

  /** A transcript in which no tool call is left without an answer. */
  ghost predicate Complete(out: seq<Yield>) {
    forall i: nat, id: Id | UseAt(out, i, id) :: AnsweredAfter(out, i, id) || WithdrawnAfter(out, i)
  }

  lemma SettledExtend(out: seq<Yield>, more: seq<Yield>, open: seq<Message>, todo: set<Id>, i: nat, id: Id)
    requires Settled(out, open, todo) && UseAt(out, i, id)
    ensures UseAt(out + more, i, id) && (out + more)[i] == out[i]
    ensures AnsweredAfter(out + more, i, id) || WithdrawnAfter(out + more, i)
            || (out[i].message in open && id in todo)
  {
    if AnsweredAfter(out, i, id) {
      var j :| i < j && ResultAt(out, j, id);
      assert ResultAt(out + more, j, id);
    } else if WithdrawnAfter(out, i) {
      var j :| i < j < |out| && out[j] == Tombstone(out[i].message);
      assert (out + more)[j] == Tombstone((out + more)[i].message);
    }
  }

  predicate Quiet(more: seq<Yield>) {
    forall y | y in more :: y.Emit? ==> UsesOf(y.message) == []
  }

  /** Yielding things without tool calls, some of them answers. */
  lemma SettledQuiet(out: seq<Yield>, more: seq<Yield>, open: seq<Message>, todo: set<Id>, left: set<Id>)
    requires Settled(out, open, todo) && Quiet(more)
    requires forall id | id in todo && id !in left :: exists j: nat :: ResultAt(more, j, id)
    ensures Settled(out + more, open, left)
  {
    var all := out + more;
    assert forall k | |out| <= k < |all| :: all[k] in more;
    forall i: nat, id: Id | UseAt(all, i, id)
      ensures AnsweredAfter(all, i, id) || WithdrawnAfter(all, i) || (all[i].message in open && id in left)
    {
      if i < |out| {
        assert UseAt(out, i, id);
        SettledExtend(out, more, open, todo, i, id);
        if id in todo && id !in left {
          var j: nat :| ResultAt(more, j, id);
          assert ResultAt(all, |out| + j, id);
        }
      }
    }
  }

  /** Yielding a reply opens its tool calls. */
  lemma SettledEmit(out: seq<Yield>, m: Message, open: seq<Message>, todo: set<Id>, todo': set<Id>)
    requires Settled(out, open, todo) && todo <= todo' && forall id | id in UsesOf(m) :: id in todo'
    ensures Settled(out + [Emit(m)], open + [m], todo')
  {
    var all := out + [Emit(m)];
    forall i: nat, id: Id | UseAt(all, i, id)
      ensures AnsweredAfter(all, i, id) || WithdrawnAfter(all, i) || (all[i].message in open + [m] && id in todo')
    {
      if i < |out| {
        assert UseAt(out, i, id);
        SettledExtend(out, [Emit(m)], open, todo, i, id);
      }
    }
  }

  /** Tombstones withdraw whatever is open. */
  lemma SettledTombstones(out: seq<Yield>, open: seq<Message>, todo: set<Id>)
    requires Settled(out, open, todo)
    ensures Settled(out + TombstoneAll(open), [], {})
  {
    var all := out + TombstoneAll(open);
    forall i: nat, id: Id | UseAt(all, i, id) ensures AnsweredAfter(all, i, id) || WithdrawnAfter(all, i) {
      if i < |out| {
        assert UseAt(out, i, id);
        SettledExtend(out, TombstoneAll(open), open, todo, i, id);
        if out[i].message in open {
          var k :| 0 <= k < |open| && open[k] == out[i].message;
          assert all[|out| + k] == Tombstone(all[i].message);
        }
      }
    }
  }

  lemma SettledComplete(out: seq<Yield>, open: seq<Message>, todo: set<Id>)
    requires Settled(out, open, todo) && (open == [] || todo == {})
    ensures Complete(out)
  {
  }

  lemma CompleteConcat(a: seq<Yield>, b: seq<Yield>)
    requires Complete(a) && Complete(b)
    ensures Complete(a + b)
  {
    var all := a + b;
    forall i: nat, id: Id | UseAt(all, i, id) ensures AnsweredAfter(all, i, id) || WithdrawnAfter(all, i) {
      if i < |a| {
        assert UseAt(a, i, id);
        if AnsweredAfter(a, i, id) {
          var j :| i < j && ResultAt(a, j, id);
          assert ResultAt(all, j, id);
        } else {
          var j :| i < j < |a| && a[j] == Tombstone(a[i].message);
          assert all[j] == Tombstone(all[i].message);
        }
      } else {
        assert UseAt(b, i - |a|, id);
        if AnsweredAfter(b, i - |a|, id) {
          var j :| i - |a| < j && ResultAt(b, j, id);
          assert ResultAt(all, |a| + j, id);
        } else {
          var j :| i - |a| < j < |b| && b[j] == Tombstone(b[i - |a|].message);
          assert all[|a| + j] == Tombstone(all[i].message);
        }
      }
    }
  }

  /** A well-paired history that is yielded message by message is complete in itself. */
  lemma PairedIsComplete(ms: seq<Message>)
    requires WellPaired(ms)
    ensures Complete(EmitAll(ms))
  {
    forall i: nat, id: Id | UseAt(EmitAll(ms), i, id) ensures AnsweredAfter(EmitAll(ms), i, id) {
      UseHasResult(ms, i, id);
      var j :| i < j < |ms| && id in ResultsOf(ms[j]);
      assert ResultAt(EmitAll(ms), j, id);
    }
  }
}
