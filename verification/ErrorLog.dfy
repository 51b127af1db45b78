/** The in-memory error log, a buffer of at most one hundred entries that drops the oldest, and the
    watermark by which a turn reports its own errors only (source/src/utils/log.ts,
    source/src/QueryEngine.ts). */
module ErrorLog {
  import opened Options

  const MAX_IN_MEMORY_ERRORS: nat := 100

  /** A logged error; `serial` is the identity of the logged object. */
  datatype Entry = Entry(serial: nat, error: string)

  ghost predicate Distinct(es: seq<Entry>) {
    forall i, j | 0 <= i < j < |es| :: es[i] != es[j]
  }

  /** The last entries, at most as many as the buffer holds. */
  function Retained(es: seq<Entry>): seq<Entry> {
    if |es| <= MAX_IN_MEMORY_ERRORS then es else es[|es| - MAX_IN_MEMORY_ERRORS..]
  }

  function Last(es: seq<Entry>): Option<Entry> {
    if es == [] then None else Some(es[|es| - 1])
  }

  /** The position of the last occurrence, or -1. */
  function LastIndexOf(es: seq<Entry>, e: Entry): int {
    if es == [] then -1
    else if es[|es| - 1] == e then |es| - 1
    else LastIndexOf(es[..|es| - 1], e)
  }

  /** What the turn reports, given the entry that was last when it began. */
  function SinceWatermark(buffer: seq<Entry>, watermark: Option<Entry>): seq<Entry> {
    match watermark
    case None => buffer
    case Some(e) =>
      LastIndexIs(buffer, e);
      buffer[LastIndexOf(buffer, e) + 1..]
  }

  lemma {:induction false} LastIndexIs(es: seq<Entry>, e: Entry)
    ensures -1 <= LastIndexOf(es, e) < |es|
    ensures LastIndexOf(es, e) >= 0 ==> es[LastIndexOf(es, e)] == e
    ensures forall j | LastIndexOf(es, e) < j < |es| :: es[j] != e
  {
    if es != [] && es[|es| - 1] != e {
      LastIndexIs(es[..|es| - 1], e);
      assert forall j | 0 <= j < |es| - 1 :: es[..|es| - 1][j] == es[j];
    }
  }

  lemma RetainedNext(es: seq<Entry>, e: Entry)
    ensures var now := Retained(es);
      Retained(es + [e]) == (if |now| >= MAX_IN_MEMORY_ERRORS then now[1..] else now) + [e]
  {
  }

  lemma FoundAt(es: seq<Entry>, e: Entry, k: nat)
    requires Distinct(es) && k < |es| && es[k] == e
    ensures LastIndexOf(es, e) == k
  {
    LastIndexIs(es, e);
  }

  lemma NotFound(es: seq<Entry>, e: Entry)
    requires e !in es
    ensures LastIndexOf(es, e) == -1
  {
    LastIndexIs(es, e);
  }

  lemma SuffixDistinct(es: seq<Entry>, k: nat)
    requires Distinct(es) && k <= |es|
    ensures Distinct(es[k..]) && (k > 0 ==> es[k - 1] !in es[k..])
    ensures forall i | 0 <= i < k :: es[i] !in es[k..]
  {
  }

  /** The watermark is still in the buffer. */
  lemma StillHeld(before: seq<Entry>, during: seq<Entry>, shift: nat)
    requires Distinct(before + during) && shift < |before|
    ensures SinceWatermark((before + during)[shift..], Last(before)) == during
  {
    var all := before + during;
    var buffer := all[shift..];
    SuffixDistinct(all, shift);
    FoundAt(buffer, before[|before| - 1], |before| - 1 - shift);
    assert buffer[|before| - shift..] == during;
  }

  /** The watermark has been rotated out. */
  lemma RotatedOut(before: seq<Entry>, during: seq<Entry>, shift: nat)
    requires Distinct(before + during) && before != [] && |before| <= shift <= |before + during|
    ensures SinceWatermark((before + during)[shift..], Last(before)) == during[shift - |before|..]
  {
    var all := before + during;
    SuffixDistinct(all, shift);
    assert all[|before| - 1] == before[|before| - 1];
    NotFound(all[shift..], before[|before| - 1]);
    assert all[shift..] == during[shift - |before|..];
  }

  /** Main result: whatever was logged before and during the turn, and whether or not the watermark has
      been rotated out or there was none, the turn reports exactly those of its own errors that the buffer
      still holds. */
  lemma ErrorsAreTurnScoped(before: seq<Entry>, during: seq<Entry>)
    requires Distinct(before + during)
    ensures SinceWatermark(Retained(before + during), Last(Retained(before))) == Retained(during)
  {
    var all := before + during;
    var shift: nat := if |all| <= MAX_IN_MEMORY_ERRORS then 0 else |all| - MAX_IN_MEMORY_ERRORS;
    assert Retained(all) == all[shift..] && Last(Retained(before)) == Last(before);
    hide SinceWatermark;
    if before == [] {
      assert all == during;
      NoWatermark(Retained(all));
    } else if shift < |before| {
      StillHeld(before, during, shift);
    } else {
      RotatedOut(before, during, shift);
    }
  }

  lemma NoWatermark(buffer: seq<Entry>)
    ensures SinceWatermark(buffer, None) == buffer
  {
  }

  /** The length of the buffer is no substitute for the watermark: counting from it reports the turn's
      errors exactly if the buffer was empty or has not rotated. */
  lemma LengthIsNoWatermark(before: seq<Entry>, during: seq<Entry>)
    requires Distinct(before + during)
    ensures |Retained(before)| <= |Retained(before + during)|
    ensures Retained(before + during)[|Retained(before)|..] == Retained(during)
            <==> before == [] || |before + during| <= MAX_IN_MEMORY_ERRORS || during == []
  {
    var all, buffer, k := before + during, Retained(before + during), |Retained(before)|;
    if |all| <= MAX_IN_MEMORY_ERRORS {
      assert buffer[k..] == during;
    } else if before == [] {
      assert all == during && buffer[0..] == buffer;
    } else if during == [] {
      assert all == before;
    } else {
      assert |buffer[k..]| < |Retained(during)|;
    }
  }

  class Log {
    var entries: seq<Entry>
    ghost var history: seq<Entry>

    ghost predicate Valid()
      reads this
    {
      entries == Retained(history)
    }

    constructor ()
      ensures Valid() && history == []
    {
      entries, history := [], [];
    }

    method Add(e: Entry)
      requires Valid()
      modifies this
      ensures Valid() && history == old(history) + [e]
    {
      RetainedNext(history, e);
      if |entries| >= MAX_IN_MEMORY_ERRORS {
        entries := entries[1..];
      }
      entries := entries + [e];
      history := history + [e];
    }

    /** The errors of the turn that began when the log had the given history. */
    method TurnErrors(watermark: Option<Entry>, ghost before: seq<Entry>) returns (errors: seq<Entry>)
      requires Valid() && Distinct(history) && before <= history && watermark == Last(Retained(before))
      ensures errors == Retained(history[|before|..])
    {
      assert history == before + history[|before|..];
      ErrorsAreTurnScoped(before, history[|before|..]);
      hide Retained, Distinct, LastIndexOf;
      var start := 0;
      if watermark.Some? {
        LastIndexIs(entries, watermark.value);
        var last := FindLast(entries, watermark.value);
        start := last + 1;
      }
      errors := entries[start..];
    }
  }

  method FindLast(es: seq<Entry>, e: Entry) returns (i: int)
    ensures i == LastIndexOf(es, e)
  {
    i := |es| - 1;
    assert es[..i + 1] == es;
    while i >= 0 && es[i] != e
      invariant -1 <= i < |es|
      invariant LastIndexOf(es, e) == LastIndexOf(es[..i + 1], e)
    {
      assert es[..i + 1][..i] == es[..i];
      i := i - 1;
    }
  }
}
