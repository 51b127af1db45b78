/** References to pasted content inside a prompt: the printer, the scanner and the expander of
    source/src/history.ts. A JavaScript string is a `string` here, indexed by code unit. */
module PastedRefs {
  import opened Options

  /** The three words the reference pattern accepts after the opening bracket. */
  datatype Keyword = PastedText | Image | Truncated

  /** One entry of the array `parseReferences` returns. */
  datatype Ref = Ref(id: nat, text: string, index: nat)

  datatype Content = TextContent(content: string) | ImageContent(content: string)

  function Word(k: Keyword): string {
    match k
    case PastedText => "[Pasted text #"
    case Image => "[Image #"
    case Truncated => "[...Truncated text #"
  }

  // ---------------------------------------------------------------- decimal numbers

  predicate IsDigit(c: char) { '0' <= c <= '9' }

  predicate AllDigits(s: string) { forall k | 0 <= k < |s| :: IsDigit(s[k]) }

  /** The number a digit string denotes. */
  function ParseInt(s: string): nat
    requires AllDigits(s)
  {
    if s == "" then 0 else 10 * ParseInt(s[..|s| - 1]) + (s[|s| - 1] - '0') as nat
  }

  /** The decimal form of a number, without leading zeros. */
  function Digits(n: nat): (s: string)
    ensures s != "" && AllDigits(s)
  {
    if n < 10 then [('0' as int + n) as char] else Digits(n / 10) + [('0' as int + n % 10) as char]
  }

  lemma {:induction false} ParseOfDigits(n: nat)
    ensures ParseInt(Digits(n)) == n
  {
    var s := Digits(n);
    if n >= 10 {
      assert s[..|s| - 1] == Digits(n / 10);
      ParseOfDigits(n / 10);
    } else {
      assert s[..|s| - 1] == "";
    }
  }

  // ---------------------------------------------------------------- the printer

  function FormatPastedTextRef(id: nat, numLines: nat): string {
    if numLines == 0 then "[Pasted text #" + Digits(id) + "]"
    else "[Pasted text #" + Digits(id) + " +" + Digits(numLines) + " lines]"
  }

  function FormatImageRef(id: nat): string {
    "[Image #" + Digits(id) + "]"
  }

  // ---------------------------------------------------------------- what a reference is

  /** The text a reference is made of, part by part. `lines` is the optional line count. */
  function Assemble(k: Keyword, id: string, lines: Option<string>, dots: nat): string {
    Word(k) + id + LinesPart(lines) + Dots(dots) + "]"
  }

  function LinesPart(lines: Option<string>): string {
    match lines
    case None => ""
    case Some(n) => " +" + n + " lines"
  }

  function Dots(n: nat): (s: string)
    ensures |s| == n && forall k | 0 <= k < n :: s[k] == '.'
  {
    seq(n, _ => '.')
  }

  /** The language of the pattern, read off as a grammar and not as a matching procedure. */
  ghost predicate IsReference(t: string) {
    exists k, id, lines, dots :: IsAssembled(t, k, id, lines, dots)
  }

  ghost predicate IsAssembled(t: string, k: Keyword, id: string, lines: Option<string>, dots: nat) {
    && id != "" && AllDigits(id)
    && (lines.Some? ==> lines.value != "" && AllDigits(lines.value))
    && t == Assemble(k, id, lines, dots)
  }

  // ---------------------------------------------------------------- the scanner

  /** A match at the front of a string: its length and its digits. */
  datatype Hit = Hit(len: nat, digits: string)

  predicate StartsWith(s: string, p: string) { |p| <= |s| && s[..|p|] == p }

  /** Length of the longest run of digits at the front of `s`. */
  function DigitPrefix(s: string): (n: nat)
    ensures n <= |s| && AllDigits(s[..n])
    ensures n < |s| ==> !IsDigit(s[n])
  {
    if s == "" || !IsDigit(s[0]) then 0
    else
      var n := 1 + DigitPrefix(s[1..]);
      assert forall k | 1 <= k < n :: s[k] == s[1..][..n - 1][k - 1];
      n
  }

  function DotPrefix(s: string): (n: nat)
    ensures n <= |s| && forall k | 0 <= k < n :: s[k] == '.'
    ensures n < |s| ==> s[n] != '.'
  {
    if s == "" || s[0] != '.' then 0 else 1 + DotPrefix(s[1..])
  }

  function KeywordPrefix(s: string): (k: Option<Keyword>)
    ensures k.Some? ==> StartsWith(s, Word(k.value)) && s != "" && s[0] == '['
  {
    assert forall j | StartsWith(s, Word(j)) :: s[..|Word(j)|][0] == Word(j)[0];
    if StartsWith(s, Word(PastedText)) then Some(PastedText)
    else if StartsWith(s, Word(Image)) then Some(Image)
    else if StartsWith(s, Word(Truncated)) then Some(Truncated)
    else None
  }

  /** Length of the optional line count at the front of `s`, 0 when it is absent. */
  function LinesPrefix(s: string): (n: nat)
    ensures n <= |s|
  {
    if !StartsWith(s, " +") then 0
    else
      var s1 := s[2..];
      var d := DigitPrefix(s1);
      if d > 0 && StartsWith(s1[d..], " lines") then 2 + d + 6 else 0
  }

  /** The pattern tried at the front of `s`. Every part is followed by a character that the part
      itself cannot contain, so the greedy choice is the only one and no backtracking is modelled. */
  function MatchPrefix(s: string): (h: Option<Hit>)
    ensures h.Some? ==> 0 < h.value.len <= |s| && AllDigits(h.value.digits)
  {
    match KeywordPrefix(s)
    case None => None
    case Some(k) =>
      var s1 := s[|Word(k)|..];
      var d := DigitPrefix(s1);
      if d == 0 then None
      else
        var s2 := s1[d..];
        var l := LinesPrefix(s2);
        var s3 := s2[l..];
        var p := DotPrefix(s3);
        if p < |s3| && s3[p] == ']' then Some(Hit(|Word(k)| + d + l + p + 1, s1[..d])) else None
  }

  /** All matches of the global pattern from `pos` on, left to right. */
  function Scan(input: string, pos: nat): seq<Ref>
    requires pos <= |input|
    decreases |input| - pos
  {
    if pos == |input| then []
    else match MatchPrefix(input[pos..])
      case None => Scan(input, pos + 1)
      case Some(h) =>
        [Ref(ParseInt(h.digits), input[pos..pos + h.len], pos)] + Scan(input, pos + h.len)
  }

  function KeepPositive(refs: seq<Ref>): seq<Ref> {
    if refs == [] then []
    else if refs[0].id > 0 then [refs[0]] + KeepPositive(refs[1..])
    else KeepPositive(refs[1..])
  }

  function ParseReferences(input: string): seq<Ref> {
    KeepPositive(Scan(input, 0))
  }

  // ---------------------------------------------------------------- matcher against grammar

  lemma {:induction false} DigitPrefixIs(ds: string, rest: string)
    requires AllDigits(ds) && (rest == "" || !IsDigit(rest[0]))
    ensures DigitPrefix(ds + rest) == |ds|
  {
    var s := ds + rest;
    if ds == "" {
      assert s == rest;
    } else {
      assert s[1..] == ds[1..] + rest;
      DigitPrefixIs(ds[1..], rest);
    }
  }

  lemma {:induction false} DotPrefixIs(n: nat, rest: string)
    requires rest != "" && rest[0] != '.'
    ensures DotPrefix(Dots(n) + rest) == n
  {
    var s := Dots(n) + rest;
    if n == 0 {
      assert s == rest;
    } else {
      assert s[1..] == Dots(n - 1) + rest;
      DotPrefixIs(n - 1, rest);
    }
  }

  lemma LinesPrefixIs(lines: Option<string>, tail: string)
    requires lines.Some? ==> lines.value != "" && AllDigits(lines.value)
    requires tail != "" && tail[0] != ' '
    ensures LinesPrefix(LinesPart(lines) + tail) == |LinesPart(lines)|
  {
    var s := LinesPart(lines) + tail;
    match lines
    case None =>
      assert s == tail;
    case Some(n) =>
      var after := " lines" + tail;
      assert s == " +" + (n + after);
      DropFront(" +", n + after);
      DigitPrefixIs(n, after);
      DropFront(n, after);
      DropFront(" lines", tail);
  }

  lemma KeywordPrefixIs(k: Keyword, rest: string)
    ensures KeywordPrefix(Word(k) + rest) == Some(k)
  {
    var s := Word(k) + rest;
    assert StartsWith(s, Word(k)) by { DropFront(Word(k), rest); }
    forall j | StartsWith(s, Word(j)) ensures j == k {
      WordsDiffer(s, j, k);
    }
  }

  lemma WordsDiffer(s: string, j: Keyword, k: Keyword)
    requires StartsWith(s, Word(j)) && StartsWith(s, Word(k))
    ensures j == k
  {
    assert s[..|Word(j)|][1] == s[..|Word(k)|][1];
  }

  /** What may follow the number in a reference does not start with a digit. */
  lemma AfterNumber(lines: Option<string>, dots: nat, rest: string)
    ensures var t := LinesPart(lines) + (Dots(dots) + ("]" + rest)); t != "" && !IsDigit(t[0])
    ensures var t := Dots(dots) + ("]" + rest); t != "" && t[0] != ' '
    ensures var t := "]" + rest; t != "" && t[0] == ']'
  {
  }

  lemma AssembleSplits(k: Keyword, id: string, lines: Option<string>, dots: nat, rest: string)
    ensures Assemble(k, id, lines, dots) + rest
         == Word(k) + (id + (LinesPart(lines) + (Dots(dots) + ("]" + rest))))
    ensures |Assemble(k, id, lines, dots)| == |Word(k)| + |id| + |LinesPart(lines)| + dots + 1
  {
    hide Word, LinesPart, Dots;
  }

  /** Completeness at one position: a reference at the front is matched, in full, with its digits. */
  lemma MatchOfReference(k: Keyword, id: string, lines: Option<string>, dots: nat, rest: string)
    requires id != "" && AllDigits(id)
    requires lines.Some? ==> lines.value != "" && AllDigits(lines.value)
    ensures MatchPrefix(Assemble(k, id, lines, dots) + rest)
         == Some(Hit(|Assemble(k, id, lines, dots)|, id))
  {
    hide Word, LinesPart, Dots, KeywordPrefix, LinesPrefix, DigitPrefix, DotPrefix, Assemble;
    var t3 := "]" + rest;
    var t2 := Dots(dots) + t3;
    var t1 := LinesPart(lines) + t2;
    AssembleSplits(k, id, lines, dots, rest);
    AfterNumber(lines, dots, rest);
    KeywordPrefixIs(k, id + t1);
    DigitPrefixIs(id, t1);
    LinesPrefixIs(lines, t2);
    DotPrefixIs(dots, t3);
    DropFront(Word(k), id + t1);
    DropFront(id, t1);
    DropFront(LinesPart(lines), t2);
    DropFront(Dots(dots), t3);
    assert t2[dots] == t2[dots..][0];
  }

  lemma DropFront(a: string, b: string)
    ensures (a + b)[|a|..] == b && (a + b)[..|a|] == a
  {
  }

  /** What `LinesPrefix` takes is an optional line count. */
  lemma LinesPrefixSound(s: string) returns (lines: Option<string>)
    ensures lines.Some? ==> lines.value != "" && AllDigits(lines.value)
    ensures s == LinesPart(lines) + s[LinesPrefix(s)..]
  {
    var n := LinesPrefix(s);
    if n == 0 { return None; }
    var s1 := s[2..];
    var d := DigitPrefix(s1);
    lines := Some(s1[..d]);
    Rejoin(s, " +", s1, s1[..d], s1[d..], " lines");
  }

  lemma Rejoin(s: string, a: string, s1: string, b: string, s2: string, c: string)
    requires StartsWith(s, a) && s1 == s[|a|..] && s1 == b + s2 && StartsWith(s2, c)
    ensures s == (a + b + c) + s[|a| + |b| + |c|..]
  {
    assert s == a + s1 && s2 == c + s2[|c|..];
    assert s == (a + b + c) + s2[|c|..];
  }

  lemma DotPrefixSound(s: string)
    ensures s == Dots(DotPrefix(s)) + s[DotPrefix(s)..]
  {
  }

  lemma DigitPrefixSound(s: string)
    ensures AllDigits(s[..DigitPrefix(s)]) && s == s[..DigitPrefix(s)] + s[DigitPrefix(s)..]
  {
  }

  lemma KeywordPrefixSound(s: string)
    requires KeywordPrefix(s).Some?
    ensures |Word(KeywordPrefix(s).value)| <= |s|
    ensures s == Word(KeywordPrefix(s).value) + s[|Word(KeywordPrefix(s).value)|..]
  {
  }

  /** The parts of a match. */
  lemma MatchShape(s: string)
    requires MatchPrefix(s).Some?
    ensures KeywordPrefix(s).Some? && |Word(KeywordPrefix(s).value)| <= |s|
    ensures var w := |Word(KeywordPrefix(s).value)|;
      var s1 := s[w..]; var d := DigitPrefix(s1);
      var s2 := s1[d..]; var l := LinesPrefix(s2);
      var s3 := s2[l..]; var p := DotPrefix(s3);
      d > 0 && p < |s3| && s3[p] == ']' && MatchPrefix(s).value.len == w + d + l + p + 1
  {
    hide Word, DigitPrefix, LinesPrefix, DotPrefix, KeywordPrefix, AllDigits;
  }

  lemma MatchParts(s: string)
      returns (s1: string, s2: string, s3: string, s4: string, k: Keyword, id: string, lines: Option<string>, dots: nat)
    requires MatchPrefix(s).Some?
    ensures id != "" && AllDigits(id)
    ensures lines.Some? ==> lines.value != "" && AllDigits(lines.value)
    ensures s == Word(k) + s1 && s1 == id + s2 && s2 == LinesPart(lines) + s3 && s3 == Dots(dots) + s4
    ensures s4 != "" && s4[0] == ']'
    ensures MatchPrefix(s).value.len == |Word(k)| + |id| + |LinesPart(lines)| + dots + 1
  {
    MatchShape(s);
    hide *;
    k := KeywordPrefix(s).value;
    KeywordPrefixSound(s);
    s1 := s[|Word(k)|..];
    var d := DigitPrefix(s1);
    DigitPrefixSound(s1);
    id, s2 := s1[..d], s1[d..];
    lines := LinesPrefixSound(s2);
    s3 := s2[LinesPrefix(s2)..];
    dots := DotPrefix(s3);
    DotPrefixSound(s3);
    s4 := s3[dots..];
  }

  /** Soundness at one position: what is matched is a reference. */
  lemma MatchIsReference(s: string)
    requires MatchPrefix(s).Some?
    ensures IsReference(s[..MatchPrefix(s).value.len])
  {
    hide *;
    var s1, s2, s3, s4, k, id, lines, dots := MatchParts(s);
    ReferenceIntro(s, s1, s2, s3, s4, k, id, lines, dots);
  }

  lemma Front(s: string, s1: string, s2: string, s3: string, s4: string,
              w: string, id: string, l: string, p: string)
    requires s == w + s1 && s1 == id + s2 && s2 == l + s3 && s3 == p + s4 && s4 != "" && s4[0] == ']'
    ensures s[..|w| + |id| + |l| + |p| + 1] == w + id + l + p + "]"
  {
    assert s4 == "]" + s4[1..];
    assert s == (w + id + l + p + "]") + s4[1..];
  }

  lemma ReferenceIntro(s: string, s1: string, s2: string, s3: string, s4: string,
                       k: Keyword, id: string, lines: Option<string>, dots: nat)
    requires id != "" && AllDigits(id)
    requires lines.Some? ==> lines.value != "" && AllDigits(lines.value)
    requires s == Word(k) + s1 && s1 == id + s2 && s2 == LinesPart(lines) + s3 && s3 == Dots(dots) + s4
    requires s4 != "" && s4[0] == ']'
    ensures IsReference(s[..|Word(k)| + |id| + |LinesPart(lines)| + dots + 1])
  {
    hide Word, LinesPart, Dots, AllDigits;
    Front(s, s1, s2, s3, s4, Word(k), id, LinesPart(lines), Dots(dots));
    assert IsAssembled(s[..|Word(k)| + |id| + |LinesPart(lines)| + dots + 1], k, id, lines, dots);
  }

  /** A reference has one opening bracket, its first character, so no reference starts inside another. */
  lemma OneBracket(t: string, i: nat)
    requires IsReference(t) && i < |t|
    ensures t[i] == '[' <==> i == 0
  {
    var k, id, lines, dots :| IsAssembled(t, k, id, lines, dots);
    NoBracketInWord(k);
    NoBracketInLines(lines);
    hide Word, LinesPart, Dots;
    AssembleSplits(k, id, lines, dots, "");
    assert Assemble(k, id, lines, dots) + "" == t;
    var parts := id + (LinesPart(lines) + (Dots(dots) + ("]" + "")));
    if i < |Word(k)| {
      assert t[i] == Word(k)[i];
    } else {
      assert t[i] == parts[i - |Word(k)|];
    }
  }

  lemma NoBracketInWord(k: Keyword)
    ensures Word(k) != "" && forall i | 0 <= i < |Word(k)| :: Word(k)[i] == '[' <==> i == 0
  {
  }

  lemma NoBracketInLines(lines: Option<string>)
    requires lines.Some? ==> AllDigits(lines.value)
    ensures forall i | 0 <= i < |LinesPart(lines)| :: LinesPart(lines)[i] != '['
  {
  }

  /** A position that does not hold an opening bracket starts no match. */
  lemma NoMatchWithoutBracket(s: string)
    requires s != "" && s[0] != '['
    ensures MatchPrefix(s) == None
  {
    hide KeywordPrefix, StartsWith, Word;
  }

  /** At most one reference starts at a given position, and the matcher finds it. */
  lemma MatchUnique(s: string, n: nat)
    requires n <= |s| && IsReference(s[..n])
    ensures MatchPrefix(s).Some? && MatchPrefix(s).value.len == n
  {
    hide MatchPrefix, Assemble;
    var k, id, lines, dots :| IsAssembled(s[..n], k, id, lines, dots);
    MatchOfReference(k, id, lines, dots, s[n..]);
    assert s == s[..n] + s[n..];
  }

  // ---------------------------------------------------------------- scanner against grammar

  /** References in increasing order from `pos` on, none overlapping, each quoting the input. */
  predicate Ordered(refs: seq<Ref>, input: string, pos: nat) {
    refs == [] ||
    (&& pos <= refs[0].index && refs[0].text != ""
     && refs[0].index + |refs[0].text| <= |input|
     && input[refs[0].index..refs[0].index + |refs[0].text|] == refs[0].text
     && Ordered(refs[1..], input, refs[0].index + |refs[0].text|))
  }

  lemma {:induction false} OrderedFrom(refs: seq<Ref>, input: string, pos: nat, p: nat)
    requires Ordered(refs, input, pos) && p <= pos
    ensures Ordered(refs, input, p)
    ensures forall r | r in refs :: pos <= r.index
  {
    if refs != [] {
      OrderedFrom(refs[1..], input, refs[0].index + |refs[0].text|, pos);
    }
  }

  lemma OrderedCons(input: string, refs: seq<Ref>)
    requires refs != [] && refs[0].text != "" && refs[0].index + |refs[0].text| <= |input|
    requires input[refs[0].index..refs[0].index + |refs[0].text|] == refs[0].text
    requires Ordered(refs[1..], input, refs[0].index + |refs[0].text|)
    ensures Ordered(refs, input, refs[0].index)
  {
  }

  lemma {:induction false} ScanOrdered(input: string, pos: nat)
    requires pos <= |input|
    ensures Ordered(Scan(input, pos), input, pos)
    decreases |input| - pos
  {
    hide MatchPrefix, ParseInt;
    if pos < |input| {
      var m := MatchPrefix(input[pos..]);
      var step := if m.Some? then m.value.len else 1;
      ScanOrdered(input, pos + step);
      var refs := Scan(input, pos);
      if m.None? {
        OrderedFrom(refs, input, pos + 1, pos);
      } else {
        assert refs[1..] == Scan(input, pos + step);
        assert refs[0].text == input[pos..pos + step];
        OrderedCons(input, refs);
      }
    }
  }

  /** Whether the scan reports a match that covers `a` to `b`. */
  ghost predicate Reports(refs: seq<Ref>, a: nat, b: nat) {
    exists r :: r in refs && r.index == a && a + |r.text| == b
  }

  /** No reference occurs strictly inside a match. */
  lemma NothingInside(input: string, pos: nat, a: nat, b: nat, len: nat)
    requires pos < a < pos + len <= |input| && a <= b <= |input|
    requires IsReference(input[pos..pos + len])
    ensures !IsReference(input[a..b])
  {
    hide IsReference;
    OneBracket(input[pos..pos + len], a - pos);
    if IsReference(input[a..b]) {
      NonEmpty(input[a..b]);
      OneBracket(input[a..b], 0);
    }
  }

  /** The scan steps over one character or one whole match. */
  lemma ScanStep(input: string, pos: nat) returns (next: nat)
    requires pos < |input|
    ensures pos < next <= |input|
    ensures Ordered(Scan(input, next), input, next)
    ensures || (&& next == pos + 1 && Scan(input, pos) == Scan(input, next)
                && forall b | pos <= b <= |input| :: !IsReference(input[pos..b]))
            || (&& IsReference(input[pos..next])
                && (forall b | pos <= b <= |input| && IsReference(input[pos..b]) :: b == next)
                && exists r: Ref ::
                     r.index == pos && |r.text| == next - pos && Scan(input, pos) == [r] + Scan(input, next))
  {
    hide MatchPrefix, IsReference;
    var s := input[pos..];
    var m := MatchPrefix(s);
    next := pos + if m.Some? then m.value.len else 1;
    ScanOrdered(input, next);
    forall b | pos <= b <= |input| && IsReference(input[pos..b]) ensures m.Some? && b == next {
      assert s[..b - pos] == input[pos..b];
      MatchUnique(s, b - pos);
    }
    if m.Some? {
      MatchIsReference(s);
      assert s[..next - pos] == input[pos..next];
      var r := Scan(input, pos)[0];
      assert r.index == pos && |r.text| == next - pos && Scan(input, pos) == [r] + Scan(input, next);
    }
  }

  /** Main result of the scanner: its matches are exactly the occurrences of the grammar. */
  lemma {:induction false} ScanFindsEveryReference(input: string, pos: nat, a: nat, b: nat)
    requires pos <= a <= b <= |input|
    ensures Reports(Scan(input, pos), a, b) <==> IsReference(input[a..b])
    decreases |input| - pos
  {
    hide Scan, IsReference, Ordered;
    if pos == |input| {
      if IsReference(input[a..b]) { NonEmpty(input[a..b]); }
      ScanAtEnd(input);
      return;
    }
    var next := ScanStep(input, pos);
    OrderedFrom(Scan(input, next), input, next, pos);
    if next <= a {
      ScanFindsEveryReference(input, next, a, b);
    } else if pos < a {
      NothingInside(input, pos, a, b, next - pos);
    }
  }

  lemma ScanAtEnd(input: string)
    ensures Scan(input, |input|) == []
  {
  }

  lemma NonEmpty(t: string)
    requires IsReference(t)
    ensures t != ""
  {
  }

  lemma {:induction false} KeepPositiveOrdered(refs: seq<Ref>, input: string, pos: nat)
    requires Ordered(refs, input, pos)
    ensures Ordered(KeepPositive(refs), input, pos)
  {
    if refs != [] {
      var e := refs[0].index + |refs[0].text|;
      KeepPositiveOrdered(refs[1..], input, e);
      if refs[0].id > 0 {
        assert KeepPositive(refs)[1..] == KeepPositive(refs[1..]);
      } else {
        OrderedFrom(KeepPositive(refs[1..]), input, e, pos);
      }
    }
  }

  lemma ParseOrdered(input: string)
    ensures Ordered(ParseReferences(input), input, 0)
  {
    ScanOrdered(input, 0);
    KeepPositiveOrdered(Scan(input, 0), input, 0);
  }

  // ---------------------------------------------------------------- printer and scanner round trip

  datatype Segment =
    | Plain(text: string)
    | TextRef(id: nat, numLines: nat)
    | ImageRef(id: nat)

  predicate Printable(seg: Segment) {
    match seg
    case Plain(t) => '[' !in t
    case TextRef(id, _) => id >= 1
    case ImageRef(id) => id >= 1
  }

  function PrintSegment(seg: Segment): string {
    match seg
    case Plain(t) => t
    case TextRef(id, n) => FormatPastedTextRef(id, n)
    case ImageRef(id) => FormatImageRef(id)
  }

  function Print(segs: seq<Segment>): string {
    if segs == [] then "" else PrintSegment(segs[0]) + Print(segs[1..])
  }

  /** The references a list of segments contains, with the offsets they are printed at. */
  function RefsOf(segs: seq<Segment>, offset: nat): seq<Ref> {
    if segs == [] then []
    else
      var t := PrintSegment(segs[0]);
      if segs[0].Plain? then RefsOf(segs[1..], offset + |t|)
      else [Ref(segs[0].id, t, offset)] + RefsOf(segs[1..], offset + |t|)
  }

  lemma {:induction false} ScanSkipsPlain(input: string, pos: nat, q: nat)
    requires pos <= q <= |input|
    requires forall i | pos <= i < q :: input[i] != '['
    ensures Scan(input, pos) == Scan(input, q)
    decreases q - pos
  {
    hide MatchPrefix;
    if pos < q {
      NoMatchWithoutBracket(input[pos..]);
      ScanSkipsPlain(input, pos + 1, q);
    }
  }

  lemma PrintedNonEmpty(seg: Segment)
    requires !seg.Plain?
    ensures PrintSegment(seg) != ""
  {
  }

  /** A printed reference in front of any text is matched in full. */
  lemma MatchOfPrinted(seg: Segment, rest: string)
    requires !seg.Plain? && Printable(seg)
    ensures MatchPrefix(PrintSegment(seg) + rest) == Some(Hit(|PrintSegment(seg)|, Digits(seg.id)))
  {
    hide MatchPrefix, Digits;
    var t := PrintSegment(seg);
    var d := Digits(seg.id);
    var k := if seg.TextRef? then PastedText else Image;
    var lines := if seg.TextRef? && seg.numLines > 0 then Some(Digits(seg.numLines)) else None;
    assert Dots(0) == "";
    if lines.Some? {
      assert t == Word(k) + d + (" +" + lines.value + " lines") + "" + "]";
    } else {
      assert t == Word(k) + d + "" + "" + "]";
    }
    MatchOfReference(k, d, lines, 0, rest);
  }

  lemma {:induction false} ScanOfPrint(input: string, pos: nat, segs: seq<Segment>)
    requires pos <= |input| && input[pos..] == Print(segs)
    requires forall seg | seg in segs :: Printable(seg)
    ensures Scan(input, pos) == RefsOf(segs, pos)
    decreases |segs|
  {
    hide MatchPrefix, PrintSegment, Printable;
    if segs != [] {
      var t := PrintSegment(segs[0]);
      var q := SplitPrint(input, pos, segs);
      assert input[pos..] == t + Print(segs[1..]);
      ScanOfPrint(input, q, segs[1..]);
      if segs[0].Plain? {
        PlainText(segs[0]);
        forall i | pos <= i < q ensures input[i] != '[' {
          assert input[i] == t[i - pos];
        }
        ScanSkipsPlain(input, pos, q);
      } else {
        MatchOfPrinted(segs[0], Print(segs[1..]));
        ParseOfDigits(segs[0].id);
      }
    }
  }

  lemma PlainText(seg: Segment)
    requires seg.Plain? && Printable(seg)
    ensures forall i | 0 <= i < |PrintSegment(seg)| :: PrintSegment(seg)[i] != '['
  {
  }

  lemma {:induction false} RefsOfPositive(segs: seq<Segment>, offset: nat)
    requires forall seg | seg in segs :: Printable(seg)
    ensures KeepPositive(RefsOf(segs, offset)) == RefsOf(segs, offset)
  {
    hide PrintSegment;
    if segs != [] {
      var rest := RefsOf(segs[1..], offset + |PrintSegment(segs[0])|);
      RefsOfPositive(segs[1..], offset + |PrintSegment(segs[0])|);
      assert Printable(segs[0]);
      if !segs[0].Plain? {
        assert RefsOf(segs, offset)[1..] == rest;
      }
    }
  }

  /** Round trip: parsing printed segments gives back the references, their ids, texts and offsets. */
  lemma PrintThenParse(segs: seq<Segment>)
    requires forall seg | seg in segs :: Printable(seg)
    ensures ParseReferences(Print(segs)) == RefsOf(segs, 0)
  {
    hide Scan, Printable, PrintSegment;
    assert Print(segs)[0..] == Print(segs);
    ScanOfPrint(Print(segs), 0, segs);
    RefsOfPositive(segs, 0);
  }

  // ---------------------------------------------------------------- expansion

  /** What stands for one reference after expansion: text content, or the reference itself. */
  function Replacement(r: Ref, contents: map<nat, Content>): string {
    if r.id in contents && contents[r.id].TextContent? then contents[r.id].content else r.text
  }

  /** All references replaced at once, reading the input from left to right starting at `pos`. */
  function Substitute(input: string, refs: seq<Ref>, contents: map<nat, Content>, pos: nat): string
    requires Ordered(refs, input, pos) && pos <= |input|
    decreases |refs|
  {
    if refs == [] then input[pos..]
    else
      input[pos..refs[0].index] + Replacement(refs[0], contents)
      + Substitute(input, refs[1..], contents, refs[0].index + |refs[0].text|)
  }

  /** The point up to which the loop has not touched the text when `i` references remain. */
  ghost function Frontier(refs: seq<Ref>, i: nat): nat
    requires i <= |refs|
  {
    if i == 0 then 0 else refs[i - 1].index + |refs[i - 1].text|
  }

  lemma {:induction false} OrderedTail(input: string, refs: seq<Ref>, i: nat)
    requires Ordered(refs, input, 0) && i <= |refs|
    ensures Ordered(refs[i..], input, Frontier(refs, i)) && Frontier(refs, i) <= |input|
  {
    if i == 0 {
      assert refs[0..] == refs;
    } else {
      OrderedTail(input, refs, i - 1);
      assert refs[i - 1..][1..] == refs[i..];
    }
  }

  /** One step of the reverse loop: replacing the reference at `i` extends the substituted suffix. */
  lemma SpliceStep(input: string, refs: seq<Ref>, contents: map<nat, Content>, i: nat, before: string)
    requires Ordered(refs, input, 0) && i < |refs|
    requires Ordered(refs[i + 1..], input, Frontier(refs, i + 1)) && Frontier(refs, i + 1) <= |input|
    requires before == input[..Frontier(refs, i + 1)]
                     + Substitute(input, refs[i + 1..], contents, Frontier(refs, i + 1))
    ensures Ordered(refs[i..], input, Frontier(refs, i)) && Frontier(refs, i) <= |input|
    ensures refs[i].index + |refs[i].text| <= |before|
    ensures before[..refs[i].index] + Replacement(refs[i], contents) + before[refs[i].index + |refs[i].text|..]
         == input[..Frontier(refs, i)] + Substitute(input, refs[i..], contents, Frontier(refs, i))
    ensures before[..refs[i].index] + refs[i].text + before[refs[i].index + |refs[i].text|..] == before
  {
    OrderedTail(input, refs, i);
    assert refs[i..][0] == refs[i] && refs[i..][1..] == refs[i + 1..];
    SubstituteFirst(input, refs[i..], contents, Frontier(refs, i));
    hide Ordered, Substitute, Replacement;
    var r := refs[i];
    var e := r.index + |r.text|;
    SpliceStrings(input, Frontier(refs, i), r.index, e,
                  Substitute(input, refs[i + 1..], contents, e), before, Replacement(r, contents));
  }

  lemma SubstituteFirst(input: string, refs: seq<Ref>, contents: map<nat, Content>, pos: nat)
    requires refs != [] && pos <= |input| && Ordered(refs, input, pos)
    ensures pos <= refs[0].index <= refs[0].index + |refs[0].text| <= |input|
    ensures input[refs[0].index..refs[0].index + |refs[0].text|] == refs[0].text
    ensures Ordered(refs[1..], input, refs[0].index + |refs[0].text|)
    ensures Substitute(input, refs, contents, pos)
         == input[pos..refs[0].index] + Replacement(refs[0], contents)
            + Substitute(input, refs[1..], contents, refs[0].index + |refs[0].text|)
  {
  }

  /** Replacing the part from `a` to `e` of a text whose suffix from `e` on is already final. */
  lemma SpliceStrings(input: string, f: nat, a: nat, e: nat, done: string, before: string, repl: string)
    requires f <= a <= e <= |input| && before == input[..e] + done
    ensures before[..a] + repl + before[e..] == input[..f] + (input[f..a] + repl + done)
    ensures before[..a] + input[a..e] + before[e..] == before
  {
    assert before[..a] == input[..a] == input[..f] + input[f..a];
    assert before[e..] == done;
  }

  /** The reverse-order splice of `expandPastedTextRefs` is the simultaneous substitution. */
  method ExpandPastedTextRefs(input: string, contents: map<nat, Content>) returns (expanded: string)
    ensures Ordered(ParseReferences(input), input, 0)
    ensures expanded == Substitute(input, ParseReferences(input), contents, 0)
  {
    hide Ordered, ParseReferences;
    var refs := ParseReferences(input);
    ParseOrdered(input);
    expanded := input;
    var i := |refs|;
    OrderedTail(input, refs, i);
    assert input == input[..Frontier(refs, i)] + input[Frontier(refs, i)..];
    while i > 0
      invariant 0 <= i <= |refs|
      invariant Ordered(refs[i..], input, Frontier(refs, i)) && Frontier(refs, i) <= |input|
      invariant expanded == input[..Frontier(refs, i)]
                          + Substitute(input, refs[i..], contents, Frontier(refs, i))
    {
      i := i - 1;
      var r := refs[i];
      SpliceStep(input, refs, contents, i, expanded);
      if r.id in contents && contents[r.id].TextContent? {
        expanded := expanded[..r.index] + contents[r.id].content + expanded[r.index + |r.text|..];
      }
    }
    assert refs[0..] == refs;
  }

  /** What a segment reads as after expansion. Pasted text goes in verbatim, whatever it contains. */
  function Resolve(seg: Segment, contents: map<nat, Content>): string {
    if !seg.Plain? && seg.id in contents && contents[seg.id].TextContent? then contents[seg.id].content
    else PrintSegment(seg)
  }

  function ResolveAll(segs: seq<Segment>, contents: map<nat, Content>): string {
    if segs == [] then "" else Resolve(segs[0], contents) + ResolveAll(segs[1..], contents)
  }

  /** Text before the first reference is copied, so the starting point can be moved. */
  lemma SubstituteFrom(input: string, refs: seq<Ref>, contents: map<nat, Content>, p: nat, q: nat)
    requires p <= q <= |input|
    requires Ordered(refs, input, q)
    ensures Ordered(refs, input, p)
    ensures Substitute(input, refs, contents, p) == input[p..q] + Substitute(input, refs, contents, q)
  {
    OrderedFrom(refs, input, q, p);
    if refs == [] {
      assert input[p..] == input[p..q] + input[q..];
    } else {
      assert input[p..refs[0].index] == input[p..q] + input[q..refs[0].index];
    }
  }

  /** A printed reference at `pos`, followed by text whose references are `rest`. */
  lemma SubstituteRef(input: string, r: Ref, refs: seq<Ref>, contents: map<nat, Content>)
    requires refs != [] && refs[0] == r && r.text != "" && r.index + |r.text| <= |input|
    requires input[r.index..r.index + |r.text|] == r.text
    requires Ordered(refs[1..], input, r.index + |r.text|)
    ensures Ordered(refs, input, r.index)
    ensures Substitute(input, refs, contents, r.index)
         == Replacement(r, contents) + Substitute(input, refs[1..], contents, r.index + |r.text|)
  {
    OrderedCons(input, refs);
    SubstituteFirst(input, refs, contents, r.index);
    hide Ordered, Substitute, Replacement;
    assert input[r.index..r.index] + Replacement(r, contents) == Replacement(r, contents);
  }

  /** One segment: its text is resolved and the references after it are substituted. */
  lemma SubstituteSegment(input: string, pos: nat, q: nat, segs: seq<Segment>, contents: map<nat, Content>)
    requires segs != [] && Printable(segs[0])
    requires pos <= q == pos + |PrintSegment(segs[0])| <= |input| && input[pos..q] == PrintSegment(segs[0])
    requires Ordered(RefsOf(segs[1..], q), input, q)
    ensures Ordered(RefsOf(segs, pos), input, pos)
    ensures Substitute(input, RefsOf(segs, pos), contents, pos)
         == Resolve(segs[0], contents) + Substitute(input, RefsOf(segs[1..], q), contents, q)
  {
    ResolveIs(segs[0], pos, contents);
    if !segs[0].Plain? { PrintedNonEmpty(segs[0]); }
    hide PrintSegment, Printable, Ordered, Substitute, Resolve, Replacement;
    var refs := RefsOf(segs, pos);
    if segs[0].Plain? {
      SubstituteFrom(input, refs, contents, pos, q);
    } else {
      assert refs[0] == Ref(segs[0].id, PrintSegment(segs[0]), pos);
      assert refs[1..] == RefsOf(segs[1..], q);
      hide RefsOf;
      SubstituteRef(input, Ref(segs[0].id, PrintSegment(segs[0]), pos), refs, contents);
    }
  }

  lemma {:induction false} SubstituteSegments(
      input: string, pos: nat, segs: seq<Segment>, contents: map<nat, Content>)
    requires pos <= |input| && input[pos..] == Print(segs)
    requires forall seg | seg in segs :: Printable(seg)
    ensures Ordered(RefsOf(segs, pos), input, pos)
    ensures Substitute(input, RefsOf(segs, pos), contents, pos) == ResolveAll(segs, contents)
    decreases |segs|
  {
    if segs == [] {
      EmptySubstitution(input, pos, contents);
    } else {
      hide PrintSegment, Printable, Ordered, Substitute, Resolve;
      var q := SplitPrint(input, pos, segs);
      SubstituteSegments(input, q, segs[1..], contents);
      SubstituteSegment(input, pos, q, segs, contents);
    }
  }

  /** Where the text of the first segment ends and the text of the others starts. */
  lemma SplitPrint(input: string, pos: nat, segs: seq<Segment>) returns (q: nat)
    requires pos <= |input| && input[pos..] == Print(segs) && segs != []
    ensures q == pos + |PrintSegment(segs[0])| <= |input|
    ensures input[pos..q] == PrintSegment(segs[0]) && input[q..] == Print(segs[1..])
  {
    hide PrintSegment;
    var t := PrintSegment(segs[0]);
    q := pos + |t|;
    assert t + Print(segs[1..]) == input[pos..];
    assert input[q..] == input[pos..][|t|..] == Print(segs[1..]);
    assert input[pos..q] == input[pos..][..|t|] == t;
  }

  lemma ResolveIs(seg: Segment, pos: nat, contents: map<nat, Content>)
    ensures Resolve(seg, contents)
         == if seg.Plain? then PrintSegment(seg) else Replacement(Ref(seg.id, PrintSegment(seg), pos), contents)
  {
  }

  lemma EmptySubstitution(input: string, pos: nat, contents: map<nat, Content>)
    requires pos <= |input|
    ensures Ordered([], input, pos) && Substitute(input, [], contents, pos) == input[pos..]
  {
  }

  /** Expanding printed segments replaces each text reference by its content and nothing else. */
  lemma ExpandOfPrint(segs: seq<Segment>, contents: map<nat, Content>)
    requires forall seg | seg in segs :: Printable(seg)
    ensures Ordered(ParseReferences(Print(segs)), Print(segs), 0)
    ensures Substitute(Print(segs), ParseReferences(Print(segs)), contents, 0) == ResolveAll(segs, contents)
  {
    PrintThenParse(segs);
    assert Print(segs)[0..] == Print(segs);
    SubstituteSegments(Print(segs), 0, segs, contents);
  }
}
