/** The context a hook hands to the model and its budget in UTF-16 code units (internal/harness/context.go). */
module ContextBudget {
  import opened Common

  const MAX_CONTEXT := 32000
  const MARKER := "\n\n[truncated]"

  // ----- UTF-16

  type Unit = u: int | 0 <= u < 0x1_0000

  function UnitsOf(c: char): (units: seq<Unit>)
    ensures |units| == (if c as int < 0x1_0000 then 1 else 2)
  {
    var n := c as int;
    if n < 0x1_0000 then [n] else [0xD800 + (n - 0x1_0000) / 0x400, 0xDC00 + (n - 0x1_0000) % 0x400]
  }

  /** utf16.Encode of a string of scalar values. */
  function Encode(s: string): seq<Unit> {
    if s == "" then [] else UnitsOf(s[0]) + Encode(s[1..])
  }

  /** utf16.Decode: a surrogate without its partner becomes U+FFFD. */
  function Decode(units: seq<Unit>): string {
    if units == [] then ""
    else if High(units[0]) && |units| > 1 && Low(units[1]) then
      var high: int, low: int := units[0], units[1];
      [(0x1_0000 + (high - 0xD800) * 0x400 + (low - 0xDC00)) as char] + Decode(units[2..])
    else if High(units[0]) || Low(units[0]) then "\U{FFFD}" + Decode(units[1..])
    else [units[0] as char] + Decode(units[1..])
  }

  function Units(s: string): nat { |Encode(s)| }

  lemma {:induction false} EncodeAppend(a: string, b: string)
    ensures Encode(a + b) == Encode(a) + Encode(b)
  {
    if a == "" {
      assert a + b == b;
    } else {
      assert (a + b)[1..] == a[1..] + b;
      EncodeAppend(a[1..], b);
    }
  }

  lemma {:induction false} AtMostTwoEach(s: string)
    ensures |s| <= Units(s) <= 2 * |s|
  {
    if s != "" {
      AtMostTwoEach(s[1..]);
    }
  }

  lemma DecodeFirst(c: char, units: seq<Unit>)
    ensures Decode(UnitsOf(c) + units) == [c] + Decode(units)
  {
    assert (UnitsOf(c) + units)[|UnitsOf(c)|..] == units;
  }

  lemma {:induction false} DecodeEncode(s: string)
    ensures Decode(Encode(s)) == s
  {
    if s != "" {
      DecodeEncode(s[1..]);
      DecodeFirst(s[0], Encode(s[1..]));
    }
  }

  // ----- cutting

  predicate TailSpace(c: char) { c == ' ' || c == '\t' || c == '\r' || c == '\n' }

  function TrimTail(s: string): (r: string)
    ensures r <= s
  {
    if s != "" && TailSpace(s[|s| - 1]) then TrimTail(s[..|s| - 1]) else s
  }

  /** A unit that a cut must not end with: the first half of a pair. */
  function BackOff(units: seq<Unit>): seq<Unit> {
    if units != [] && High(units[|units| - 1]) then units[..|units| - 1] else units
  }

  function ContextHead(units: seq<Unit>): string { TrimTail(Decode(BackOff(units))) }

  /** How many characters of a string fit in n units. */
  function Fitting(s: string, n: nat): (k: nat)
    ensures k <= |s|
  {
    if s == "" || |UnitsOf(s[0])| > n then 0 else 1 + Fitting(s[1..], n - |UnitsOf(s[0])|)
  }

  /** The characters that fit are the longest prefix of whole characters within the limit. */
  lemma {:induction false} FittingIsLongest(s: string, n: nat)
    ensures Units(s[..Fitting(s, n)]) <= n
    ensures Fitting(s, n) < |s| ==> Units(s[..Fitting(s, n) + 1]) > n
  {
    if s != "" {
      var w := |UnitsOf(s[0])|;
      assert s[..1] == [s[0]] && Encode(s[..1]) == UnitsOf(s[0]) + Encode(s[..1][1..]);
      if w <= n {
        var k := Fitting(s[1..], n - w);
        FittingIsLongest(s[1..], n - w);
        assert s[..k + 1][1..] == s[1..][..k];
        if k < |s[1..]| {
          assert s[..k + 2][1..] == s[1..][..k + 1];
        }
      }
    }
  }

  /** A cut of n units, backed off, is the text of the characters that fit: no character is split. */
  lemma {:induction false} CutKeepsCharacters(s: string, n: nat)
    requires n <= Units(s)
    ensures BackOff(Encode(s)[..n]) == Encode(s[..Fitting(s, n)])
  {
    if s != "" {
      var head, w := UnitsOf(s[0]), |UnitsOf(s[0])|;
      if w <= n {
        CutKeepsCharacters(s[1..], n - w);
        CutAfterFirst(s, n);
      } else if n == 1 {
        assert Encode(s)[..1] == [head[0]];
        assert s[..0] == "";
      } else {
        assert s[..0] == "";
      }
    }
  }

  lemma CutAfterFirst(s: string, n: nat)
    requires s != "" && |UnitsOf(s[0])| <= n <= Units(s)
    requires var m := n - |UnitsOf(s[0])|; BackOff(Encode(s[1..])[..m]) == Encode(s[1..][..Fitting(s[1..], m)])
    ensures BackOff(Encode(s)[..n]) == Encode(s[..Fitting(s, n)])
  {
    var head, m := UnitsOf(s[0]), n - |UnitsOf(s[0])|;
    var k := Fitting(s[1..], m);
    TakeAfter(head, Encode(s[1..]), m);
    BackOffAfter(s[0], Encode(s[1..])[..m]);
    EncodeFirst(s, k);
  }

  lemma TakeAfter<T>(a: seq<T>, b: seq<T>, m: nat)
    requires m <= |b|
    ensures (a + b)[..|a| + m] == a + b[..m]
  {
  }

  lemma EncodeFirst(s: string, k: nat)
    requires s != "" && k < |s|
    ensures Encode(s[..k + 1]) == UnitsOf(s[0]) + Encode(s[1..][..k])
  {
    assert s[..k + 1][1..] == s[1..][..k];
  }

  /** Backing off leaves a whole character in front alone. */
  lemma BackOffAfter(c: char, rest: seq<Unit>)
    ensures BackOff(UnitsOf(c) + rest) == UnitsOf(c) + BackOff(rest)
  {
    var units := UnitsOf(c) + rest;
    if rest == [] {
      assert units == UnitsOf(c);
      assert !High(units[|units| - 1]);
    } else {
      assert units[..|units| - 1] == UnitsOf(c) + rest[..|rest| - 1];
    }
  }

  /** contextHead of the first n units: the longest prefix of whole characters that fits, without trailing blanks. */
  lemma HeadIsPrefix(s: string, n: nat)
    requires n <= Units(s)
    ensures ContextHead(Encode(s)[..n]) == TrimTail(s[..Fitting(s, n)])
    ensures Units(ContextHead(Encode(s)[..n])) <= n
  {
    CutKeepsCharacters(s, n);
    DecodeEncode(s[..Fitting(s, n)]);
    FittingIsLongest(s, n);
    PrefixUnits(TrimTail(s[..Fitting(s, n)]), s[..Fitting(s, n)]);
  }

  lemma PrefixUnits(a: string, s: string)
    requires a <= s
    ensures Units(a) <= Units(s)
  {
    EncodeAppend(a, s[|a|..]);
    assert a + s[|a|..] == s;
  }

  // ----- line endings and trimming

  /** strings.ReplaceAll(s, "\r\n", "\n"). */
  function JoinCRLF(s: string): string {
    if s == "" then ""
    else if |s| > 1 && s[0] == '\r' && s[1] == '\n' then "\n" + JoinCRLF(s[2..])
    else [s[0]] + JoinCRLF(s[1..])
  }

  /** strings.ReplaceAll(s, "\r", "\n"). */
  function ReplaceCR(s: string): string {
    if s == "" then "" else [if s[0] == '\r' then '\n' else s[0]] + ReplaceCR(s[1..])
  }

  function Break(c: char): char { if c == '\r' then '\n' else c }

  /** Both replacements at once. */
  function Normalised(s: string): string {
    if s == "" then ""
    else if |s| > 1 && s[0] == '\r' && s[1] == '\n' then "\n" + Normalised(s[2..])
    else [Break(s[0])] + Normalised(s[1..])
  }

  lemma {:induction false} NormalisedInTwo(s: string)
    ensures Normalised(s) == ReplaceCR(JoinCRLF(s))
    decreases |s|
  {
    if s != "" {
      var crlf := |s| > 1 && s[0] == '\r' && s[1] == '\n';
      NormalisedInTwo(if crlf then s[2..] else s[1..]);
      assert JoinCRLF(s)[1..] == JoinCRLF(if crlf then s[2..] else s[1..]);
    }
  }

  /** isJSSpace, what String.prototype.trim strips. */
  predicate IsJSSpace(c: char) {
    c in {'\t', '\n', '\U{000B}', '\U{000C}', '\r', ' ', '\U{00A0}', '\U{1680}', '\U{2028}', '\U{2029}', '\U{202F}', '\U{205F}',
          '\U{3000}', '\U{FEFF}'}
    || '\U{2000}' <= c <= '\U{200A}'
  }

  function TrimLeft(s: string): string { if s != "" && IsJSSpace(s[0]) then TrimLeft(s[1..]) else s }

  function TrimRight(s: string): string { if s != "" && IsJSSpace(s[|s| - 1]) then TrimRight(s[..|s| - 1]) else s }

  function Trim(s: string): string { TrimRight(TrimLeft(s)) }

  /** Whatever follows a text, its normal form comes out whole: a break across the seam is the text's own last break. */
  lemma {:induction false} NormalisedFront(a: string, b: string) returns (after: string)
    ensures Normalised(a + b) == Normalised(a) + after
    decreases |a|
  {
    if a == "" {
      assert a + b == b;
      after := Normalised(b);
    } else if |a| > 1 && a[0] == '\r' && a[1] == '\n' {
      after := NormalisedFront(a[2..], b);
      assert (a + b)[2..] == a[2..] + b;
      Regroup('\n', Normalised(a[2..]), after);
    } else if |a| > 1 {
      after := NormalisedFront(a[1..], b);
      assert (a + b)[1..] == a[1..] + b;
      Regroup(Break(a[0]), Normalised(a[1..]), after);
    } else if a[0] == '\r' && b != "" && b[0] == '\n' {
      after := Normalised(b[1..]);
      assert (a + b)[2..] == b[1..] && Normalised(a) == "\n";
    } else {
      after := Normalised(b);
      assert (a + b)[1..] == b && Normalised(a) == [Break(a[0])];
    }
  }

  lemma {:induction false} NormalisedBack(a: string, b: string) returns (before: string)
    ensures Normalised(a + b) == before + Normalised(b)
    decreases |a|
  {
    before := "";
    if a == "" {
      assert a + b == b;
    } else {
      if |a| > 1 && a[0] == '\r' && a[1] == '\n' {
        assert (a + b)[2..] == a[2..] + b;
        before := NormalisedBack(a[2..], b);
        before := "\n" + before;
      } else if |a| == 1 && a[0] == '\r' && b != "" && b[0] == '\n' {
        assert (a + b)[2..] == b[1..];
      } else {
        assert (a + b)[1..] == a[1..] + b;
        before := NormalisedBack(a[1..], b);
        before := [Break(a[0])] + before;
      }
    }
  }

  lemma NormalisedInside(before: string, s: string, after: string)
    ensures Infix(Normalised(s), Normalised(before + s + after))
  {
    var front := NormalisedBack(before, s + after);
    var back := NormalisedFront(s, after);
    Reassociate(before, s, after);
    InfixAt(front, Normalised(s), back);
    Reassociate(front, Normalised(s), back);
  }

  lemma {:induction false} NormalisedShorter(s: string)
    ensures Units(Normalised(s)) <= Units(s)
    decreases |s|
  {
    if s != "" {
      if |s| > 1 && s[0] == '\r' && s[1] == '\n' {
        NormalisedShorter(s[2..]);
        assert s[1..] == [s[1]] + s[2..];
        assert Units(s) == 2 + Units(s[2..]) by {
          assert s[1..][1..] == s[2..];
          assert Encode(s[1..]) == UnitsOf(s[1]) + Encode(s[2..]);
        }
        assert ("\n" + Normalised(s[2..]))[1..] == Normalised(s[2..]);
      } else {
        NormalisedShorter(s[1..]);
        assert ([Break(s[0])] + Normalised(s[1..]))[1..] == Normalised(s[1..]);
      }
    }
  }

  // ----- what trimming keeps

  predicate Solid(s: string) { s == "" || (!IsJSSpace(s[0]) && !IsJSSpace(s[|s| - 1])) }

  lemma {:induction false} TrimLeftKeeps(x: string, s: string, i: nat)
    requires x != "" && !IsJSSpace(x[0]) && i <= |s| && x <= s[i..]
    ensures Infix(x, TrimLeft(s))
    decreases |s|
  {
    assert s[i] == x[0];
    if IsJSSpace(s[0]) {
      assert s[1..][i - 1..] == s[i..];
      TrimLeftKeeps(x, s[1..], i - 1);
    }
  }

  lemma {:induction false} TrimRightKeeps(x: string, s: string, i: nat)
    requires x != "" && !IsJSSpace(x[|x| - 1]) && i <= |s| && x <= s[i..]
    ensures Infix(x, TrimRight(s))
    decreases |s|
  {
    var n := |s| - 1;
    assert s[i + |x| - 1] == x[|x| - 1];
    if IsJSSpace(s[n]) {
      assert s[..n][i..] == s[i..][..n - i];
      TrimRightKeeps(x, s[..n], i);
    }
  }

  lemma {:induction false} TrimLeftSuffix(s: string)
    ensures |TrimLeft(s)| <= |s| && TrimLeft(s) == s[|s| - |TrimLeft(s)|..]
    ensures TrimLeft(s) != "" ==> !IsJSSpace(TrimLeft(s)[0])
  {
    if s != "" && IsJSSpace(s[0]) {
      TrimLeftSuffix(s[1..]);
    }
  }

  lemma {:induction false} TrimRightPrefix(s: string)
    ensures TrimRight(s) <= s
    ensures TrimRight(s) != "" ==> !IsJSSpace(TrimRight(s)[|TrimRight(s)| - 1])
  {
    if s != "" && IsJSSpace(s[|s| - 1]) {
      TrimRightPrefix(s[..|s| - 1]);
    }
  }

  lemma TrimIsInside(s: string)
    ensures Solid(Trim(s)) && Infix(Trim(s), s) && Units(Trim(s)) <= Units(s)
  {
    TrimIsSolid(s);
    var left := TrimLeft(s);
    TrimLeftSuffix(s);
    TrimRightPrefix(left);
    PartOfTail(s, left, Trim(s));
    InfixUnits(Trim(s), s);
  }

  lemma TrimIsSolid(s: string)
    ensures Solid(Trim(s))
  {
    TrimLeftSuffix(s);
    TrimRightPrefix(TrimLeft(s));
    var trimmed := Trim(s);
    if trimmed != "" {
      assert trimmed[0] == TrimLeft(s)[0];
    }
  }

  lemma PartOfTail(s: string, tail: string, part: string)
    requires |tail| <= |s| && tail == s[|s| - |tail|..] && part <= tail
    ensures Infix(part, s)
  {
    assert part <= s[|s| - |tail|..];
  }

  /** Trimming loses no text that neither starts nor ends in blanks. */
  lemma TrimKeeps(x: string, s: string)
    requires Solid(x) && Infix(x, s)
    ensures Infix(x, Trim(s))
  {
    if x == "" {
      assert x <= Trim(s)[0..];
    } else {
      var i :| 0 <= i <= |s| && x <= s[i..];
      TrimLeftKeeps(x, s, i);
      var j :| 0 <= j <= |TrimLeft(s)| && x <= TrimLeft(s)[j..];
      TrimRightKeeps(x, TrimLeft(s), j);
    }
  }

  /** What a section comes to in a context. */
  function Clean(s: string): string { Trim(Normalised(s)) }

  lemma CleanShorter(s: string)
    ensures Units(Clean(s)) <= Units(s)
  {
    NormalisedShorter(s);
    TrimIsInside(Normalised(s));
  }

  lemma CleanInside(before: string, s: string, after: string)
    ensures Infix(Clean(s), Clean(before + s + after))
  {
    TrimIsInside(Normalised(s));
    NormalisedInside(before, s, after);
    InfixTransitive(Clean(s), Normalised(s), Normalised(before + s + after));
    TrimKeeps(Clean(s), Normalised(before + s + after));
  }

  // ----- the output

  /** The context ContextOutput writes, "" for none. */
  function ContextOutput(ctx: string): string {
    var norm := Clean(ctx);
    if Units(norm) > MAX_CONTEXT then ContextHead(Encode(norm)[..MAX_CONTEXT - 64]) + MARKER else norm
  }

  /** A context within the budget is not cut. */
  lemma NoCut(ctx: string)
    requires Units(ctx) <= MAX_CONTEXT
    ensures ContextOutput(ctx) == Clean(ctx) && Units(ContextOutput(ctx)) <= MAX_CONTEXT
  {
    CleanShorter(ctx);
  }

  lemma MarkerUnits()
    ensures Units(MARKER) <= 2 * 13
  {
    AtMostTwoEach(MARKER);
  }

  /** The longest prefix of whole characters within so many units. */
  predicate LongestWithin(s: string, k: nat, n: nat) { k < |s| && Units(s[..k]) <= n < Units(s[..k + 1]) }

  /**
   * ContextOutput never exceeds the budget. It leaves a context within it as it is; of another it keeps the longest
   * prefix of whole characters within the budget less 64 units, without trailing blanks, and says that it cut it.
   */
  lemma OutputWithinBudget(ctx: string)
    ensures Units(ContextOutput(ctx)) <= MAX_CONTEXT
    ensures Units(Clean(ctx)) <= MAX_CONTEXT ==> ContextOutput(ctx) == Clean(ctx)
    ensures Units(Clean(ctx)) > MAX_CONTEXT ==>
              exists k: nat :: LongestWithin(Clean(ctx), k, MAX_CONTEXT - 64) && ContextOutput(ctx) == TrimTail(Clean(ctx)[..k]) + MARKER
  {
    var norm := Clean(ctx);
    if Units(norm) > MAX_CONTEXT {
      var k := Fitting(norm, MAX_CONTEXT - 64);
      HeadIsPrefix(norm, MAX_CONTEXT - 64);
      FittingIsLongest(norm, MAX_CONTEXT - 64);
      assert norm[..|norm|] == norm;
      assert LongestWithin(norm, k, MAX_CONTEXT - 64);
      EncodeAppend(ContextHead(Encode(norm)[..MAX_CONTEXT - 64]), MARKER);
      MarkerUnits();
    }
  }

  // ----- sections

  datatype Section = Section(text: string, required: bool)

  const REFUSAL :=
    "[crw] required context " + "exceeds the hook context " + "limit; shorten the " + "configured invocation " + "or required guidance "
    + "and retry this hook " + "before mutation."

  /** strings.Join(lines, "\n\n"). */
  function Join(lines: seq<string>): string {
    if lines == [] then "" else if |lines| == 1 then lines[0] else lines[0] + "\n\n" + Join(lines[1..])
  }

  function Gaps(n: nat): nat { if n == 0 then 0 else 2 * (n - 1) }

  function SumUnits(lines: seq<string>): nat {
    if lines == [] then 0 else Units(lines[0]) + SumUnits(lines[1..])
  }

  lemma {:induction false} JoinUnits(lines: seq<string>)
    ensures Units(Join(lines)) == SumUnits(lines) + Gaps(|lines|)
  {
    if |lines| == 1 {
      assert SumUnits(lines[1..]) == 0;
    } else if |lines| > 1 {
      JoinUnits(lines[1..]);
      EncodeAppend(lines[0], "\n\n");
      EncodeAppend(lines[0] + "\n\n", Join(lines[1..]));
      assert "\n\n"[1..] == "\n" && "\n"[1..] == "";
      assert Encode("\n\n") == UnitsOf('\n') + Encode("\n") && Encode("\n") == UnitsOf('\n') + Encode("");
    }
  }

  lemma {:induction false} JoinAround(lines: seq<string>, i: nat) returns (before: string, after: string)
    requires i < |lines|
    ensures Join(lines) == before + lines[i] + after
  {
    if |lines| == 1 {
      before, after := "", "";
    } else if i == 0 {
      before, after := "", "\n\n" + Join(lines[1..]);
      assert Join(lines) == before + lines[0] + after;
    } else {
      before, after := JoinAround(lines[1..], i - 1);
      assert Join(lines) == (lines[0] + "\n\n" + before) + lines[i] + after;
      before := lines[0] + "\n\n" + before;
    }
  }

  function Texts(sections: seq<Section>): (lines: seq<string>)
    ensures |lines| == |sections| && forall i | 0 <= i < |lines| :: lines[i] == sections[i].text
  {
    if sections == [] then [] else [sections[0].text] + Texts(sections[1..])
  }

  /** The units of the required sections, and those of the lines of the others. */
  function RequiredUnits(sections: seq<Section>): nat {
    if sections == [] then 0 else (if sections[0].required then Units(sections[0].text) else 0) + RequiredUnits(sections[1..])
  }

  function OptionalUnits(sections: seq<Section>, lines: seq<string>): nat
    requires |lines| == |sections|
  {
    if sections == [] then 0 else (if sections[0].required then 0 else Units(lines[0])) + OptionalUnits(sections[1..], lines[1..])
  }

  /** A line stands for a section: a required one whole, another one whole or cut between characters. */
  ghost predicate Stands(line: string, s: Section) {
    line == s.text || (!s.required && exists k: nat :: k <= |s.text| && line == TrimTail(s.text[..k]))
  }

  lemma {:induction false} SumSplits(sections: seq<Section>, lines: seq<string>)
    requires |lines| == |sections| && forall i | 0 <= i < |lines| :: sections[i].required ==> lines[i] == sections[i].text
    ensures SumUnits(lines) == RequiredUnits(sections) + OptionalUnits(sections, lines)
  {
    if sections != [] {
      SumSplits(sections[1..], lines[1..]);
    }
  }

  /** The sums, from the other end. */
  lemma {:induction false} RequiredSnoc(sections: seq<Section>, s: Section)
    ensures RequiredUnits(sections + [s]) == RequiredUnits(sections) + if s.required then Units(s.text) else 0
  {
    if sections == [] {
      assert sections + [s] == [s] && [s][1..] == [];
    } else {
      assert (sections + [s])[1..] == sections[1..] + [s];
      RequiredSnoc(sections[1..], s);
    }
  }

  /** The lines of the sections and the units the required ones take (context.go, lines 52 to 59). */
  method Measure(sections: seq<Section>) returns (lines: seq<string>, required: nat)
    ensures lines == Texts(sections) && required == RequiredUnits(sections)
  {
    lines, required := [], 0;
    for i := 0 to |sections|
      invariant |lines| == i && forall j | 0 <= j < i :: lines[j] == sections[j].text
      invariant required == RequiredUnits(sections[..i])
    {
      assert sections[..i + 1] == sections[..i] + [sections[i]];
      RequiredSnoc(sections[..i], sections[i]);
      lines := lines + [sections[i].text];
      if sections[i].required {
        required := required + |Encode(sections[i].text)|;
      }
    }
    assert sections[..|sections|] == sections;
  }

  /** The line of a section within a budget: whole if it is required or fits, else the longest prefix of characters that does. */
  function LineFor(s: Section, budget: nat): string {
    if s.required || Units(s.text) <= budget then s.text else TrimTail(s.text[..Fitting(s.text, budget)])
  }

  function LeftAfter(s: Section, budget: nat): nat {
    if s.required then budget else if Units(s.text) <= budget then budget - Units(s.text) else 0
  }

  /** The lines of the sections when a budget is spent on them in order. */
  function Spent(sections: seq<Section>, budget: nat): seq<string> {
    if sections == [] then [] else [LineFor(sections[0], budget)] + Spent(sections[1..], LeftAfter(sections[0], budget))
  }

  lemma {:induction false} SpentWithin(sections: seq<Section>, budget: nat)
    ensures |Spent(sections, budget)| == |sections|
    ensures forall i | 0 <= i < |sections| :: Stands(Spent(sections, budget)[i], sections[i])
    ensures OptionalUnits(sections, Spent(sections, budget)) <= budget
  {
    if sections != [] {
      var s, left := sections[0], LeftAfter(sections[0], budget);
      SpentWithin(sections[1..], left);
      assert Spent(sections, budget)[1..] == Spent(sections[1..], left);
      LineWithin(s, budget);
    }
  }

  lemma LineWithin(s: Section, budget: nat)
    ensures Stands(LineFor(s, budget), s)
    ensures (if s.required then 0 else Units(LineFor(s, budget))) + LeftAfter(s, budget) <= budget
  {
    if Units(s.text) > budget {
      HeadIsPrefix(s.text, budget);
    }
  }

  /** One section's turn in the loop (lines 70 to 77). */
  method TakeLine(s: Section, budget: nat) returns (line: string, left: nat)
    ensures line == LineFor(s, budget) && left == LeftAfter(s, budget)
  {
    line, left := s.text, budget;
    if !s.required {
      var units := Encode(s.text);
      if |units| > budget {
        HeadIsPrefix(s.text, budget);
        line := ContextHead(units[..budget]);
      }
      left := budget - if budget < |units| then budget else |units|;
    }
  }

  /** Spending the budget on the sections that are not required, in order (lines 69 to 78). */
  method Spend(sections: seq<Section>, texts: seq<string>, allowed: nat) returns (lines: seq<string>)
    requires texts == Texts(sections)
    ensures lines == Spent(sections, allowed)
  {
    lines := texts;
    var budget: nat := allowed;
    for i := 0 to |sections|
      invariant |lines| == |sections|
      invariant lines[..i] + Spent(sections[i..], budget) == Spent(sections, allowed)
    {
      var done := lines[..i];
      var line, left := TakeLine(sections[i], budget);
      assert sections[i..][0] == sections[i] && sections[i..][1..] == sections[i + 1..];
      assert done + ([line] + Spent(sections[i + 1..], left)) == done + [line] + Spent(sections[i + 1..], left);
      lines := lines[i := line];
      budget := left;
      assert lines[..i + 1] == done + [line];
    }
    assert lines[..|sections|] == lines;
  }

  lemma RefusalIsShort()
    ensures Units(REFUSAL) <= MAX_CONTEXT
  {
    AtMostTwoEach(REFUSAL);
  }

  lemma LineSurvives(lines: seq<string>, tail: string, i: nat)
    requires i < |lines|
    ensures Infix(Clean(lines[i]), Clean(Join(lines) + tail))
  {
    var before, after := JoinAround(lines, i);
    CleanInside(before, lines[i], after + tail);
    Reassociate(before + lines[i], after, tail);
  }

  lemma SpentFits(sections: seq<Section>, lines: seq<string>)
    requires |lines| == |sections| && forall i | 0 <= i < |lines| :: Stands(lines[i], sections[i])
    requires RequiredUnits(sections) + OptionalUnits(sections, lines) + Gaps(|lines|) <= MAX_CONTEXT - 64
    ensures Units(Join(lines) + MARKER) <= MAX_CONTEXT
  {
    SumSplits(sections, lines);
    JoinUnits(lines);
    EncodeAppend(Join(lines), MARKER);
    MarkerUnits();
  }

  lemma {:induction false} NoBreaksStay(s: string)
    requires '\r' !in s
    ensures Normalised(s) == s
  {
    if s != "" {
      NoBreaksStay(s[1..]);
    }
  }

  lemma RefusalHasNoBreaks()
    ensures '\r' !in REFUSAL
  {
    assert '\r' !in "[crw] required context " && '\r' !in "exceeds the hook context ";
    assert '\r' !in "limit; shorten the " && '\r' !in "configured invocation " && '\r' !in "or required guidance ";
    assert '\r' !in "and retry this hook " && '\r' !in "before mutation.";
  }

  lemma RefusalIsSolid()
    ensures Solid(REFUSAL)
  {
    var last := "before mutation.";
    assert "[crw] required context "[0] == '[' && last[|last| - 1] == '.';
    assert REFUSAL[0] == '[' && REFUSAL[|REFUSAL| - 1] == last[|last| - 1];
  }

  /** The refusal comes out as it is. */
  lemma RefusalStays()
    ensures Clean(REFUSAL) == REFUSAL
  {
    RefusalHasNoBreaks();
    NoBreaksStay(REFUSAL);
    RefusalIsSolid();
  }

  // ----- what ContextOutputSections writes

  /** The sections fit whole. */
  predicate Fits(sections: seq<Section>) { Units(Join(Texts(sections))) <= MAX_CONTEXT }

  /** They do not, and the required ones leave no room for the marker. */
  predicate TooLong(sections: seq<Section>) {
    !Fits(sections) && RequiredUnits(sections) + Gaps(|sections|) > MAX_CONTEXT - 64
  }

  /** The lines of the sections that fit in part, before the marker. */
  function CutLines(sections: seq<Section>): seq<string>
    requires !Fits(sections) && !TooLong(sections)
  {
    Spent(sections, BudgetOf(sections))
  }

  /** The context of the sections: all of them, their lines cut to the budget and a marker, or only the refusal. */
  function Emitted(sections: seq<Section>): string {
    if Fits(sections) then Clean(Join(Texts(sections)))
    else if TooLong(sections) then REFUSAL
    else Clean(Join(CutLines(sections)) + MARKER)
  }

  /** ContextOutputSections: its output is never cut a second time by ContextOutput. */
  method ContextOutputSections(sections: seq<Section>) returns (out: string)
    ensures out == Emitted(sections) && Units(out) <= MAX_CONTEXT
  {
    var lines, required := Measure(sections);
    if |Encode(Join(lines))| <= MAX_CONTEXT {
      NoCut(Join(lines));
      return ContextOutput(Join(lines));
    }
    var gaps := Gaps(|lines|);
    if required + gaps > MAX_CONTEXT - 64 {
      RefusalIsShort();
      RefusalStays();
      NoCut(REFUSAL);
      return ContextOutput(REFUSAL);
    }
    var budget := MAX_CONTEXT - 64 - required - gaps;
    lines := Spend(sections, lines, budget);
    SpentWithin(sections, budget);
    SpentFits(sections, lines);
    NoCut(Join(lines) + MARKER);
    out := ContextOutput(Join(lines) + MARKER);
  }

  const CUT := "[truncated]"

  predicate EndsWith(s: string, tail: string) { |tail| <= |s| && s[|s| - |tail|..] == tail }

  /** Trimming keeps an end that neither starts nor ends in blanks. */
  lemma {:induction false} TrimLeftEnds(s: string, tail: string)
    requires tail != "" && !IsJSSpace(tail[0]) && EndsWith(s, tail)
    ensures EndsWith(TrimLeft(s), tail)
  {
    if IsJSSpace(s[0]) {
      assert |tail| < |s|;
      assert s[1..][|s| - 1 - |tail|..] == tail;
      TrimLeftEnds(s[1..], tail);
    }
  }

  lemma TrimEnds(s: string, tail: string)
    requires tail != "" && Solid(tail) && EndsWith(s, tail)
    ensures EndsWith(Trim(s), tail)
  {
    TrimLeftEnds(s, tail);
    var left := TrimLeft(s);
    assert left[|left| - 1] == left[|left| - |tail|..][|tail| - 1];
  }

  lemma MarkerIsSolid()
    ensures CUT != "" && Solid(CUT) && '\r' !in MARKER && EndsWith(MARKER, CUT)
  {
    var cut := "[truncated]";
    assert cut[0] == '[' && cut[|cut| - 1] == ']';
    assert MARKER == "\n\n" + CUT && '\r' !in "\n\n" && '\r' !in CUT;
  }

  lemma EndsAfter(before: string, s: string, tail: string)
    requires EndsWith(s, tail)
    ensures EndsWith(before + s, tail)
  {
  }

  /** Sections that are cut end with the marker, so that the reader knows. */
  lemma CutIsMarked(sections: seq<Section>)
    requires !Fits(sections) && !TooLong(sections)
    ensures EndsWith(Emitted(sections), CUT)
  {
    var lines := Join(CutLines(sections));
    var before := NormalisedBack(lines, MARKER);
    MarkerIsSolid();
    NoBreaksStay(MARKER);
    EndsAfter(before, MARKER, CUT);
    TrimEnds(Normalised(lines + MARKER), CUT);
  }

  /** Lines are joined by one blank line, in their order. */
  lemma {:induction false} JoinSplits(a: seq<string>, b: seq<string>)
    requires a != [] && b != []
    ensures Join(a + b) == Join(a) + "\n\n" + Join(b)
  {
    assert (a + b)[1..] == a[1..] + b;
    if |a| > 1 {
      JoinSplits(a[1..], b);
      Reassociate(a[0] + "\n\n", Join(a[1..]) + "\n\n", Join(b));
      Reassociate(a[0] + "\n\n", Join(a[1..]), "\n\n");
    } else {
      assert a[1..] + b == b;
    }
  }

  /** Where the sections fit, every text that is part of them comes out whole, up to line endings and outer blanks. */
  lemma FittingKeeps(sections: seq<Section>, part: string)
    requires Fits(sections) && Infix(part, Join(Texts(sections)))
    ensures Infix(Clean(part), Emitted(sections))
  {
    var before, after := InfixSplits(part, Join(Texts(sections)));
    CleanInside(before, part, after);
  }

  // ----- which sections come out

  /** The units of the sections that are not required. */
  function OptionalSum(sections: seq<Section>): nat {
    if sections == [] then 0 else (if sections[0].required then 0 else Units(sections[0].text)) + OptionalSum(sections[1..])
  }

  lemma {:induction false} OptionalSumCovers(sections: seq<Section>, i: nat)
    requires i < |sections| && !sections[i].required
    ensures OptionalSum(sections[..i + 1]) >= Units(sections[i].text)
  {
    assert sections[..i + 1][1..] == sections[1..][..i];
    if i > 0 {
      OptionalSumCovers(sections[1..], i - 1);
    }
  }

  /** A section is within a budget spent in order: it is required, or empty, or the optional units up to it fit. */
  predicate Within(sections: seq<Section>, budget: nat, i: nat)
    requires i < |sections|
  {
    sections[i].required || sections[i].text == "" || OptionalSum(sections[..i + 1]) <= budget
  }

  /** The line of a section is whole exactly when the section is within the budget. */
  lemma {:induction false} LineWholeExactly(sections: seq<Section>, budget: nat, i: nat)
    requires i < |sections|
    ensures |Spent(sections, budget)| == |sections|
    ensures Spent(sections, budget)[i] == sections[i].text <==> Within(sections, budget, i)
  {
    SpentWithin(sections, budget);
    var s, rest, left := sections[0], sections[1..], LeftAfter(sections[0], budget);
    assert sections[..i + 1][1..] == rest[..i] && sections[..i + 1][0] == s;
    if i == 0 {
      FirstLineExactly(s, budget);
    } else {
      LineWholeExactly(rest, left, i - 1);
      AtMostTwoEach(sections[i].text);
      if !sections[i].required {
        OptionalSumCovers(rest, i - 1);
      }
    }
  }

  lemma FirstLineExactly(s: Section, budget: nat)
    ensures LineFor(s, budget) == s.text <==> s.required || s.text == "" || Units(s.text) <= budget
  {
    if !s.required && Units(s.text) > budget {
      CutIsShorter(s, budget);
    }
  }

  function BudgetOf(sections: seq<Section>): nat
    requires !Fits(sections) && !TooLong(sections)
  {
    MAX_CONTEXT - 64 - RequiredUnits(sections) - Gaps(|sections|)
  }

  /** The budget lets a section through: all of them fit, or they are not refused and the section is within the budget. */
  predicate LetsThrough(sections: seq<Section>, i: nat)
    requires i < |sections|
  {
    Fits(sections) || (!TooLong(sections) && Within(sections, BudgetOf(sections), i))
  }

  /** The lines of an answer that is not the refusal. */
  function LinesOf(sections: seq<Section>): seq<string>
    requires !TooLong(sections)
  {
    if Fits(sections) then Texts(sections) else CutLines(sections)
  }

  /** What an answer keeps, exactly: a section's line is the whole section, or else a proper part of it from its start. */
  lemma LinesExactly(sections: seq<Section>, i: nat)
    requires i < |sections| && !TooLong(sections)
    ensures |LinesOf(sections)| == |sections| && LinesOf(sections)[i] <= sections[i].text
    ensures LinesOf(sections)[i] == sections[i].text <==> LetsThrough(sections, i)
  {
    if !Fits(sections) {
      LineWholeExactly(sections, BudgetOf(sections), i);
      SpentWithin(sections, BudgetOf(sections));
      assert Stands(CutLines(sections)[i], sections[i]);
    }
  }

  /** A section the budget lets through comes out whole, up to line endings and outer blanks. */
  lemma LetThroughComes(sections: seq<Section>, i: nat)
    requires i < |sections| && LetsThrough(sections, i)
    ensures Infix(Clean(sections[i].text), Emitted(sections))
  {
    LinesExactly(sections, i);
    if Fits(sections) {
      LineSurvives(Texts(sections), "", i);
      assert Join(Texts(sections)) + "" == Join(Texts(sections));
    } else {
      LineSurvives(CutLines(sections), MARKER, i);
    }
  }

  /** A required section comes out whole unless the answer is the refusal. */
  lemma RequiredKept(sections: seq<Section>, i: nat)
    requires i < |sections| && sections[i].required && !TooLong(sections)
    ensures Infix(Clean(sections[i].text), Emitted(sections))
  {
    LetThroughComes(sections, i);
  }

  lemma {:induction false} SomeLongRequired(sections: seq<Section>) returns (i: nat)
    requires RequiredUnits(sections) > 310 * |sections|
    ensures i < |sections| && sections[i].required && Units(sections[i].text) > 310
  {
    if sections[0].required && Units(sections[0].text) > 310 {
      i := 0;
    } else {
      i := SomeLongRequired(sections[1..]);
      i := i + 1;
    }
  }

  lemma InfixUnits(part: string, whole: string)
    requires Infix(part, whole)
    ensures Units(part) <= Units(whole)
  {
    var before, after := InfixSplits(part, whole);
    EncodeAppend(before + part, after);
    EncodeAppend(before, part);
  }

  /**
   * The required sections all come out whole exactly when the answer is not the refusal: at most a hundred sections,
   * the required ones without outer blanks or carriage returns, as every caller's are.
   */
  lemma RequiredKeptExactly(sections: seq<Section>)
    requires |sections| <= 100 && forall i | 0 <= i < |sections| && sections[i].required :: Clean(sections[i].text) == sections[i].text
    ensures !TooLong(sections) <==> forall i | 0 <= i < |sections| && sections[i].required :: Infix(Clean(sections[i].text), Emitted(sections))
  {
    if TooLong(sections) {
      var i := SomeLongRequired(sections);
      RefusalUnits();
      if Infix(Clean(sections[i].text), Emitted(sections)) {
        InfixUnits(sections[i].text, REFUSAL);
      }
    } else {
      forall i | 0 <= i < |sections| && sections[i].required ensures Infix(Clean(sections[i].text), Emitted(sections)) {
        RequiredKept(sections, i);
      }
    }
  }

  lemma RefusalUnits()
    ensures Units(REFUSAL) <= 310
  {
    AtMostTwoEach(REFUSAL);
  }

  lemma CutIsShorter(s: Section, budget: nat)
    requires !s.required && Units(s.text) > budget
    ensures |LineFor(s, budget)| < |s.text|
  {
    FittingIsLongest(s.text, budget);
    assert s.text[..|s.text|] == s.text;
  }

  lemma {:induction false} SumsSplit(sections: seq<Section>)
    ensures SumUnits(Texts(sections)) == RequiredUnits(sections) + OptionalSum(sections)
  {
    if sections != [] {
      SumsSplit(sections[1..]);
      assert Texts(sections)[1..] == Texts(sections[1..]);
    }
  }

  /** The optional section at which a running sum first passes a bound. */
  lemma {:induction false} Crossing(sections: seq<Section>, bound: nat, n: nat) returns (i: nat)
    requires n <= |sections| && OptionalSum(sections[..n]) > bound
    ensures i < n && !sections[i].required && OptionalSum(sections[..i]) <= bound < OptionalSum(sections[..i + 1])
  {
    if OptionalSum(sections[..n - 1]) > bound {
      i := Crossing(sections, bound, n - 1);
    } else {
      i := n - 1;
      OptionalSumNext(sections, i);
    }
  }

  lemma {:induction false} OptionalSumNext(sections: seq<Section>, i: nat)
    requires i < |sections|
    ensures OptionalSum(sections[..i + 1]) == OptionalSum(sections[..i]) + if sections[i].required then 0 else Units(sections[i].text)
  {
    assert sections[..i + 1][1..] == sections[1..][..i];
    if i > 0 {
      OptionalSumNext(sections[1..], i - 1);
      assert sections[..i][1..] == sections[1..][..i - 1];
    } else {
      assert sections[..1][1..] == [];
    }
  }

  /**
   * Sections that do not fit and are not refused are cut first at the optional one where the running sum of the
   * optional units passes the budget: its line is a proper part of it, and every section before it comes out.
   */
  lemma CutLosesFirst(sections: seq<Section>) returns (i: nat)
    requires !Fits(sections) && !TooLong(sections)
    ensures i < |sections| == |CutLines(sections)| && !sections[i].required
    ensures OptionalSum(sections[..i]) <= BudgetOf(sections) < OptionalSum(sections[..i + 1])
    ensures CutLines(sections)[i] <= sections[i].text && CutLines(sections)[i] != sections[i].text
    ensures forall k | 0 <= k < i :: LetsThrough(sections, k)
  {
    JoinUnits(Texts(sections));
    SumsSplit(sections);
    assert sections[..|sections|] == sections;
    i := Crossing(sections, BudgetOf(sections), |sections|);
    CrossedIsNotEmpty(sections, i);
    LinesExactly(sections, i);
    forall k | 0 <= k < i ensures LetsThrough(sections, k) {
      SumsGrow(sections, k + 1, i);
    }
  }

  lemma CrossedIsNotEmpty(sections: seq<Section>, i: nat)
    requires i < |sections| && OptionalSum(sections[..i]) < OptionalSum(sections[..i + 1])
    ensures sections[i].text != ""
  {
    OptionalSumNext(sections, i);
  }

  lemma {:induction false} SumsGrow(sections: seq<Section>, a: nat, b: nat)
    requires a <= b <= |sections|
    ensures OptionalSum(sections[..a]) <= OptionalSum(sections[..b])
    decreases b
  {
    if a < b {
      SumsGrow(sections, a, b - 1);
      OptionalSumNext(sections, b - 1);
    }
  }

  // ----- characters that show what was lost

  lemma {:induction false} NormalisedHolds(s: string, x: char)
    requires x != '\r' && x != '\n'
    ensures x in Normalised(s) <==> x in s
    decreases |s|
  {
    if s != "" {
      if |s| > 1 && s[0] == '\r' && s[1] == '\n' {
        NormalisedHolds(s[2..], x);
        assert s == [s[0], s[1]] + s[2..];
      } else {
        NormalisedHolds(s[1..], x);
        assert s == [s[0]] + s[1..];
      }
    }
  }

  lemma InfixHolds(part: string, whole: string, x: char)
    requires Infix(part, whole) && x in part
    ensures x in whole
  {
    var before, after := InfixSplits(part, whole);
  }

  /** Cleaning a text keeps every character that is no blank, and adds none. */
  lemma CleanHolds(s: string, x: char)
    requires !IsJSSpace(x)
    ensures x in Clean(s) <==> x in s
  {
    var norm := Normalised(s);
    NormalisedHolds(s, x);
    TrimIsInside(norm);
    if x in Trim(norm) {
      InfixHolds(Trim(norm), norm, x);
    }
    if x in norm {
      var i :| 0 <= i < |norm| && norm[i] == x;
      assert [x] <= norm[i..];
      TrimKeeps([x], norm);
      InfixHolds([x], Trim(norm), x);
    }
  }

  lemma {:induction false} JoinHolds(lines: seq<string>, x: char)
    requires x != '\n' && x in Join(lines)
    ensures exists line :: line in lines && x in line
  {
    if |lines| == 1 {
      assert lines[0] in lines;
    } else if x in lines[0] {
      assert lines[0] in lines;
    } else {
      JoinHolds(lines[1..], x);
      var line :| line in lines[1..] && x in line;
      assert line in lines;
    }
  }

  /** An answer that was cut has no character that neither its lines nor the marker have, blanks apart. */
  lemma CutHolds(sections: seq<Section>, x: char)
    requires !Fits(sections) && !TooLong(sections) && !IsJSSpace(x) && x !in MARKER
    requires forall line | line in CutLines(sections) :: x !in line
    ensures x !in Emitted(sections)
  {
    CleanHolds(Join(CutLines(sections)) + MARKER, x);
    if x in Join(CutLines(sections)) {
      JoinHolds(CutLines(sections), x);
    }
  }
}
