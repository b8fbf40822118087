/** media/redact.py: the Aadhaar text mask.

    The pattern is  \b(\d{4})\s*(\d{4})\s*(\d{4})\b  and the replacement keeps group 3.  Character
    classes are a parameter, so every result holds for ASCII classes and for Unicode ones alike. */
module Redact {
  import opened Wrappers

  /** The classes `\d`, `\s` and `\w` of the regular-expression engine. */
  datatype Alphabet = Alphabet(digit: char -> bool, space: char -> bool, word: char -> bool) {

    /** What the pattern and its replacement text rely on. */
    ghost predicate Valid() {
      && (forall c :: digit(c) ==> word(c) && !space(c))
      && (forall c :: space(c) ==> !word(c))
      && space(' ') && word('X') && !digit('X') && !digit(' ')
    }
  }

  const MASK: string := "XXXX XXXX "

  /** The replacement f"XXXX XXXX {m.group(3)}" for a match ending at e. */
  function Patch(s: string, e: nat): (g: string)
    requires 4 <= e <= |s|
    ensures |g| == 14 && g[0] == 'X' && g[9] == ' '
    ensures forall j | 0 <= j < 10 :: g[j] == 'X' || g[j] == ' '
    ensures g[10] == s[e - 4] && g[11] == s[e - 3] && g[12] == s[e - 2] && g[13] == s[e - 1]
  {
    seq(14, j requires 0 <= j < 14 => if j == 4 || j == 9 then ' ' else if j < 10 then 'X' else s[e - 14 + j])
  }

  lemma PatchText(s: string, e: nat)
    requires 4 <= e <= |s|
    ensures Patch(s, e) == MASK + s[e - 4..e]
    ensures Patch(s, e)[..10] == ['X', 'X', 'X', 'X', ' ', 'X', 'X', 'X', 'X', ' '] && Patch(s, e)[10..] == s[e - 4..e]
  {
  }

  // ---- the pattern, read declaratively -----------------------------------------------------

  predicate Spaces(a: Alphabet, s: string, lo: nat, hi: nat)
    requires hi <= |s|
  {
    forall k | lo <= k < hi :: a.space(s[k])
  }

  predicate DigitsOrSpaces(a: Alphabet, s: string, lo: nat, hi: nat)
    requires hi <= |s|
  {
    forall k | lo <= k < hi :: a.digit(s[k]) || a.space(s[k])
  }

  /** `\d{4}` at position i. */
  predicate FourDigits(a: Alphabet, s: string, i: nat) {
    i + 4 <= |s| && a.digit(s[i]) && a.digit(s[i + 1]) && a.digit(s[i + 2]) && a.digit(s[i + 3])
  }

  predicate WordBefore(a: Alphabet, s: string, i: nat) { 0 < i <= |s| && a.word(s[i - 1]) }

  predicate WordAt(a: Alphabet, s: string, i: nat) { i < |s| && a.word(s[i]) }

  /** `\b` between positions i - 1 and i. */
  predicate Boundary(a: Alphabet, s: string, i: nat) { WordBefore(a, s, i) != WordAt(a, s, i) }

  /** s[i..e] is  \s*\d{4}\s*\d{4} , its first group at p. */
  predicate TwoGroupsAt(a: Alphabet, s: string, i: nat, p: nat, e: nat) {
    && i <= p && p + 8 <= e <= |s|
    && Spaces(a, s, i, p) && FourDigits(a, s, p)
    && Spaces(a, s, p + 4, e - 4) && FourDigits(a, s, e - 4)
  }

  ghost predicate TwoGroups(a: Alphabet, s: string, i: nat, e: nat) {
    exists p: nat :: TwoGroupsAt(a, s, i, p, e)
  }

  /** The whole pattern matches s[i..e]. */
  ghost predicate Matches(a: Alphabet, s: string, i: nat, e: nat) {
    && i <= |s| && e <= |s| && FourDigits(a, s, i) && TwoGroups(a, s, i + 4, e)
    && Boundary(a, s, i) && Boundary(a, s, e)
  }

  /** s[i..e] is three groups of four digits with nothing but white space between them, the later two at p and q,
      and no letter, digit or underscore touches it on either side. */
  ghost predicate ThreeGroups(a: Alphabet, s: string, i: nat, p: nat, q: nat, e: nat) {
    && i + 4 <= p && p + 4 <= q && q + 4 == e <= |s|
    && (forall k | i <= k < e ::
          if i <= k < i + 4 || p <= k < p + 4 || q <= k < e then a.digit(s[k]) else a.space(s[k]))
    && (i == 0 || !a.word(s[i - 1])) && (e == |s| || !a.word(s[e]))
  }

  /** The pattern, character by character. */
  lemma MatchesMeans(a: Alphabet, s: string, i: nat, e: nat)
    requires a.Valid()
    ensures Matches(a, s, i, e) <==> exists p: nat, q: nat :: ThreeGroups(a, s, i, p, q, e)
  {
    if Matches(a, s, i, e) {
      var p: nat :| TwoGroupsAt(a, s, i + 4, p, e);
      assert ThreeGroups(a, s, i, p, e - 4, e);
    }
    if p: nat, q: nat :| ThreeGroups(a, s, i, p, q, e) {
      assert TwoGroupsAt(a, s, i + 4, p, e);
    }
  }

  ghost predicate Starts(a: Alphabet, s: string, i: nat) { exists e: nat :: Matches(a, s, i, e) }

  ghost predicate HasMatch(a: Alphabet, s: string) { exists i: nat :: Starts(a, s, i) }

  /** No match starts at a position in lo..hi. */
  ghost predicate NoStart(a: Alphabet, s: string, lo: nat, hi: nat) {
    forall k: nat | lo <= k < hi :: !Starts(a, s, k)
  }

  lemma TwoGroupsText(a: Alphabet, s: string, i: nat, e: nat)
    requires TwoGroups(a, s, i, e)
    ensures i + 8 <= e <= |s| && DigitsOrSpaces(a, s, i, e) && FourDigits(a, s, e - 4)
  {
    var p: nat :| TwoGroupsAt(a, s, i, p, e);
  }

  /** n characters of s from i on are those of t from j on. */
  ghost predicate SameText(s: string, i: nat, t: string, j: nat, n: nat) {
    i + n <= |s| && j + n <= |t| && forall k | i <= k < i + n :: s[k] == t[k - i + j]
  }

  /** Group pairs depend only on the text they cover. */
  lemma TwoGroupsMove(a: Alphabet, s: string, i: nat, t: string, j: nat, n: nat)
    requires SameText(t, j, s, i, n) && TwoGroups(a, s, i, i + n)
    ensures n >= 8 && TwoGroups(a, t, j, j + n)
  {
    var p: nat :| TwoGroupsAt(a, s, i, p, i + n);
    assert TwoGroupsAt(a, t, j, p - i + j, j + n);
  }

  lemma MatchText(a: Alphabet, s: string, i: nat, e: nat)
    requires Matches(a, s, i, e)
    ensures i + 12 <= e <= |s| && DigitsOrSpaces(a, s, i, e)
  {
    TwoGroupsText(a, s, i + 4, e);
  }

  lemma StartInRange(a: Alphabet, s: string, i: nat)
    requires Starts(a, s, i)
    ensures i + 12 <= |s|
  {
    var e: nat :| Matches(a, s, i, e);
    TwoGroupsText(a, s, i + 4, e);
  }

  /** Whether the pattern matches depends on the text and on the word classes next to it. */
  lemma MatchMoves(a: Alphabet, s: string, i: nat, t: string, j: nat, n: nat)
    requires a.Valid() && SameText(t, j, s, i, n) && Matches(a, s, i, i + n)
    requires WordBefore(a, s, i) == WordBefore(a, t, j) && WordAt(a, s, i + n) == WordAt(a, t, j + n)
    ensures Matches(a, t, j, j + n)
  {
    TwoGroupsText(a, s, i + 4, i + n);
    TwoGroupsMove(a, s, i + 4, t, j + 4, n - 4);
    TwoGroupsText(a, t, j + 4, j + n);
  }

  // ---- the engine: one greedy attempt per position ----------------------------------------------

  function SkipSpaces(a: Alphabet, s: string, i: nat): (j: nat)
    requires i <= |s|
    ensures i <= j <= |s| && Spaces(a, s, i, j) && (j == |s| || !a.space(s[j]))
    decreases |s| - i
  {
    if i < |s| && a.space(s[i]) then SkipSpaces(a, s, i + 1) else i
  }

  /** The end of the match the engine finds at position i, if it finds one. */
  function MatchEnd(a: Alphabet, s: string, i: nat): (r: Option<nat>)
    ensures r.Some? ==> i + 12 <= r.value <= |s|
  {
    if !FourDigits(a, s, i) || !Boundary(a, s, i) then None else
    var p := SkipSpaces(a, s, i + 4);
    if !FourDigits(a, s, p) then None else
    var q := SkipSpaces(a, s, p + 4);
    if FourDigits(a, s, q) && Boundary(a, s, q + 4) then Some(q + 4) else None
  }

  /** Greedy white-space runs lose no match: the attempt at i succeeds exactly with the only end the
      pattern has there. */
  lemma MatchEndDecidesPattern(a: Alphabet, s: string, i: nat, e: nat)
    requires a.Valid()
    ensures Matches(a, s, i, e) <==> MatchEnd(a, s, i) == Some(e)
  {
    if Matches(a, s, i, e) {
      var p: nat :| TwoGroupsAt(a, s, i + 4, p, e);
      SkipSpacesUnique(a, s, i + 4, p);
      SkipSpacesUnique(a, s, p + 4, e - 4);
    }
    if MatchEnd(a, s, i) == Some(e) {
      assert TwoGroupsAt(a, s, i + 4, SkipSpaces(a, s, i + 4), e);
    }
  }

  lemma SkipSpacesUnique(a: Alphabet, s: string, i: nat, j: nat)
    requires a.Valid() && i <= j < |s| && Spaces(a, s, i, j) && a.digit(s[j])
    ensures SkipSpaces(a, s, i) == j
  {
  }

  // ---- the substitution loop, for whatever matcher ------------------------------------------------

  /** The end of the match a pattern has at each position of a text. */
  type Matcher = nat -> Option<nat>

  ghost predicate Fits(m: Matcher, s: string) {
    forall i: nat :: m(i).Some? ==> i + 12 <= m(i).value <= |s|
  }

  /** `re.sub` from position i on: a match is replaced and skipped, any other character is copied. */
  function Scan(m: Matcher, s: string, i: nat): string
    requires i <= |s| && Fits(m, s)
    decreases |s| - i
  {
    if i == |s| then "" else
    match m(i)
    case Some(e) => Patch(s, e) + Scan(m, s, e)
    case None => [s[i]] + Scan(m, s, i + 1)
  }

  /** The spans the scan replaces from position i on. */
  function Spans(m: Matcher, s: string, i: nat): seq<(nat, nat)>
    requires i <= |s| && Fits(m, s)
    decreases |s| - i
  {
    if i == |s| then [] else
    match m(i)
    case Some(e) => [(i, e)] + Spans(m, s, e)
    case None => Spans(m, s, i + 1)
  }

  function MatcherFor(a: Alphabet, s: string): (m: Matcher)
    ensures Fits(m, s)
  {
    i => MatchEnd(a, s, i)
  }

  function Mask(a: Alphabet, s: string): string { Scan(MatcherFor(a, s), s, 0) }

  /** What mask_aadhaar_text replaces. */
  function Replaced(a: Alphabet, s: string): seq<(nat, nat)> { Spans(MatcherFor(a, s), s, 0) }

  /** m finds exactly the matches of the pattern in s. */
  ghost predicate Decides(a: Alphabet, m: Matcher, s: string) {
    && a.Valid() && Fits(m, s)
    && forall i: nat, e: nat {:trigger Matches(a, s, i, e)} :: Matches(a, s, i, e) <==> m(i) == Some(e)
  }

  lemma EngineDecides(a: Alphabet, s: string)
    requires a.Valid()
    ensures Decides(a, MatcherFor(a, s), s)
  {
    forall i: nat, e: nat
      ensures Matches(a, s, i, e) <==> MatcherFor(a, s)(i) == Some(e)
    {
      MatchEndDecidesPattern(a, s, i, e);
    }
  }

  /** NoStart, in the matcher's terms. */
  ghost predicate Quiet(m: Matcher, lo: nat, hi: nat) {
    forall k: nat | lo <= k < hi :: m(k).None?
  }

  lemma QuietIsNoStart(a: Alphabet, m: Matcher, s: string, lo: nat, hi: nat)
    requires Decides(a, m, s)
    ensures NoStart(a, s, lo, hi) <==> Quiet(m, lo, hi)
  {
    forall k: nat | lo <= k < hi
      ensures Starts(a, s, k) <==> m(k).Some?
    {
      if m(k).Some? { assert Matches(a, s, k, m(k).value); }
    }
  }

  /** The digits at both ends of a match. */
  lemma MatchEnds(a: Alphabet, m: Matcher, s: string, i: nat)
    requires Decides(a, m, s) && m(i).Some?
    ensures FourDigits(a, s, i) && FourDigits(a, s, m(i).value - 4)
  {
    assert Matches(a, s, i, m(i).value);
  }

  // ---- the scan refines "replace the leftmost non-overlapping matches" ---------------------------

  /** spans lists matches from position i on, each leftmost among those starting after the one before. */
  ghost predicate Leftmost(a: Alphabet, s: string, i: nat, spans: seq<(nat, nat)>)
    decreases |spans|
  {
    if spans == [] then NoStart(a, s, i, |s|) else
    var (b, e) := spans[0];
    && i <= b && b + 4 <= e <= |s| && Matches(a, s, b, e)
    && NoStart(a, s, i, b) && Leftmost(a, s, e, spans[1..])
  }

  /** Everything outside the spans verbatim; each span replaced by the mask and its last four characters. */
  ghost function Render(a: Alphabet, s: string, i: nat, spans: seq<(nat, nat)>): string
    requires i <= |s| && Leftmost(a, s, i, spans)
    decreases |spans|
  {
    if spans == [] then s[i..|s|] else
    var (b, e) := spans[0];
    s[i..b] + (Patch(s, e) + Render(a, s, e, spans[1..]))
  }

  lemma {:induction false} SpansSkipQuiet(m: Matcher, s: string, i: nat, j: nat)
    requires i <= j <= |s| && Fits(m, s) && Quiet(m, i, j)
    ensures Spans(m, s, i) == Spans(m, s, j)
    decreases j - i
  {
    if i < j { SpansSkipQuiet(m, s, i + 1, j); }
  }

  /** Text in which no match starts is copied. */
  lemma {:induction false} ScanVerbatim(m: Matcher, s: string, i: nat, j: nat)
    requires i <= j <= |s| && Fits(m, s) && Quiet(m, i, j)
    ensures Scan(m, s, i) == s[i..j] + Scan(m, s, j)
    decreases j - i
  {
    if i < j {
      ScanVerbatim(m, s, i + 1, j);
      Assoc([s[i]], s[i + 1..j], Scan(m, s, j));
      Slice(s, i, i + 1, j);
    } else {
      EmptyLeft(Scan(m, s, j));
    }
  }

  lemma Assoc(x: string, y: string, z: string)
    ensures x + (y + z) == (x + y) + z
  {
  }

  lemma EmptyLeft(x: string)
    ensures "" + x == x
  {
  }

  lemma Slice(s: string, i: nat, j: nat, k: nat)
    requires i <= j <= k <= |s|
    ensures s[i..j] + s[j..k] == s[i..k]
    ensures j == i + 1 ==> s[i..j] == [s[i]]
  {
  }

  /** The first span is the first place where a match starts. */
  lemma {:induction false} FirstSpan(m: Matcher, s: string, i: nat)
    requires i <= |s| && Fits(m, s)
    ensures var spans := Spans(m, s, i);
            if spans == [] then Quiet(m, i, |s|) else
            var (b, e) := spans[0];
            && i <= b < |s| && Quiet(m, i, b) && m(b) == Some(e)
            && spans[1..] == Spans(m, s, e)
    decreases |s| - i
  {
    if i < |s| && m(i).None? { FirstSpan(m, s, i + 1); }
  }

  lemma {:induction false} SpansAreLeftmost(a: Alphabet, m: Matcher, s: string, i: nat)
    requires Decides(a, m, s) && i <= |s|
    ensures Leftmost(a, s, i, Spans(m, s, i))
    decreases |s| - i
  {
    FirstSpan(m, s, i);
    var spans := Spans(m, s, i);
    if spans == [] {
      QuietIsNoStart(a, m, s, i, |s|);
    } else {
      var (b, e) := spans[0];
      QuietIsNoStart(a, m, s, i, b);
      assert Matches(a, s, b, e);
      SpansAreLeftmost(a, m, s, e);
    }
  }

  lemma {:induction false} LeftmostIsSpans(a: Alphabet, m: Matcher, s: string, i: nat, spans: seq<(nat, nat)>)
    requires Decides(a, m, s) && i <= |s| && Leftmost(a, s, i, spans)
    ensures spans == Spans(m, s, i)
    decreases |spans|
  {
    if spans == [] {
      QuietIsNoStart(a, m, s, i, |s|);
      SpansSkipQuiet(m, s, i, |s|);
    } else {
      var (b, e) := spans[0];
      QuietIsNoStart(a, m, s, i, b);
      SpansSkipQuiet(m, s, i, b);
      LeftmostIsSpans(a, m, s, e, spans[1..]);
      assert spans == [(b, e)] + spans[1..];
    }
  }

  lemma ScanToFirst(m: Matcher, s: string, i: nat, b: nat, e: nat)
    requires i <= b < |s| && Fits(m, s) && Quiet(m, i, b) && m(b) == Some(e)
    ensures Scan(m, s, i) == s[i..b] + (Patch(s, e) + Scan(m, s, e))
  {
    ScanVerbatim(m, s, i, b);
  }

  lemma {:induction false} ScanRenders(a: Alphabet, m: Matcher, s: string, i: nat, spans: seq<(nat, nat)>)
    requires Decides(a, m, s) && i <= |s| && Leftmost(a, s, i, spans)
    ensures Scan(m, s, i) == Render(a, s, i, spans)
    decreases |spans|
  {
    if spans == [] {
      QuietIsNoStart(a, m, s, i, |s|);
      ScanVerbatim(m, s, i, |s|);
    } else {
      var (b, e) := spans[0];
      QuietIsNoStart(a, m, s, i, b);
      ScanToFirst(m, s, i, b, e);
      var rest := spans[1..];
      ScanRenders(a, m, s, e, rest);
    }
  }

  /** The mask replaces exactly the leftmost non-overlapping matches, for every list that fits that
      description; such a list exists and is the only one. */
  lemma MaskRefinesSpec(a: Alphabet, s: string, spans: seq<(nat, nat)>)
    requires a.Valid()
    ensures Leftmost(a, s, 0, spans) <==> spans == Replaced(a, s)
    ensures Leftmost(a, s, 0, spans) ==> Mask(a, s) == Render(a, s, 0, spans)
  {
    EngineDecides(a, s);
    SpansAreLeftmost(a, MatcherFor(a, s), s, 0);
    if Leftmost(a, s, 0, spans) {
      LeftmostIsSpans(a, MatcherFor(a, s), s, 0, spans);
      ScanRenders(a, MatcherFor(a, s), s, 0, spans);
    }
  }

  // ---- what the output can still contain ----------------------------------------------------------

  lemma ScanHead(a: Alphabet, m: Matcher, s: string, i: nat)
    requires Decides(a, m, s) && i <= |s|
    ensures Scan(m, s, i) == "" <==> i == |s|
    ensures WordAt(a, Scan(m, s, i), 0) == WordAt(a, s, i)
    ensures i < |s| && m(i).Some? ==> Scan(m, s, i)[0] == 'X'
  {
    if i < |s| && m(i).Some? { MatchEnds(a, m, s, i); }
  }

  /** A stretch of digits and spaces in the output was copied: the mask has brought none of it. */
  lemma {:induction false} ScanAgrees(a: Alphabet, m: Matcher, s: string, i: nat, n: nat)
    requires Decides(a, m, s) && i <= |s| && n <= |Scan(m, s, i)|
    requires DigitsOrSpaces(a, Scan(m, s, i), 0, n)
    ensures i + n <= |s| && Quiet(m, i, i + n)
    decreases n
  {
    if n > 0 {
      ScanHead(a, m, s, i);
      if m(i).None? {
        var r := Scan(m, s, i + 1);
        assert forall k | 0 <= k < n - 1 :: r[k] == Scan(m, s, i)[k + 1];
        ScanAgrees(a, m, s, i + 1, n - 1);
      }
    }
  }

  /** After a replaced match ending at j: two further groups, closed by a boundary, in which no other
      match starts. */
  ghost predicate Residue(a: Alphabet, s: string, j: nat) { exists e: nat :: ResidueTo(a, s, j, e) }

  ghost predicate ResidueTo(a: Alphabet, s: string, j: nat, e: nat) {
    e <= |s| && NoStart(a, s, j, e) && TwoGroups(a, s, j, e) && Boundary(a, s, e)
  }

  /** Offset n of Scan(m, s, i) is where the kept last group of a replaced match begins. */
  predicate Kept(m: Matcher, s: string, i: nat, n: nat)
    requires i <= |s| && Fits(m, s)
    decreases |s| - i
  {
    i < |s| &&
    match m(i)
    case Some(e) => n == 10 || (n >= 14 && Kept(m, s, e, n - 14))
    case None => n >= 1 && Kept(m, s, i + 1, n - 1)
  }

  /** The output so far, t, ends in the same word class as the input read so far. */
  ghost predicate SameLeft(a: Alphabet, s: string, i: nat, t: string)
    requires i <= |s|
  {
    (i == 0 <==> t == "") && WordBefore(a, t, |t|) == WordBefore(a, s, i)
  }

  /** The output read so far grows by one copied character... */
  lemma StepCopy(a: Alphabet, m: Matcher, s: string, i: nat, t: string)
    requires i < |s| && Fits(m, s) && m(i).None? && SameLeft(a, s, i, t)
    ensures t + Scan(m, s, i) == (t + [s[i]]) + Scan(m, s, i + 1)
    ensures SameLeft(a, s, i + 1, t + [s[i]])
  {
    Assoc(t, [s[i]], Scan(m, s, i + 1));
  }

  /** ...or by one replacement. */
  lemma StepMask(a: Alphabet, m: Matcher, s: string, i: nat, e: nat, t: string)
    requires i < |s| && Fits(m, s) && m(i) == Some(e)
    ensures t + Scan(m, s, i) == (t + Patch(s, e)) + Scan(m, s, e)
    ensures SameLeft(a, s, e, t + Patch(s, e))
  {
    Assoc(t, Patch(s, e), Scan(m, s, e));
  }

  /** Digits and spaces of the output, from where the scan result for i begins to e, are input text. */
  lemma CopiedText(a: Alphabet, m: Matcher, s: string, i: nat, t: string, o: string, e: nat)
    requires Decides(a, m, s) && i <= |s| && o == t + Scan(m, s, i)
    requires |t| <= e <= |o| && DigitsOrSpaces(a, o, |t|, e)
    ensures i + e - |t| <= |s| && Quiet(m, i, i + e - |t|)
    ensures SameText(s, i, o, |t|, e - |t|)
    ensures WordAt(a, o, e) == WordAt(a, s, i + e - |t|)
  {
    var n := e - |t|;
    assert forall k | 0 <= k < n :: Scan(m, s, i)[k] == o[|t| + k];
    ScanAgrees(a, m, s, i, n);
    ScanVerbatim(m, s, i, i + n);
    ScanHead(a, m, s, i + n);
  }

  /** The same the other way: input text in which no match starts shows up in the output. */
  lemma ShownText(a: Alphabet, m: Matcher, s: string, i: nat, t: string, o: string, e: nat)
    requires Decides(a, m, s) && i <= e <= |s| && o == t + Scan(m, s, i) && Quiet(m, i, e)
    ensures SameText(o, |t|, s, i, e - i)
    ensures WordAt(a, o, |t| + e - i) == WordAt(a, s, e)
  {
    ScanVerbatim(m, s, i, e);
    ScanHead(a, m, s, e);
  }

  /** A match of the output that begins in copied text would have been a match of the input. */
  lemma NoStartAtCopied(a: Alphabet, m: Matcher, s: string, i: nat, t: string, o: string)
    requires Decides(a, m, s) && i < |s| && SameLeft(a, s, i, t) && m(i).None?
    requires o == t + Scan(m, s, i)
    ensures !Starts(a, o, |t|)
  {
    if Starts(a, o, |t|) {
      var e: nat :| Matches(a, o, |t|, e);
      MatchText(a, o, |t|, e);
      CopiedText(a, m, s, i, t, o, e);
      assert WordBefore(a, o, |t|) == WordBefore(a, t, |t|);
      MovedMatch(a, m, s, i, o, |t|, e - |t|);
    }
  }

  lemma MovedMatch(a: Alphabet, m: Matcher, s: string, i: nat, o: string, j: nat, n: nat)
    requires Decides(a, m, s) && Matches(a, o, j, j + n) && SameText(s, i, o, j, n)
    requires WordBefore(a, o, j) == WordBefore(a, s, i) && WordAt(a, o, j + n) == WordAt(a, s, i + n)
    ensures m(i).Some?
  {
    MatchMoves(a, o, j, s, i, n);
  }

  /** The output o around the kept group of a match ending at e, t being the output before it. */
  lemma KeptPiece(a: Alphabet, s: string, e: nat, t: string, r: string, o: string)
    requires a.Valid() && 4 <= e && FourDigits(a, s, e - 4)
    requires o == (t + Patch(s, e)) + r
    ensures var k := |t| + 10;
            && k + 4 <= |o| && FourDigits(a, o, k) && Boundary(a, o, k)
            && (forall j | |t| <= j < k :: !a.digit(o[j]))
            && (forall j | k < j < k + 4 :: !Boundary(a, o, j))
  {
    var g := Patch(s, e);
    assert forall j | 0 <= j < 14 :: o[|t| + j] == g[j];
    assert WordAt(a, o, |t| + 10) && WordAt(a, o, |t| + 11) && WordAt(a, o, |t| + 12) && WordAt(a, o, |t| + 13);
    assert forall j | |t| <= j < |t| + 10 :: o[j] == g[j - |t|];
  }

  lemma StartInPiece(a: Alphabet, s: string, e: nat, t: string, r: string, o: string, k: nat)
    requires a.Valid() && 4 <= e && FourDigits(a, s, e - 4) && o == (t + Patch(s, e)) + r
    requires |t| <= k < |t| + 14 && Starts(a, o, k)
    ensures k == |t| + 10
  {
    var x: nat :| Matches(a, o, k, x);
    KeptPiece(a, s, e, t, r, o);
  }

  /** Two groups in the output right after the part t written so far are a residue, and back. */
  lemma OutputGroupsAreResidue(a: Alphabet, m: Matcher, s: string, e: nat, t: string, o: string, x: nat)
    requires Decides(a, m, s) && e <= |s| && o == t + Scan(m, s, e)
    requires TwoGroups(a, o, |t|, x) && Boundary(a, o, x)
    ensures Residue(a, s, e)
  {
    TwoGroupsText(a, o, |t|, x);
    CopiedText(a, m, s, e, t, o, x);
    var n := x - |t|;
    TwoGroupsMove(a, o, |t|, s, e, n);
    TwoGroupsText(a, s, e, e + n);
    QuietIsNoStart(a, m, s, e, e + n);
    assert ResidueTo(a, s, e, e + n);
  }

  lemma ResidueIsOutputGroups(a: Alphabet, m: Matcher, s: string, e: nat, t: string, o: string, x: nat)
    requires Decides(a, m, s) && e <= |s| && o == t + Scan(m, s, e) && ResidueTo(a, s, e, x)
    ensures e <= x && TwoGroups(a, o, |t|, |t| + x - e) && Boundary(a, o, |t| + x - e)
  {
    TwoGroupsText(a, s, e, x);
    QuietIsNoStart(a, m, s, e, x);
    ShownText(a, m, s, e, t, o, x);
    TwoGroupsMove(a, s, e, o, |t|, x - e);
    TwoGroupsText(a, o, |t|, |t| + x - e);
  }

  /** A match of the output at the kept group of a match ending at e is exactly a residue at e. */
  lemma MatchAtKeptIsResidue(a: Alphabet, m: Matcher, s: string, e: nat, t: string, o: string)
    requires Decides(a, m, s) && 4 <= e && FourDigits(a, s, e - 4)
    requires o == (t + Patch(s, e)) + Scan(m, s, e)
    ensures Starts(a, o, |t| + 10) <==> Residue(a, s, e)
  {
    var t' := t + Patch(s, e);
    KeptPiece(a, s, e, t, Scan(m, s, e), o);
    if Starts(a, o, |t| + 10) {
      var x: nat :| Matches(a, o, |t| + 10, x);
      OutputGroupsAreResidue(a, m, s, e, t', o, x);
    }
    if Residue(a, s, e) {
      var x: nat :| ResidueTo(a, s, e, x);
      ResidueIsOutputGroups(a, m, s, e, t', o, x);
      assert Matches(a, o, |t| + 10, |t'| + x - e);
    }
  }

  lemma StartInReplacement(a: Alphabet, m: Matcher, s: string, i: nat, t: string, o: string, k: nat)
    requires Decides(a, m, s) && i < |s| && m(i).Some?
    requires o == (t + Patch(s, m(i).value)) + Scan(m, s, m(i).value)
    requires |t| <= k < |t| + 14 && Starts(a, o, k)
    ensures k == |t| + 10
  {
    MatchEnds(a, m, s, i);
    StartInPiece(a, s, m(i).value, t, Scan(m, s, m(i).value), o, k);
  }

  lemma {:induction false} ResidualStartAtKept(
    a: Alphabet, m: Matcher, s: string, i: nat, t: string, o: string, k: nat)
    requires Decides(a, m, s) && i <= |s| && SameLeft(a, s, i, t) && o == t + Scan(m, s, i)
    requires |t| <= k && Starts(a, o, k)
    ensures Kept(m, s, i, k - |t|)
    decreases |s| - i
  {
    if i == |s| {
      StartInRange(a, o, k);
    } else if m(i).Some? {
      var x := m(i).value;
      StepMask(a, m, s, i, x, t);
      if k < |t| + 14 {
        StartInReplacement(a, m, s, i, t, o, k);
      } else {
        ResidualStartAtKept(a, m, s, x, t + Patch(s, x), o, k);
      }
    } else if k == |t| {
      NoStartAtCopied(a, m, s, i, t, o);
    } else {
      StepCopy(a, m, s, i, t);
      ResidualStartAtKept(a, m, s, i + 1, t + [s[i]], o, k);
    }
  }

  lemma ScanStartAtKept(a: Alphabet, m: Matcher, s: string, t: string, o: string, k: nat)
    requires Decides(a, m, s) && t == "" && o == t + Scan(m, s, 0) && Starts(a, o, k)
    ensures Kept(m, s, 0, k)
  {
    ResidualStartAtKept(a, m, s, 0, t, o, k);
  }

  /** A match of the output can only start where a kept last group starts. */
  lemma ResidualMatchStartsAtKept(a: Alphabet, s: string, k: nat)
    requires a.Valid() && Starts(a, Mask(a, s), k)
    ensures Kept(MatcherFor(a, s), s, 0, k)
  {
    EngineDecides(a, s);
    EmptyLeft(Mask(a, s));
    ScanStartAtKept(a, MatcherFor(a, s), s, "", Mask(a, s), k);
  }

  ghost predicate StartsFrom(a: Alphabet, o: string, lo: nat) {
    exists k: nat :: lo <= k && Starts(a, o, k)
  }

  ghost predicate AnyResidue(a: Alphabet, s: string, spans: seq<(nat, nat)>) {
    exists sp :: sp in spans && Residue(a, s, sp.1)
  }

  lemma {:induction false} OutputMatchesAreResidues(
    a: Alphabet, m: Matcher, s: string, i: nat, t: string, o: string)
    requires Decides(a, m, s) && i <= |s| && SameLeft(a, s, i, t) && o == t + Scan(m, s, i)
    ensures StartsFrom(a, o, |t|) <==> AnyResidue(a, s, Spans(m, s, i))
    decreases |s| - i
  {
    forall k: nat | |t| <= k && Starts(a, o, k)
      ensures Kept(m, s, i, k - |t|)
    {
      ResidualStartAtKept(a, m, s, i, t, o, k);
    }
    if i < |s| {
      match m(i)
      case Some(x) =>
        StepMask(a, m, s, i, x, t);
        MatchEnds(a, m, s, i);
        MatchAtKeptIsResidue(a, m, s, x, t, o);
        OutputMatchesAreResidues(a, m, s, x, t + Patch(s, x), o);
        AnyResidueCons(a, s, (i, x), Spans(m, s, x));
      case None =>
        StepCopy(a, m, s, i, t);
        OutputMatchesAreResidues(a, m, s, i + 1, t + [s[i]], o);
    }
  }

  lemma AnyResidueCons(a: Alphabet, s: string, sp: (nat, nat), rest: seq<(nat, nat)>)
    ensures AnyResidue(a, s, [sp] + rest) <==> Residue(a, s, sp.1) || AnyResidue(a, s, rest)
  {
    assert forall x :: x in [sp] + rest <==> x == sp || x in rest;
  }

  /** Exactly when one pass leaves nothing to mask. */
  lemma MatchFreeIffNoResidue(a: Alphabet, s: string)
    requires a.Valid()
    ensures HasMatch(a, Mask(a, s)) <==> AnyResidue(a, s, Replaced(a, s))
  {
    EngineDecides(a, s);
    EmptyLeft(Mask(a, s));
    OutputMatchesAreResidues(a, MatcherFor(a, s), s, 0, "", Mask(a, s));
  }

  // ---- conservation, fixpoints, convergence -------------------------------------------------------

  function Digits(a: Alphabet, s: string): nat {
    if s == "" then 0 else (if a.digit(s[0]) then 1 else 0) + Digits(a, s[1..])
  }

  lemma {:induction false} DigitsConcat(a: Alphabet, s: string, t: string)
    ensures Digits(a, s + t) == Digits(a, s) + Digits(a, t)
  {
    if s == "" {
      assert s + t == t;
    } else {
      assert (s + t)[1..] == s[1..] + t;
      DigitsConcat(a, s[1..], t);
    }
  }

  lemma DigitsCons(a: Alphabet, c: char, t: string)
    ensures Digits(a, [c] + t) == (if a.digit(c) then 1 else 0) + Digits(a, t)
  {
    assert ([c] + t)[1..] == t;
  }

  /** The digits of s[lo..hi], counted in place. */
  function DigitsIn(a: Alphabet, s: string, lo: nat, hi: nat): nat
    requires lo <= hi <= |s|
    decreases hi - lo
  {
    if lo == hi then 0 else (if a.digit(s[lo]) then 1 else 0) + DigitsIn(a, s, lo + 1, hi)
  }

  lemma {:induction false} DigitsInIsDigits(a: Alphabet, s: string, lo: nat, hi: nat)
    requires lo <= hi <= |s|
    ensures DigitsIn(a, s, lo, hi) == Digits(a, s[lo..hi])
    decreases hi - lo
  {
    if lo < hi {
      assert s[lo..hi][1..] == s[lo + 1..hi];
      DigitsInIsDigits(a, s, lo + 1, hi);
    }
  }

  lemma {:induction false} DigitsInSplit(a: Alphabet, s: string, i: nat, j: nat, k: nat)
    requires i <= j <= k <= |s|
    ensures DigitsIn(a, s, i, k) == DigitsIn(a, s, i, j) + DigitsIn(a, s, j, k)
    decreases j - i
  {
    if i < j { DigitsInSplit(a, s, i + 1, j, k); }
  }

  lemma {:induction false} DigitsInSpaces(a: Alphabet, s: string, lo: nat, hi: nat)
    requires a.Valid() && lo <= hi <= |s| && Spaces(a, s, lo, hi)
    ensures DigitsIn(a, s, lo, hi) == 0
    decreases hi - lo
  {
    if lo < hi { DigitsInSpaces(a, s, lo + 1, hi); }
  }

  lemma DigitsInFour(a: Alphabet, s: string, i: nat)
    requires FourDigits(a, s, i)
    ensures DigitsIn(a, s, i, i + 4) == 4
  {
    assert DigitsIn(a, s, i + 3, i + 4) == 1;
    assert DigitsIn(a, s, i + 2, i + 4) == 2;
  }

  lemma DigitsOfMatch(a: Alphabet, s: string, i: nat, e: nat)
    requires a.Valid() && Matches(a, s, i, e)
    ensures i + 12 <= e && DigitsIn(a, s, i, e) == 12 && DigitsIn(a, s, e - 4, e) == 4
  {
    var p: nat :| TwoGroupsAt(a, s, i + 4, p, e);
    DigitsInFour(a, s, i);
    DigitsInFour(a, s, p);
    DigitsInFour(a, s, e - 4);
    DigitsInSpaces(a, s, i + 4, p);
    DigitsInSpaces(a, s, p + 4, e - 4);
    DigitsInSplit(a, s, i, i + 4, e);
    DigitsInSplit(a, s, i + 4, p, e);
    DigitsInSplit(a, s, p, p + 4, e);
    DigitsInSplit(a, s, p + 4, e - 4, e);
  }

  lemma {:induction false} DigitsNone(a: Alphabet, s: string)
    requires forall k | 0 <= k < |s| :: !a.digit(s[k])
    ensures Digits(a, s) == 0
  {
    if s != "" { DigitsNone(a, s[1..]); }
  }

  lemma DigitsOfReplacement(a: Alphabet, s: string, e: nat)
    requires a.Valid() && 4 <= e <= |s|
    ensures Digits(a, Patch(s, e)) == DigitsIn(a, s, e - 4, e)
  {
    var g := Patch(s, e);
    DigitsInIsDigits(a, s, e - 4, e);
    DigitsNone(a, g[..10]);
    DigitsConcat(a, g[..10], s[e - 4..e]);
    assert g == g[..10] + s[e - 4..e];
  }

  lemma {:induction false} ScanRemovesEightPerSpan(a: Alphabet, m: Matcher, s: string, i: nat)
    requires Decides(a, m, s) && i <= |s|
    ensures Digits(a, Scan(m, s, i)) + 8 * |Spans(m, s, i)| == DigitsIn(a, s, i, |s|)
    decreases |s| - i
  {
    if i < |s| {
      match m(i)
      case Some(e) =>
        assert Matches(a, s, i, e);
        DigitsOfMatch(a, s, i, e);
        DigitsInSplit(a, s, i, e, |s|);
        DigitsOfReplacement(a, s, e);
        DigitsConcat(a, Patch(s, e), Scan(m, s, e));
        ScanRemovesEightPerSpan(a, m, s, e);
      case None =>
        DigitsCons(a, s[i], Scan(m, s, i + 1));
        ScanRemovesEightPerSpan(a, m, s, i + 1);
    }
  }

  /** The digits of the output are those of the input less exactly eight per replaced span. */
  lemma MaskConservesDigits(a: Alphabet, s: string)
    requires a.Valid()
    ensures Digits(a, Mask(a, s)) == Digits(a, s) - 8 * |Replaced(a, s)|
  {
    EngineDecides(a, s);
    ScanRemovesEightPerSpan(a, MatcherFor(a, s), s, 0);
    DigitsInIsDigits(a, s, 0, |s|);
    assert s[0..|s|] == s;
  }

  lemma NothingReplacedIffMatchFree(a: Alphabet, s: string)
    requires a.Valid()
    ensures Replaced(a, s) == [] <==> !HasMatch(a, s)
  {
    MaskRefinesSpec(a, s, Replaced(a, s));
    if HasMatch(a, s) {
      var i: nat :| Starts(a, s, i);
      StartInRange(a, s, i);
    }
    if Replaced(a, s) != [] { assert Starts(a, s, Replaced(a, s)[0].0); }
  }

  /** The mask leaves a text alone exactly when it has no match. */
  lemma FixpointIffMatchFree(a: Alphabet, s: string)
    requires a.Valid()
    ensures Mask(a, s) == s <==> !HasMatch(a, s)
  {
    NothingReplacedIffMatchFree(a, s);
    MaskConservesDigits(a, s);
    if !HasMatch(a, s) {
      MaskRefinesSpec(a, s, []);
      assert s[0..] == s;
    }
  }

  /** Masking is idempotent on s exactly when no replaced match leaves a residue. */
  lemma IdempotentIffNoResidue(a: Alphabet, s: string)
    requires a.Valid()
    ensures Mask(a, Mask(a, s)) == Mask(a, s) <==> !AnyResidue(a, s, Replaced(a, s))
  {
    FixpointIffMatchFree(a, Mask(a, s));
    MatchFreeIffNoResidue(a, s);
  }

  function Iterate(a: Alphabet, s: string, n: nat): string
    decreases n
  {
    if n == 0 then s else Iterate(a, Mask(a, s), n - 1)
  }

  lemma {:induction false} IterateFixpoint(a: Alphabet, s: string, n: nat)
    requires Mask(a, s) == s
    ensures Iterate(a, s, n) == s
    decreases n
  {
    if n > 0 { IterateFixpoint(a, s, n - 1); }
  }

  /** Repeating the mask one time for every eight digits leaves no match at all. */
  lemma {:induction false} MaskConverges(a: Alphabet, s: string, n: nat)
    requires a.Valid() && n >= Digits(a, s) / 8
    ensures !HasMatch(a, Iterate(a, s, n))
    decreases n
  {
    FixpointIffMatchFree(a, s);
    NothingReplacedIffMatchFree(a, s);
    MaskConservesDigits(a, s);
    if HasMatch(a, s) {
      MaskConverges(a, Mask(a, s), n - 1);
    } else {
      IterateFixpoint(a, s, n);
    }
  }

  /** One pass is not enough in general: twelve digits, a space and eight more digits keep a
      twelve-digit match after the mask. */
  lemma FiveGroupsLeaveAMatch(a: Alphabet, s: string)
    requires a.Valid() && |s| == 21 && a.space(s[12])
    requires forall k | 0 <= k < 21 && k != 12 :: a.digit(s[k])
    ensures HasMatch(a, Mask(a, s)) && Mask(a, Mask(a, s)) != Mask(a, s)
  {
    assert TwoGroupsAt(a, s, 4, 4, 12);
    MatchEndDecidesPattern(a, s, 0, 12);
    assert Replaced(a, s)[0] == (0, 12);
    forall k: nat | 12 <= k < 21 && Starts(a, s, k) ensures false { StartInRange(a, s, k); }
    assert TwoGroupsAt(a, s, 12, 13, 21);
    assert ResidueTo(a, s, 12, 21);
    MatchFreeIffNoResidue(a, s);
    FixpointIffMatchFree(a, Mask(a, s));
  }
}
