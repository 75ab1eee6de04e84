/**
 * The formatter node: it turns the final agent state into one text report and
 * one chat message. There are three outcomes, error panel, "no results" line
 * and full report. The full report is built from a header, a comparison table
 * and up to three detailed recommendation blocks.
 */
module ResponseFormatter {
  import opened Wrappers
  import opened Text
  import opened State

  // ===========================================================================
  // Constants
  // ===========================================================================

  const Heavy: string := Repeat('=', 70)
  const Light: string := Repeat('-', 70)

  /** The label shown for each risk profile; the lookup falls back to "Moderate". */
  const RiskLabels: map<RiskTolerance, string> := map[
    Conservative := "Conservative (Safety First)",
    Moderate := "Moderate (Balanced)",
    Aggressive := "Aggressive (Maximum Yield)"
  ]

  /**
   * The digit text of a float, which the source gets from Python's format
   * mini-language: `fixed(x, d)` is `f"{x:.{d}f}"` and `grouped(x, d)` is
   * `f"{x:,.{d}f}"`. Rounding and digit rendering are not modelled, so they
   * are parameters of every operation that shows a float.
   */
  datatype Numerals = Numerals(fixed: (real, nat) -> string, grouped: (real, nat) -> string)

  // ===========================================================================
  // Value helpers
  // ===========================================================================

  /** The four branches of `format_currency`. */
  datatype CurrencyScale = Units | Thousands | Millions | Billions {
    function Suffix(): string {
      match this
      case Units => ""
      case Thousands => "K"
      case Millions => "M"
      case Billions => "B"
    }

    function Order(): nat {
      match this
      case Units => 0
      case Thousands => 1
      case Millions => 2
      case Billions => 3
    }
  }

  /**
   * The branch `format_currency` takes: the thresholds 1e9, 1e6 and 1e3 are
   * tried in that order.
   */
  function ScaleOf(value: real): (s: CurrencyScale)
    ensures s == Billions <==> value >= 1000000000.0
    ensures s == Millions <==> 1000000.0 <= value < 1000000000.0
    ensures s == Thousands <==> 1000.0 <= value < 1000000.0
    ensures s == Units <==> value < 1000.0
  {
    if value >= 1000000000.0 then Billions
    else if value >= 1000000.0 then Millions
    else if value >= 1000.0 then Thousands
    else Units
  }

  /** A larger amount never gets a smaller unit. */
  lemma ScaleMonotone(a: real, b: real)
    requires a <= b
    ensures ScaleOf(a).Order() <= ScaleOf(b).Order()
  {
  }

  /**
   * The quotient that is formatted before a suffix is at least 1 and, for K
   * and M, under 1000. The digits shown are that quotient rounded, so they can
   * read 1000.0 or 1000.00.
   */
  lemma ScaledFigureRange(value: real)
    ensures ScaleOf(value) == Billions ==> value / 1000000000.0 >= 1.0
    ensures ScaleOf(value) == Millions ==> 1.0 <= value / 1000000.0 < 1000.0
    ensures ScaleOf(value) == Thousands ==> 1.0 <= value / 1000.0 < 1000.0
  {
  }

  /**
   * `format_currency(value, decimals)`: a dollar sign, then the amount in
   * billions or millions with two decimals, in thousands with one, each
   * followed by its suffix letter; below a thousand, the amount itself with
   * `decimals` decimals and digit grouping.
   */
  function FormatCurrency(value: real, decimals: nat, num: Numerals): (r: string)
    ensures |r| >= 1 && r[0] == '$'
    ensures ScaleOf(value) != Units ==> |r| >= 2 && r[|r| - 1..] == ScaleOf(value).Suffix()
    ensures ScaleOf(value) == Billions ==> r[1..|r| - 1] == num.fixed(value / 1000000000.0, 2)
    ensures ScaleOf(value) == Millions ==> r[1..|r| - 1] == num.fixed(value / 1000000.0, 2)
    ensures ScaleOf(value) == Thousands ==> r[1..|r| - 1] == num.fixed(value / 1000.0, 1)
    ensures ScaleOf(value) == Units ==> r[1..] == num.grouped(value, decimals)
  {
    match ScaleOf(value)
    case Billions => Scaled(num.fixed(value / 1000000000.0, 2), 'B')
    case Millions => Scaled(num.fixed(value / 1000000.0, 2), 'M')
    case Thousands => Scaled(num.fixed(value / 1000.0, 1), 'K')
    case Units => "$" + num.grouped(value, decimals)
  }

  /** A dollar sign, the figure and the suffix letter. */
  function Scaled(figure: string, suffix: char): (r: string)
    ensures |r| == |figure| + 2 && r[0] == '$' && r[1..|r| - 1] == figure && r[|r| - 1..] == [suffix]
  {
    "$" + figure + [suffix]
  }

  /** One decimal from 10% up, two below. */
  function ApyDecimals(apy: real): (d: nat)
    ensures d == 1 <==> apy >= 10.0
    ensures d == 2 <==> apy < 10.0
  {
    if apy >= 10.0 then 1 else 2
  }

  /** `format_apy`: the figure, with one decimal from 10% up and two below, then a percent sign. */
  function FormatApy(apy: real, num: Numerals): (r: string)
    ensures |r| >= 1 && r[|r| - 1] == '%'
    ensures apy >= 10.0 ==> r[..|r| - 1] == num.fixed(apy, 1)
    ensures apy < 10.0 ==> r[..|r| - 1] == num.fixed(apy, 2)
  {
    num.fixed(apy, ApyDecimals(apy)) + "%"
  }

  /** `int(x)`: the whole part of `x`, truncated toward zero. */
  function Truncate(x: real): (n: int)
    ensures x >= 0.0 ==> 0 <= n && n as real <= x < n as real + 1.0
    ensures x < 0.0 ==> n <= 0 && n as real - 1.0 < x <= n as real
  {
    if x >= 0.0 then x.Floor else -((-x).Floor)
  }

  /**
   * The glyphs of the risk bar: as many `*` as the whole part of the score,
   * then `.` up to ten. For a score in [1, 10], the range the opportunity's
   * validator enforces, that is exactly ten glyphs.
   */
  function RiskGlyphs(score: real): string {
    var filled := Truncate(score);
    Times('*', filled) + Times('.', 10 - filled)
  }

  lemma RiskGlyphsSpec(score: real)
    ensures forall i :: 0 <= i < |RiskGlyphs(score)| ==> RiskGlyphs(score)[i] in "*."
    ensures 1.0 <= score <= 10.0 ==> |RiskGlyphs(score)| == 10
    ensures 1.0 <= score <= 10.0 ==> forall i :: 0 <= i < 10 ==> (RiskGlyphs(score)[i] == '*' <==> i < score.Floor)
  {
  }

  /** "LOW" up to 3, "MED" up to 6, "HIGH" above. */
  function RiskLabel(score: real): (l: string)
    ensures l == "LOW" <==> score <= 3.0
    ensures l == "MED" <==> 3.0 < score <= 6.0
    ensures l == "HIGH" <==> score > 6.0
  {
    if score <= 3.0 then "LOW" else if score <= 6.0 then "MED" else "HIGH"
  }

  /**
   * `format_risk_bar`: the glyphs between brackets, then the score with one
   * decimal out of 10, then the label.
   */
  function FormatRiskBar(score: real, num: Numerals): (r: string)
    ensures var g := RiskGlyphs(score);
      |r| >= |g| + 2 && r[0] == '[' && r[|g| + 1] == ']' && r[1..|g| + 1] == g
    ensures |r| >= |RiskLabel(score)| && r[|r| - |RiskLabel(score)|..] == RiskLabel(score)
  {
    var r := "[" + RiskGlyphs(score) + "] " + num.fixed(score, 1) + "/10 " + RiskLabel(score);
    var tail := RiskLabel(score);
    assert r[|r| - |tail|..] == tail;
    r
  }

  /**
   * `format_time`: whole minutes, rounded down, from a minute up; plain
   * seconds below.
   */
  function FormatTime(seconds: int): (r: string)
    ensures |r| >= 2
    ensures seconds >= 60 ==> r[|r| - 1] == 'm' && AllDigits(r[..|r| - 1])
    ensures seconds >= 60 ==>
      60 * DecimalValue(r[..|r| - 1]) <= seconds < 60 * (DecimalValue(r[..|r| - 1]) + 1)
    ensures seconds < 60 ==> r[|r| - 1] == 's'
    ensures 0 <= seconds < 60 ==> AllDigits(r[..|r| - 1]) && DecimalValue(r[..|r| - 1]) == seconds
  {
    if seconds >= 60 then
      var digits := NatToString(seconds / 60);
      NatToStringRoundTrip(seconds / 60);
      assert (digits + "m")[..|digits|] == digits;
      digits + "m"
    else if seconds >= 0 then
      var digits := NatToString(seconds);
      NatToStringRoundTrip(seconds);
      assert (digits + "s")[..|digits|] == digits;
      digits + "s"
    else
      IntToString(seconds) + "s"
  }

  /** 125 seconds show as whole minutes, 45 seconds as seconds. */
  lemma FormatTimeExamples()
    ensures FormatTime(125) == "2m"
    ensures FormatTime(45) == "45s"
  {
    assert NatToString(45) == "45" by {
      assert NatToString(4) == "4";
    }
  }

  /**
   * `s[:n] + "..."`: at most `n` characters of `s`, then an ellipsis that is
   * there whether or not anything was cut.
   */
  function Ellipsized(s: string, n: nat): (r: string)
    ensures |r| == Min(|s|, n) + 3
    ensures r[|r| - 3..] == "..."
    ensures IsPrefix(r[..|r| - 3], s)
    ensures |s| <= n ==> r == s + "..."
  {
    s[..Min(|s|, n)] + "..."
  }

  lemma RiskLabelsCover(rt: RiskTolerance)
    ensures rt in RiskLabels
  {
    match rt
    case Conservative =>
    case Moderate =>
    case Aggressive =>
  }

  /** The profile label of the header; each profile has its own entry, so the fallback is never shown. */
  function RiskProfileLabel(rt: RiskTolerance): (l: string)
    ensures l != "Moderate"
    ensures rt == Conservative ==> IsPrefix("Conservative", l)
    ensures rt == Moderate ==> IsPrefix("Moderate", l)
    ensures rt == Aggressive ==> IsPrefix("Aggressive", l)
  {
    RiskLabelsCover(rt);
    if rt in RiskLabels then RiskLabels[rt] else "Moderate"
  }

  // ===========================================================================
  // Sections
  // ===========================================================================

  /** The lines of `format_header` before the query line. */
  const HeaderTop: string := "\n" + Heavy + "\n  YIELD INTELLIGENCE REPORT\n" + Heavy + "\n\n"
  const HeaderBottom: string := "\n" + Heavy

  function QueryLine(query: string): string { "  Query: " + Ellipsized(query, 50) + "\n" }

  function AmountLine(amount: real, token: string, num: Numerals): string {
    "  Amount: " + FormatCurrency(amount, 2, num) + " " + token + "\n"
  }

  function ProfileLine(rt: RiskTolerance): string { "  Risk Profile: " + RiskProfileLabel(rt) + "\n" }

  function ResultsLine(numResults: int): string { "  Results: " + IntToString(numResults) + " found\n" }

  /**
   * `format_header`: the banner, then the first 50 characters of the query
   * followed by "...", the amount in `token`, the profile label and the
   * number of results, in that order, and last the closing rule.
   */
  function FormatHeader(query: string, amount: real, token: string, rt: RiskTolerance,
                        numResults: int, num: Numerals): (r: string)
    ensures IsPrefix(HeaderTop + QueryLine(query), r)
    ensures Contains(r, AmountLine(amount, token, num))
    ensures Contains(r, ProfileLine(rt))
    ensures Contains(r, ResultsLine(numResults))
    ensures IsPrefix(HeaderTop + QueryLine(query) + AmountLine(amount, token, num), r)
    ensures IsSuffix(ProfileLine(rt) + ResultsLine(numResults) + HeaderBottom, r)
  {
    var amountLine := AmountLine(amount, token, num);
    LayoutParts(HeaderTop + QueryLine(query), amountLine, ProfileLine(rt), ResultsLine(numResults), HeaderBottom);
    LayoutEnds(HeaderTop + QueryLine(query), amountLine, ProfileLine(rt), ResultsLine(numResults), HeaderBottom);
    HeaderTop + QueryLine(query) + (amountLine + ProfileLine(rt) + ResultsLine(numResults) + HeaderBottom)
  }

  /** Text laid out as `top + (a + b + c + tail)` starts with `top + a` and ends with `b + c + tail`. */
  lemma LayoutEnds(top: string, a: string, b: string, c: string, tail: string)
    ensures IsPrefix(top + a, top + (a + b + c + tail))
    ensures IsSuffix(b + c + tail, top + (a + b + c + tail))
  {
    var r := top + (a + b + c + tail);
    assert r == (top + a) + (b + c + tail);
    assert r[..|top + a|] == top + a;
    assert r[|r| - |b + c + tail|..] == b + c + tail;
  }

  /** Text laid out as `top + (a + b + c + tail)` starts with `top` and contains `a`, `b` and `c`. */
  lemma LayoutParts(top: string, a: string, b: string, c: string, tail: string)
    ensures IsPrefix(top, top + (a + b + c + tail))
    ensures Contains(top + (a + b + c + tail), a)
    ensures Contains(top + (a + b + c + tail), b)
    ensures Contains(top + (a + b + c + tail), c)
  {
    var rest := a + b + c + tail;
    assert (top + rest)[..|top|] == top;
    assert IsPrefix(a, a);
    ContainsBefore(a, b, a);
    ContainsBefore(a + b, c, a);
    ContainsBefore(a + b + c, tail, a);
    ContainsAfter(top, rest, a);
    ContainsMiddle(a + b, c, tail);
    ContainsAfter(top, rest, c);
    assert IsPrefix(b, b);
    ContainsAfter(a, b, b);
    ContainsBefore(a + b, c, b);
    ContainsBefore(a + b + c, tail, b);
    ContainsAfter(top, rest, b);
  }

  /** The first line of a block: rank and protocol, the symbol on its title-cased chain, a light rule. */
  function HeadTitle(rec: Recommendation): (r: string)
    ensures IsPrefix("\n  #" + IntToString(rec.rank) + "  " + rec.opportunity.protocol + "\n", r)
    ensures Contains(r, "      " + rec.opportunity.symbol + " on " + Title(rec.opportunity.chain) + "\n")
    ensures IsSuffix("\n" + Light + "\n", r)
  {
    var title := "\n  #" + IntToString(rec.rank) + "  " + rec.opportunity.protocol + "\n";
    var pair := "      " + rec.opportunity.symbol + " on " + Title(rec.opportunity.chain) + "\n";
    var rule := "\n" + Light + "\n";
    assert (title + pair + rule)[..|title|] == title;
    assert (title + pair + rule)[|title + pair + rule| - |rule|..] == rule;
    ContainsMiddle(title, pair, rule);
    title + pair + rule
  }

  /** The APY line: the APY left-aligned in 12 columns, then the net APY. */
  function ApyLine(rec: Recommendation, num: Numerals): (r: string)
    ensures IsPrefix("      APY: " + FormatApy(rec.opportunity.apy, num), r)
    ensures IsSuffix(" Net APY: " + FormatApy(rec.netApy, num), r)
    ensures |FormatApy(rec.opportunity.apy, num)| <= 12 ==> |r| == 23 + |" Net APY: " + FormatApy(rec.netApy, num)|
  {
    var apy, net := FormatApy(rec.opportunity.apy, num), " Net APY: " + FormatApy(rec.netApy, num);
    PaddedColumn("      APY: ", apy, 12, net);
    "      APY: " + LeftAlign(apy, 12) + net
  }

  /** The TVL line: the TVL left-aligned in 12 columns, then the risk bar. */
  function TvlLine(rec: Recommendation, num: Numerals): (r: string)
    ensures IsPrefix("      TVL: " + FormatCurrency(rec.opportunity.tvlUsd, 2, num), r)
    ensures IsSuffix(" Risk: " + FormatRiskBar(rec.opportunity.riskScore, num) + "\n", r)
    ensures |FormatCurrency(rec.opportunity.tvlUsd, 2, num)| <= 12 ==>
      |r| == 23 + |" Risk: " + FormatRiskBar(rec.opportunity.riskScore, num) + "\n"|
  {
    var tvl := FormatCurrency(rec.opportunity.tvlUsd, 2, num);
    var risk := " Risk: " + FormatRiskBar(rec.opportunity.riskScore, num) + "\n";
    PaddedColumn("      TVL: ", tvl, 12, risk);
    "      TVL: " + LeftAlign(tvl, 12) + risk
  }

  /**
   * The three lines every recommendation block opens with: the rank and
   * protocol, the symbol on its title-cased chain and a light rule; the APY
   * left-aligned in 12 columns, then the net APY; the TVL left-aligned in 12
   * columns, then the risk bar.
   */
  function RecommendationHead(rec: Recommendation, num: Numerals): (lines: seq<string>)
    ensures |lines| == 3
    ensures IsPrefix("\n  #" + IntToString(rec.rank) + "  " + rec.opportunity.protocol + "\n", lines[0])
    ensures Contains(lines[0], "      " + rec.opportunity.symbol + " on " + Title(rec.opportunity.chain) + "\n")
    ensures IsSuffix("\n" + Light + "\n", lines[0])
    ensures IsPrefix("      APY: " + FormatApy(rec.opportunity.apy, num), lines[1])
    ensures IsSuffix(" Net APY: " + FormatApy(rec.netApy, num), lines[1])
    ensures IsPrefix("      TVL: " + FormatCurrency(rec.opportunity.tvlUsd, 2, num), lines[2])
    ensures IsSuffix(" Risk: " + FormatRiskBar(rec.opportunity.riskScore, num) + "\n", lines[2])
  {
    [HeadTitle(rec), ApyLine(rec, num), TvlLine(rec, num)]
  }

  function ReasoningLine(rec: Recommendation): string {
    "      REASONING:\n      " + Ellipsized(rec.whyRecommended, 200) + "\n"
  }

  const StepsTitle: string := "      EXECUTION STEPS:\n"

  /** `[f(x) for x in xs]`, built from the front as the source's loops append. */
  function MapSeq<A, B>(f: A -> B, xs: seq<A>): (ys: seq<B>)
    ensures |ys| == |xs|
    decreases |xs|
  {
    if xs == [] then [] else MapSeq(f, xs[..|xs| - 1]) + [f(xs[|xs| - 1])]
  }

  lemma {:induction false} MapSeqSpec<A, B>(f: A -> B, xs: seq<A>)
    ensures forall i :: 0 <= i < |xs| ==> MapSeq(f, xs)[i] == f(xs[i])
    decreases |xs|
  {
    if xs != [] {
      MapSeqSpec(f, xs[..|xs| - 1]);
    }
  }

  /** Appending one more element appends its image. */
  lemma MapSeqSnoc<A, B>(f: A -> B, xs: seq<A>, i: nat)
    requires i < |xs|
    ensures MapSeq(f, xs[..i + 1]) == MapSeq(f, xs[..i]) + [f(xs[i])]
  {
    assert xs[..i + 1][..i] == xs[..i];
  }

  /** The parts of a sequence made of two leading items, a middle run and a trailing item. */
  lemma Framed<T>(a: T, b: T, m: seq<T>, d: T)
    ensures var s := [a] + [b] + m + [d];
      |s| == 3 + |m| && s[0] == a && s[1] == b && s[|s| - 1] == d
      && forall i :: 0 <= i < |m| ==> s[2 + i] == m[i]
  {
  }

  lemma SnocAssoc<T>(a: seq<T>, b: seq<T>, x: T)
    ensures (a + b) + [x] == a + (b + [x])
  {
  }

  function StepLine(step: string): string { "      " + step }

  /**
   * The lines `format_recommendation` joins: the head, then, when detailed,
   * the reasoning and the shown steps, and a closing rule.
   */
  function RecommendationLines(rec: Recommendation, detailed: bool, num: Numerals): seq<string> {
    var shown := rec.executionSteps[..Min(|rec.executionSteps|, 3)];
    if detailed then RecommendationHead(rec, num) + [ReasoningLine(rec)] + [StepsTitle] + MapSeq(StepLine, shown) + ["\n" + Light]
    else RecommendationHead(rec, num) + ["\n" + Light]
  }

  /**
   * A block opens with the head and ends with a rule; a detailed block shows
   * the reasoning cut to 200 characters and the first three execution steps,
   * in order, and no others.
   */
  lemma RecommendationLinesSpec(rec: Recommendation, detailed: bool, num: Numerals)
    ensures var lines := RecommendationLines(rec, detailed, num);
      |lines| == (if detailed then 6 + Min(|rec.executionSteps|, 3) else 4)
      && lines[..3] == RecommendationHead(rec, num)
      && lines[|lines| - 1] == "\n" + Light
      && (detailed ==> lines[3] == ReasoningLine(rec) && lines[4] == StepsTitle)
    ensures detailed ==> forall i :: 0 <= i < Min(|rec.executionSteps|, 3) ==>
      RecommendationLines(rec, detailed, num)[5 + i] == "      " + rec.executionSteps[i]
  {
    var head := RecommendationHead(rec, num);
    var shown := rec.executionSteps[..Min(|rec.executionSteps|, 3)];
    if detailed {
      var steps := MapSeq(StepLine, shown);
      BlockParts(head, ReasoningLine(rec), StepsTitle, steps, "\n" + Light);
      MapSeqSpec(StepLine, shown);
      forall i | 0 <= i < Min(|rec.executionSteps|, 3)
        ensures RecommendationLines(rec, detailed, num)[5 + i] == "      " + rec.executionSteps[i]
      {
        assert RecommendationLines(rec, detailed, num)[5 + i] == steps[i] == StepLine(shown[i]);
      }
    } else {
      assert (head + ["\n" + Light])[..3] == head;
    }
  }

  /** The parts of `head + [x] + [y] + m + [z]` for a three-line head. */
  lemma BlockParts<T>(head: seq<T>, x: T, y: T, m: seq<T>, z: T)
    requires |head| == 3
    ensures var s := head + [x] + [y] + m + [z];
      |s| == 6 + |m| && s[..3] == head && s[3] == x && s[4] == y && s[|s| - 1] == z
      && forall i :: 0 <= i < |m| ==> s[5 + i] == m[i]
  {
    var s := head + [x] + [y] + m + [z];
    assert s[..3] == head;
  }

  /** The text `format_recommendation` returns. */
  function RecommendationText(rec: Recommendation, detailed: bool, num: Numerals): string {
    Join(RecommendationLines(rec, detailed, num), "\n")
  }

  /** The block's text starts with its first line, rank and protocol. */
  lemma RecommendationTextStart(rec: Recommendation, detailed: bool, num: Numerals)
    ensures IsPrefix(RecommendationHead(rec, num)[0], RecommendationText(rec, detailed, num))
  {
    var lines := RecommendationLines(rec, detailed, num);
    JoinPrefix(lines, "\n");
  }

  /** `format_recommendation`, appending line by line. */
  method FormatRecommendation(rec: Recommendation, detailed: bool, num: Numerals) returns (r: string)
    ensures r == RecommendationText(rec, detailed, num)
  {
    var lines := RecommendationHead(rec, num);
    if detailed {
      lines := lines + [ReasoningLine(rec)];
      lines := lines + [StepsTitle];
      var shown := rec.executionSteps[..Min(|rec.executionSteps|, 3)];
      ghost var before := lines;
      for i := 0 to |shown|
        invariant lines == before + MapSeq(StepLine, shown[..i])
      {
        MapSeqSnoc(StepLine, shown, i);
        SnocAssoc(before, MapSeq(StepLine, shown[..i]), StepLine(shown[i]));
        lines := lines + ["      " + shown[i]];
      }
      assert shown[..|shown|] == shown;
    }
    lines := lines + ["\n" + Light];
    r := Join(lines, "\n");
  }

  /** The comparison table's title and column header. */
  const SummaryHead: string :=
    "\n  QUICK COMPARISON\n" + Light + "\n  Rank  Protocol             Chain      APY      Risk\n  " + Repeat('-', 60)

  /** The star count of the table, `int(score / 2)`: from 0 to 5 for a validated score. */
  function RiskStars(score: real): int {
    Truncate(score / 2.0)
  }

  lemma RiskStarsRange(score: real)
    requires 1.0 <= score <= 10.0
    ensures 0 <= RiskStars(score) <= 5
    ensures (2 * RiskStars(score)) as real <= score < (2 * RiskStars(score) + 2) as real
  {
  }

  /** A validated recommendation draws ten glyphs in its risk bar and at most five stars in its row. */
  lemma ValidRecommendationRisk(rec: Recommendation)
    requires rec.Valid()
    ensures |RiskGlyphs(rec.opportunity.riskScore)| == 10
    ensures 0 <= RiskStars(rec.opportunity.riskScore) <= 5
  {
    RiskGlyphsSpec(rec.opportunity.riskScore);
    RiskStarsRange(rec.opportunity.riskScore);
  }

  /**
   * One row of the comparison table: rank, protocol, chain, APY and stars in
   * columns of widths 5, 20, 10 and 8 after a two-space indent. When every
   * cell fits its width, each column starts at a fixed position and the stars
   * end the row.
   */
  function SummaryRow(rec: Recommendation, num: Numerals): (r: string)
    ensures var stars := Times('*', RiskStars(rec.opportunity.riskScore));
      |r| >= |stars| && r[|r| - |stars|..] == stars
    ensures CellsFit(rec, num) ==>
      |r| == 49 + |Times('*', RiskStars(rec.opportunity.riskScore))|
      && r[2..7] == LeftAlign(IntToString(rec.rank), 5)
      && r[8..28] == LeftAlign(rec.opportunity.protocol, 20)
      && r[29..39] == LeftAlign(Title(rec.opportunity.chain), 10)
      && r[40..48] == LeftAlign(FormatApy(rec.opportunity.apy, num), 8)
  {
    var a, b := LeftAlign(IntToString(rec.rank), 5), LeftAlign(rec.opportunity.protocol, 20);
    var c, d := LeftAlign(Title(rec.opportunity.chain), 10), LeftAlign(FormatApy(rec.opportunity.apy, num), 8);
    var e := Times('*', RiskStars(rec.opportunity.riskScore));
    RowLayout(a, b, c, d, e);
    "  " + a + " " + b + " " + c + " " + d + " " + e
  }

  /** Every cell of the row is no wider than its column. */
  predicate CellsFit(rec: Recommendation, num: Numerals) {
    |IntToString(rec.rank)| <= 5 && |rec.opportunity.protocol| <= 20
    && |Title(rec.opportunity.chain)| <= 10 && |FormatApy(rec.opportunity.apy, num)| <= 8
  }

  /** Where the cells of a row sit: after the indent, each cell and one space. */
  lemma RowLayout(a: string, b: string, c: string, d: string, e: string)
    ensures var r := "  " + a + " " + b + " " + c + " " + d + " " + e;
      |r| >= |e| && r[|r| - |e|..] == e
      && (|a| == 5 && |b| == 20 && |c| == 10 && |d| == 8 ==>
        |r| == 49 + |e| && r[2..7] == a && r[8..28] == b && r[29..39] == c && r[40..48] == d)
  {
  }

  /** `SummaryRow` for the given numerals, as the row builder the loop maps over the recommendations. */
  function SummaryRowOf(num: Numerals): Recommendation -> string {
    (rec: Recommendation) => SummaryRow(rec, num)
  }

  /** The lines `format_summary` joins: the header and the rows of the first five recommendations. */
  function SummaryLines(recs: seq<Recommendation>, num: Numerals): (lines: seq<string>)
    ensures |lines| == 1 + Min(|recs|, 5)
    ensures lines[0] == SummaryHead
  {
    [SummaryHead] + MapSeq(SummaryRowOf(num), recs[..Min(|recs|, 5)])
  }

  /** The table shows at most five rows, those of the first five recommendations in order. */
  lemma SummaryLinesSpec(recs: seq<Recommendation>, num: Numerals)
    ensures |SummaryLines(recs, num)| <= 6
    ensures forall i :: 0 <= i < Min(|recs|, 5) ==> SummaryLines(recs, num)[i + 1] == SummaryRow(recs[i], num)
  {
    var shown := recs[..Min(|recs|, 5)];
    var rows := MapSeq(SummaryRowOf(num), shown);
    HeadedParts(SummaryHead, rows);
    MapSeqSpec(SummaryRowOf(num), shown);
    forall i | 0 <= i < Min(|recs|, 5)
      ensures SummaryLines(recs, num)[i + 1] == SummaryRow(recs[i], num)
    {
      assert SummaryLines(recs, num)[i + 1] == rows[i] == SummaryRowOf(num)(shown[i]);
    }
  }

  lemma HeadedParts<T>(h: T, m: seq<T>)
    ensures forall i :: 0 <= i < |m| ==> ([h] + m)[i + 1] == m[i]
  {
  }

  /** The text `format_summary` returns: the joined lines and a closing rule. */
  function SummaryText(recs: seq<Recommendation>, num: Numerals): string {
    Join(SummaryLines(recs, num), "\n") + "\n" + Light
  }

  /** `format_summary`, appending one row per shown recommendation. */
  method FormatSummary(recs: seq<Recommendation>, num: Numerals) returns (r: string)
    ensures r == SummaryText(recs, num)
  {
    var lines := [SummaryHead];
    var shown := recs[..Min(|recs|, 5)];
    for i := 0 to |shown|
      invariant lines == [SummaryHead] + MapSeq(SummaryRowOf(num), shown[..i])
    {
      MapSeqSnoc(SummaryRowOf(num), shown, i);
      SnocAssoc([SummaryHead], MapSeq(SummaryRowOf(num), shown[..i]), SummaryRowOf(num)(shown[i]));
      lines := lines + [SummaryRowOf(num)(shown[i])];
    }
    assert shown[..|shown|] == shown;
    r := Join(lines, "\n") + "\n" + Light;
  }

  const ErrorTop: string := "\n" + Heavy + "\n  ERROR\n" + Heavy + "\n\n  "
  const ErrorBottom: string := "\n\n" + Heavy

  /** `format_error`: the error text between two banners; the query is not shown. */
  function FormatError(error: string, query: string): (r: string)
    ensures |r| == |ErrorTop| + |error| + |ErrorBottom|
    ensures IsPrefix(ErrorTop, r)
    ensures r[|ErrorTop|..|ErrorTop| + |error|] == error
    ensures r[|ErrorTop| + |error|..] == ErrorBottom
  {
    ErrorTop + error + ErrorBottom
  }

  /** The panel determines the error it shows. */
  lemma FormatErrorInjective(e1: string, q1: string, e2: string, q2: string)
    requires FormatError(e1, q1) == FormatError(e2, q2)
    ensures e1 == e2
  {
    var r := FormatError(e1, q1);
    assert |e1| == |e2|;
    assert e1 == r[|ErrorTop|..|ErrorTop| + |e1|] == e2;
  }

  // ===========================================================================
  // The formatter node
  // ===========================================================================

  /** What `format_response` hands back: the report, the one chat message carrying it, the step. */
  datatype FormatUpdate = FormatUpdate(formattedResponse: string, messages: seq<string>, processingStep: string)

  datatype Outcome = ErrorPanel | NoResults | Report

  /** An error is reported when it is set and non-empty. */
  predicate HasError(state: AgentState) {
    state.error.Some? && state.error.value != ""
  }

  /** The error branch comes first, then "no results", then the report. */
  function OutcomeOf(state: AgentState): (o: Outcome)
    ensures o == ErrorPanel <==> HasError(state)
    ensures o == NoResults <==> !HasError(state) && state.recommendations == []
    ensures o == Report <==> !HasError(state) && state.recommendations != []
  {
    if HasError(state) then ErrorPanel
    else if state.recommendations == [] then NoResults
    else Report
  }

  /** A fresh state has no error and no recommendations: it is answered with the no-results message. */
  lemma InitialStateHasNoResults()
    ensures OutcomeOf(InitialState()) == NoResults
  {
  }

  /** The step tag of each outcome. */
  function StepTag(o: Outcome): (t: string)
    ensures IsPrefix("formatting_complete", t)
    ensures o == ErrorPanel ==> t == "formatting_complete_error"
    ensures o == NoResults ==> t == "formatting_complete_no_results"
    ensures o == Report ==> t == "formatting_complete"
  {
    match o
    case ErrorPanel => "formatting_complete_error"
    case NoResults => "formatting_complete_no_results"
    case Report => "formatting_complete"
  }

  /** The three outcomes carry three different tags. */
  lemma StepTagsDistinct(a: Outcome, b: Outcome)
    requires a != b
    ensures StepTag(a) != StepTag(b)
  {
  }

  /** `user_query or "Your yield query"`. */
  function QueryOrDefault(state: AgentState): (q: string)
    ensures q != ""
    ensures state.userQuery != "" ==> q == state.userQuery
    ensures state.userQuery == "" ==> q == "Your yield query"
  {
    if state.userQuery == "" then "Your yield query" else state.userQuery
  }

  /** `token or "USD"`: a missing or empty token shows as USD. */
  function TokenOrDefault(state: AgentState): (t: string)
    ensures t != ""
    ensures state.token.Some? && state.token.value != "" ==> t == state.token.value
    ensures state.token.None? || state.token.value == "" ==> t == "USD"
  {
    if state.token.Some? && state.token.value != "" then state.token.value else "USD"
  }

  const NoResultsLead: string := "No yield opportunities found for your query: "

  const Disclaimer: string := "\n  DISCLAIMER: This is not financial advice.\n" + Heavy

  function DetailBlock(num: Numerals): Recommendation -> string {
    (rec: Recommendation) => RecommendationText(rec, true, num)
  }

  /** The sections the report joins: header, table, the blocks of the first three recommendations, disclaimer. */
  function ReportSections(state: AgentState, num: Numerals): seq<string> {
    var recs := state.recommendations;
    [FormatHeader(QueryOrDefault(state), state.amount.GetOr(0.0), TokenOrDefault(state),
                  state.riskTolerance, |recs|, num)]
      + [SummaryText(recs, num)]
      + MapSeq(DetailBlock(num), recs[..Min(|recs|, 3)])
      + [Disclaimer]
  }

  /**
   * The report opens with the header for the query (or its default), the
   * amount (or 0), the token (or USD) and the number of recommendations, then
   * the table, and closes with the disclaimer.
   */
  lemma ReportFrame(state: AgentState, num: Numerals)
    ensures var sections := ReportSections(state, num);
      |sections| == 3 + Min(|state.recommendations|, 3)
      && sections[0] == FormatHeader(QueryOrDefault(state), state.amount.GetOr(0.0), TokenOrDefault(state),
                                     state.riskTolerance, |state.recommendations|, num)
      && sections[1] == SummaryText(state.recommendations, num)
      && sections[|sections| - 1] == Disclaimer
  {
    var recs := state.recommendations;
    Framed(FormatHeader(QueryOrDefault(state), state.amount.GetOr(0.0), TokenOrDefault(state),
                        state.riskTolerance, |recs|, num),
           SummaryText(recs, num), MapSeq(DetailBlock(num), recs[..Min(|recs|, 3)]), Disclaimer);
  }

  /** Between table and disclaimer come the blocks of the first three recommendations, in order. */
  lemma ReportBlocks(state: AgentState, num: Numerals)
    ensures forall i :: 0 <= i < Min(|state.recommendations|, 3) ==>
      ReportSections(state, num)[2 + i] == RecommendationText(state.recommendations[i], true, num)
  {
    var recs := state.recommendations;
    Framed(FormatHeader(QueryOrDefault(state), state.amount.GetOr(0.0), TokenOrDefault(state),
                        state.riskTolerance, |recs|, num),
           SummaryText(recs, num), MapSeq(DetailBlock(num), recs[..Min(|recs|, 3)]), Disclaimer);
    var shown := recs[..Min(|recs|, 3)];
    MapSeqSpec(DetailBlock(num), shown);
    forall i | 0 <= i < Min(|recs|, 3)
      ensures ReportSections(state, num)[2 + i] == RecommendationText(recs[i], true, num)
    {
      assert MapSeq(DetailBlock(num), shown)[i] == DetailBlock(num)(shown[i]);
      assert shown[i] == recs[i];
    }
  }

  /**
   * The report branch of `format_response`: the header and the table, one
   * detailed block per recommendation among the first three, the disclaimer,
   * joined by newlines.
   */
  method FormatReport(state: AgentState, num: Numerals) returns (formatted: string)
    ensures formatted == Join(ReportSections(state, num), "\n")
    ensures |formatted| >= |Disclaimer|
  {
    var recs := state.recommendations;
    var header := FormatHeader(QueryOrDefault(state), state.amount.GetOr(0.0), TokenOrDefault(state),
                               state.riskTolerance, |recs|, num);
    var summary := FormatSummary(recs, num);
    var blocks := FormatDetailBlocks(recs[..Min(|recs|, 3)], num);
    formatted := Join([header] + [summary] + blocks + [Disclaimer], "\n");
  }

  /** The detailed block of each recommendation shown, appended one by one. */
  method FormatDetailBlocks(shown: seq<Recommendation>, num: Numerals) returns (blocks: seq<string>)
    ensures blocks == MapSeq(DetailBlock(num), shown)
  {
    blocks := [];
    for i := 0 to |shown|
      invariant blocks == MapSeq(DetailBlock(num), shown[..i])
    {
      var block := FormatRecommendation(shown[i], true, num);
      assert block == DetailBlock(num)(shown[i]);
      MapSeqSnoc(DetailBlock(num), shown, i);
      blocks := blocks + [block];
    }
    assert shown[..|shown|] == shown;
  }

  /**
   * `format_response`. Exactly one branch runs; its text is both the
   * formatted response and the one message added to the conversation.
   */
  method FormatResponse(state: AgentState, num: Numerals) returns (u: FormatUpdate)
    ensures u.messages == [u.formattedResponse] && u.formattedResponse != ""
    ensures u.processingStep == StepTag(OutcomeOf(state))
    ensures OutcomeOf(state) == ErrorPanel ==>
      u.formattedResponse == FormatError(state.error.value, QueryOrDefault(state))
    ensures OutcomeOf(state) == NoResults ==> u.formattedResponse == NoResultsLead + QueryOrDefault(state)
    ensures OutcomeOf(state) == Report ==> u.formattedResponse == Join(ReportSections(state, num), "\n")
  {
    var query := QueryOrDefault(state);
    if HasError(state) {
      var formatted := FormatError(state.error.value, query);
      return FormatUpdate(formatted, [formatted], "formatting_complete_error");
    }
    if state.recommendations == [] {
      var formatted := NoResultsLead + query;
      return FormatUpdate(formatted, [formatted], "formatting_complete_no_results");
    }
    var formatted := FormatReport(state, num);
    return FormatUpdate(formatted, [formatted], "formatting_complete");
  }

  /** The report starts with the banner of its header. */
  lemma ReportStartsWithBanner(state: AgentState, num: Numerals)
    ensures IsPrefix(HeaderTop, Join(ReportSections(state, num), "\n"))
  {
    var sections := ReportSections(state, num);
    var query := QueryOrDefault(state);
    ReportFrame(state, num);
    JoinPrefix(sections, "\n");
    PrefixOfConcat(HeaderTop, QueryLine(query), sections[0]);
    PrefixTransitive(HeaderTop, sections[0], Join(sections, "\n"));
  }

  /** A joined text starts with its first part. */
  lemma {:induction false} JoinPrefix(parts: seq<string>, sep: string)
    requires |parts| > 0
    ensures IsPrefix(parts[0], Join(parts, sep))
    decreases |parts|
  {
    if |parts| > 1 {
      var init := parts[..|parts| - 1];
      JoinPrefix(init, sep);
      assert init[0] == parts[0];
    }
  }
}
