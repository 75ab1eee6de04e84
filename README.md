# Yield Intelligence Agent: state, input parser and response formatter

The Yield Intelligence Agent answers free-text questions such as "best safe
yield for 5k USDC on arbitrum". A pipeline of nodes shares one state record.
This project models the three pieces of that pipeline that hold its logic:

- **The state** (`state.py`). It holds the enumerations (risk tolerance,
  impermanent-loss risk, intent) with their wire strings, and the static
  registry of the seven supported chains with its two lookups (by numeric id,
  and case-insensitively by key or display name). It also holds the entity
  records (yield opportunity, bridge route, gas estimate, recommendation, agent
  state) and the two merge operations that combine partial results. Opportunities
  are merged by pool id, first seen wins. Warnings are deduplicated in
  first-seen order.
- **The input parser** (`nodes/input_parser.py`). It resolves the query from
  the `user_query` field or from the last chat message. It then extracts:
  - the amount, after the `Nk` shorthand is expanded, using the amount pattern
    with thousands commas and a fraction;
  - the token, either the known token right after the amount or, failing
    that, a known token that occurs anywhere in the text (the first one met
    while iterating a set of tokens), with USDC as the default;
  - the chains named by key or by alias;
  - the risk tolerance and the intent, each from keyword buckets checked in
    priority order.

  An external classifier may override the intent.
- **The response formatter** (`nodes/response_formatter.py`). It renders the
  final state in exactly one of three ways:
  - an error panel;
  - a one-line "no results" message;
  - a report: a banner header, a comparison table of at most five rows, at
    most three detailed recommendation blocks, and a disclaimer.

  Its helpers format currency with K/M/B scaling, APY with one or two
  decimals, a ten-glyph risk bar, and times in minutes or seconds.

Dafny modules follow the source files:

- `Wrappers`: the `Option` type.
- `Text`: ASCII case mapping and title case, containment (`in` on strings), decimal digits,
  padding, `sep.join`.
- `State`: `state.py`.
- `InputParser`: `nodes/input_parser.py`.
- `ResponseFormatter`: `nodes/response_formatter.py`.

The records are immutable values (datatypes). Each loop of the source is a
method whose `ensures` ties its result to a specification function. The
properties the source promises are then proved about that function:
- `MergeOpportunities` is tied to `Merged`.
- `ParseChains` is tied to `MentionedChains`.
- `FormatRecommendation` is tied to `RecommendationText`.
- `FormatSummary` is tied to `SummaryText`.

## Model

| member | source | states |
|---|---|---|
| Text.ToLower | src/yield_agent/nodes/input_parser.py:28 | `str.lower` keeps the length and lowers each ASCII capital in place |
| Text.RepeatSpec | src/yield_agent/nodes/response_formatter.py:23-25 | `c * n` is `n` copies of `c` (the 70-character dividers) |
| Text.LeftAlignSpec | src/yield_agent/nodes/response_formatter.py:66-67 | `f"{s:<w}"` keeps `s` whole as a prefix and pads only with spaces, up to width `w` |
| Text.PaddedColumn | src/yield_agent/nodes/response_formatter.py:66-67 | `f"{pre}{a:<w}{post}"` starts with `pre + a` and ends with `post`; when `a` fits, spaces fill up to column `|pre| + w` |
| Text.NatToStringRoundTrip | src/yield_agent/nodes/input_parser.py:29 | reading back the digits `str(n)` writes gives `n` |
| Text.Title | src/yield_agent/nodes/response_formatter.py:65 | `str.title`: keeps the length and every non-letter; a letter that follows no letter becomes upper case, a letter that follows a letter lower case |
| State.IntentFromWire | src/yield_agent/state.py:31-37 | a string is read as an intent exactly when it is that intent's wire string; otherwise no intent has it as wire string |
| State.IntentWireRoundTrip | src/yield_agent/state.py:31-37 | every intent reads back from its own wire string |
| State.RiskToleranceFromWire | src/yield_agent/state.py:18-22 | a string is read as a risk tolerance exactly when it is that tolerance's wire string |
| State.ILRiskFromWire | src/yield_agent/state.py:24-29 | a string is read as an impermanent-loss level exactly when it is that level's wire string |
| State.ChainKeys | src/yield_agent/state.py:43-107 | the registry keys, one per entry, in declaration order |
| State.ChainKeysDistinct | src/yield_agent/state.py:43-107 | registry keys are pairwise distinct and already lower case |
| State.ChainIdsDistinct | src/yield_agent/state.py:43-107 | no two chains share a numeric chain id, so lookup by id is unambiguous |
| State.ChainNamesDistinct | src/yield_agent/state.py:43-107 | no two chains share a display name, case ignored |
| State.GetChainById | src/yield_agent/state.py:259-263 | finds an entry exactly when some registry entry has that id, and the entry found has it |
| State.GetChainByName | src/yield_agent/state.py:265-272 | a key matching the lower-cased name wins; otherwise an entry is found exactly when a display name matches, case ignored |
| State.InitialState | src/yield_agent/state.py:187-241 | every declared default: empty query, moderate tolerance, 100,000 TVL floor, step "initialized"; no amount, token, chain, intent, error or error details; every list and every text empty |
| State.MergeOpportunities | src/yield_agent/state.py:247-254 | the loop computes `Merged`; existing items are an exact prefix; the pool ids of the result are those of both inputs |
| State.MergedPrefix | src/yield_agent/state.py:249 | existing items are never removed or reordered |
| State.MergedIds | src/yield_agent/state.py:247-254 | the result carries every pool id of either input and no other |
| State.MergedAppendsFresh | src/yield_agent/state.py:250-253 | every item after the prefix comes from the new batch and has an id not seen before it |
| State.MergedUniqueIds | src/yield_agent/state.py:247-254 | if the existing ids are unique, the merged ids are unique |
| State.MergedKeepsFirstSeen | src/yield_agent/state.py:250-253 | the first item carrying an unseen id is the one kept |
| State.MergedNothingNew | src/yield_agent/state.py:250-253 | a batch whose ids are all present already changes nothing |
| State.MergeSelf | src/yield_agent/state.py:247-254 | merging a collection into itself gives it back |
| State.MergeTwice | src/yield_agent/state.py:247-254 | merging the same batch twice equals merging it once (safe under retried stages) |
| State.DedupSpec | src/yield_agent/state.py:257 | `dict.fromkeys` keeps each distinct element once, nothing else, in first-occurrence order |
| State.MergeWarnings | src/yield_agent/state.py:256-257 | no repeats; exactly the warnings of either list; ordered by first occurrence in the concatenation |
| State.MergeWarningsExample | src/yield_agent/state.py:256-257 | `["a","b"]` merged with `["b","c"]` is `["a","b","c"]` |
| State.DedupAppendSeen | src/yield_agent/state.py:257 | appending only already-seen elements leaves the deduplicated list unchanged |
| State.DedupOfDistinct | src/yield_agent/state.py:257 | a list without repeats is its own deduplication |
| State.MergeWarningsTwice | src/yield_agent/state.py:256-257 | merging the same warnings again adds nothing |
| InputParser.ParseRiskTolerance | src/yield_agent/nodes/input_parser.py:54-58 | conservative iff a conservative word occurs; aggressive iff none does and an aggressive word does; moderate otherwise |
| InputParser.ParseIntent | src/yield_agent/nodes/input_parser.py:60-65 | compare, then bridge/move, then risk/audit words, first bucket that matches wins; yield search iff none matches; never the general intent |
| InputParser.ParseExclusions | src/yield_agent/nodes/input_parser.py:67-68 | no protocol is ever excluded |
| InputParser.ClassifiersIgnoreCase | src/yield_agent/nodes/input_parser.py:54-65 | both keyword classifiers give the same answer on the text and on its lower-case form |
| InputParser.ConservativeBeatsAggressive | src/yield_agent/nodes/input_parser.py:56-57 | "safe degen farm" is conservative: the conservative bucket is checked first |
| InputParser.CompareBeatsRoute | src/yield_agent/nodes/input_parser.py:62-64 | "bridge vs risk" is a comparison: the compare bucket is checked first |
| InputParser.KeysInSpec | src/yield_agent/nodes/input_parser.py:48-49 | the key scan keeps exactly the keys found in the text, once each, in registry order |
| InputParser.WithAliasesSpec | src/yield_agent/nodes/input_parser.py:50-51 | the alias scan keeps the list found so far as a prefix, adds exactly the keys of aliases found, and adds no duplicate |
| InputParser.WithAliasesOrder | src/yield_agent/nodes/input_parser.py:50-51 | the keys added after the list found so far are alias targets, and with distinct targets they come in the order of the alias table |
| InputParser.AliasKeysDistinct | src/yield_agent/nodes/input_parser.py:25 | the alias table names each target key once, so its order orders the keys added |
| InputParser.AliasTargetsAreKeys | src/yield_agent/nodes/input_parser.py:25 | every alias resolves to a registry key |
| InputParser.MentionedChainsSpec | src/yield_agent/nodes/input_parser.py:45-52 | no chain twice; exactly the registry chains named by key or alias; keys found directly come first, in registry order; the keys found only by alias follow, in the order of the alias table |
| InputParser.ParseChains | src/yield_agent/nodes/input_parser.py:45-52 | the two loops compute `MentionedChains` of the lower-cased text; the current chain is never set |
| InputParser.ExpandThousands | src/yield_agent/nodes/input_parser.py:29 | the `Nk` rewrite leaves a digit in the text exactly when there was one, and text without digits is left unchanged |
| InputParser.ExpandThousandsShorthand | src/yield_agent/nodes/input_parser.py:29 | a run of digits followed by `k` at the end of a word becomes its value times 1000, and the rewrite continues after the `k` |
| InputParser.ExpandShorthandExample | src/yield_agent/nodes/input_parser.py:28-29 | "5k usdc" is normalised to "5000 usdc" |
| InputParser.MatchShorthandExample | src/yield_agent/nodes/input_parser.py:31-32 | on "5000 usdc" the pattern captures the number 5000, no fraction, and the word "usdc" |
| InputParser.ShorthandAmountExample | src/yield_agent/nodes/input_parser.py:27-34 | the amount of "5k usdc" is 5000 |
| InputParser.ShorthandTokenExample | src/yield_agent/nodes/input_parser.py:35-37 | the token of "5k usdc" is USDC, taken from the word after the amount |
| InputParser.GroupedMatchExample | src/yield_agent/nodes/input_parser.py:31-32 | on "1,500 usdc" the pattern captures the number "1500", no fraction, and the word "usdc" |
| InputParser.GroupedAmountExample | src/yield_agent/nodes/input_parser.py:28-34 | the amount of "1,500 usdc" is 1500 |
| InputParser.FractionMatchExample | src/yield_agent/nodes/input_parser.py:31-32 | on "2.5 eth" the pattern captures the number "2" and the fraction "5" |
| InputParser.FractionAmountExample | src/yield_agent/nodes/input_parser.py:28-34 | the amount of "2.5 eth" is 2.5 |
| InputParser.DigitRun | src/yield_agent/nodes/input_parser.py:31 | `\d+`: the longest run of digits at the start |
| InputParser.ThousandsGroups | src/yield_agent/nodes/input_parser.py:31 | `(?:,\d{3})*`: the text consumed is made only of `,ddd` groups, the digits collected are that text without commas, and no further group follows (the repetition is greedy) |
| InputParser.FractionLength | src/yield_agent/nodes/input_parser.py:31 | `(?:\.\d+)?`: nothing exactly when no dot followed by a digit starts the text; otherwise the dot and the whole run of digits after it, up to the first non-digit |
| InputParser.FollowingWord | src/yield_agent/nodes/input_parser.py:31 | `\s*([A-Za-z]{2,10})?`: no word exactly when fewer than two letters follow the white space; otherwise the letters right after the white space, 2 to 10 of them, cut only at ten |
| InputParser.MatchAt | src/yield_agent/nodes/input_parser.py:31 | the number group is the digits and comma groups from the match start with commas dropped; the fraction is the digits after the dot when a fraction follows, else empty; the word is the one after the fraction |
| InputParser.MatchAtPlainNumber | src/yield_agent/nodes/input_parser.py:31 | digits followed by neither a digit, a comma nor a dot are captured as they are, with no fraction, and the next word is the candidate token |
| InputParser.MatchAtGrouped | src/yield_agent/nodes/input_parser.py:31 | digits, one `,ddd` group and text that starts no digit, comma or dot: the number is the digits and the group digits joined, with no fraction |
| InputParser.MatchAtFraction | src/yield_agent/nodes/input_parser.py:31 | digits, a dot, digits and a non-digit: the number is the first digits and the fraction is all the digits after the dot |
| InputParser.FollowingWordCut | src/yield_agent/nodes/input_parser.py:31 | when ten or more letters follow the white space, the word captured is the first ten of them |
| InputParser.FirstDigit | src/yield_agent/nodes/input_parser.py:32 | the leftmost digit, where `re.search` first matches |
| InputParser.MatchNumber | src/yield_agent/nodes/input_parser.py:32 | the pattern matches exactly when the text has a digit, and the match starts at the leftmost digit |
| InputParser.NumberValue | src/yield_agent/nodes/input_parser.py:34 | the amount read is never negative |
| InputParser.AmountOf | src/yield_agent/nodes/input_parser.py:28-34 | an amount is reported exactly when the query has a digit, and it is non-negative |
| InputParser.CapturedToken | src/yield_agent/nodes/input_parser.py:35-37 | a token taken from the word after the amount is a known token |
| InputParser.ParseAmountAndToken | src/yield_agent/nodes/input_parser.py:27-43 | the amount is `AmountOf`; the token is the captured one, else a known token occurring in the text, else none only when no known token occurs |
| InputParser.ResolveQuery | src/yield_agent/nodes/input_parser.py:76-80 | a non-empty `user_query` is the query; otherwise the content of the last message; with no messages the query is empty |
| InputParser.InitialStateIsEmpty | src/yield_agent/nodes/input_parser.py:76-83 | a fresh state resolves to the empty query, so parsing it gives the error record |
| InputParser.ClassifiedIntent | src/yield_agent/nodes/input_parser.py:86-94 | a failed call keeps the rule-based intent; in the lower-cased reply "compare" forces a comparison, else "route" forces route-only, else "risk" forces risk analysis, else the rule-based intent stays; never the general intent |
| InputParser.ParsedQuery | src/yield_agent/nodes/input_parser.py:96-113 | step "input_parsed", no current chain, no exclusions; target chains are the preferred ones, or every registry chain when none is named |
| InputParser.ParseInput | src/yield_agent/nodes/input_parser.py:74-114 | the error record exactly when `user_query` is empty and there is no message or the last one is empty; otherwise `ParsedQuery` with a known token that is the detected one, or USDC when none is detected |
| ResponseFormatter.ScaleOf | src/yield_agent/nodes/response_formatter.py:38-42 | B from 1e9, M from 1e6, K from 1e3, plain below, each exactly on its interval |
| ResponseFormatter.ScaleMonotone | src/yield_agent/nodes/response_formatter.py:38-42 | a larger amount never gets a smaller unit |
| ResponseFormatter.ScaledFigureRange | src/yield_agent/nodes/response_formatter.py:39-41 | the quotient formatted before a suffix, before rounding, is at least 1, and below 1000 for K and M |
| ResponseFormatter.FormatCurrency | src/yield_agent/nodes/response_formatter.py:38-42 | a dollar sign, then the amount over 1e9 or 1e6 with two decimals and B or M, or over 1e3 with one decimal and K; below 1000, the grouped amount with the decimals asked for |
| ResponseFormatter.ApyDecimals | src/yield_agent/nodes/response_formatter.py:45 | one decimal exactly from 10% up, two below |
| ResponseFormatter.FormatApy | src/yield_agent/nodes/response_formatter.py:44-45 | the figure with one decimal from 10% up and two below, then a percent sign |
| ResponseFormatter.Truncate | src/yield_agent/nodes/response_formatter.py:48 | `int(x)` is the integer next to `x` on the side of zero: for `x >= 0`, `n <= x < n + 1`; for `x < 0`, `n - 1 < x <= n` |
| ResponseFormatter.RiskGlyphsSpec | src/yield_agent/nodes/response_formatter.py:48-50 | only `*` and `.` are drawn; for a score in [1, 10] exactly ten glyphs, the first `floor(score)` filled |
| ResponseFormatter.RiskLabel | src/yield_agent/nodes/response_formatter.py:49 | LOW up to 3, MED up to 6, HIGH above, each exactly on its interval |
| ResponseFormatter.FormatRiskBar | src/yield_agent/nodes/response_formatter.py:47-50 | the glyphs of `RiskGlyphs` between brackets at the start, and the label at the end |
| ResponseFormatter.FormatTime | src/yield_agent/nodes/response_formatter.py:52-53 | from 60 seconds up, digits of the whole minutes `m` with `60m <= seconds < 60(m+1)`, then "m"; from 0 to 59, the seconds, then "s" |
| ResponseFormatter.FormatTimeExamples | src/yield_agent/nodes/response_formatter.py:52-53 | 125 seconds show as "2m", 45 seconds as "45s" |
| ResponseFormatter.Ellipsized | src/yield_agent/nodes/response_formatter.py:61 | `s[:n] + "..."`: a prefix of at most `n` characters, always followed by "..." |
| ResponseFormatter.RiskProfileLabel | src/yield_agent/nodes/response_formatter.py:60 | every profile has its own label, so the "Moderate" fallback is never shown; each label names its profile |
| ResponseFormatter.FormatHeader | src/yield_agent/nodes/response_formatter.py:59-61 | the banner, the query line and the amount line lead, in that order; the profile line, the results line and the closing rule end it |
| ResponseFormatter.RecommendationHead | src/yield_agent/nodes/response_formatter.py:65-67 | three lines: rank and protocol first, then the symbol on its title-cased chain, a light rule last; "APY:" with the APY, the net APY at the end; "TVL:" with the TVL, the risk bar at the end |
| ResponseFormatter.HeadTitle | src/yield_agent/nodes/response_formatter.py:65 | the first line starts with the rank and protocol, contains "symbol on Chain" in title case and ends with the light rule |
| ResponseFormatter.ApyLine | src/yield_agent/nodes/response_formatter.py:66 | "APY:" and the APY lead, the net APY ends the line, and a fitting APY is padded so the net APY starts at column 23 |
| ResponseFormatter.TvlLine | src/yield_agent/nodes/response_formatter.py:67 | "TVL:" and the TVL with two decimals lead, the risk bar ends the line, and a fitting TVL is padded so the risk bar starts at column 23 |
| ResponseFormatter.RecommendationLinesSpec | src/yield_agent/nodes/response_formatter.py:63-72 | head first, a rule last; a detailed block has the reasoning, the steps title and exactly the first three steps, in order |
| ResponseFormatter.RecommendationTextStart | src/yield_agent/nodes/response_formatter.py:65 | a block's text starts with its rank and protocol line |
| ResponseFormatter.FormatRecommendation | src/yield_agent/nodes/response_formatter.py:63-73 | the appending loop produces `RecommendationText` |
| ResponseFormatter.RiskStarsRange | src/yield_agent/nodes/response_formatter.py:79 | for a score in [1, 10] the table shows 0 to 5 stars, with `2n <= score < 2n+2` |
| ResponseFormatter.ValidRecommendationRisk | src/yield_agent/state.py:128 | a validated recommendation draws exactly ten risk-bar glyphs and at most five stars |
| ResponseFormatter.SummaryRow | src/yield_agent/nodes/response_formatter.py:79 | the stars end the row; when the cells fit their widths, rank, protocol, title-cased chain and APY sit left-aligned in columns 2, 8, 29 and 40 |
| ResponseFormatter.SummaryLines | src/yield_agent/nodes/response_formatter.py:76-79 | the table header, then one row per recommendation among the first five |
| ResponseFormatter.SummaryLinesSpec | src/yield_agent/nodes/response_formatter.py:75-79 | at most five rows; row `i` is the row of recommendation `i`, in order |
| ResponseFormatter.FormatSummary | src/yield_agent/nodes/response_formatter.py:75-80 | the appending loop produces `SummaryText` |
| ResponseFormatter.FormatError | src/yield_agent/nodes/response_formatter.py:82-83 | the panel is the banner, the error text unchanged, and the closing rule; the query is not shown |
| ResponseFormatter.FormatErrorInjective | src/yield_agent/nodes/response_formatter.py:82-83 | two panels are equal only when their errors are equal |
| ResponseFormatter.OutcomeOf | src/yield_agent/nodes/response_formatter.py:96-106 | error panel iff a non-empty error is set; otherwise no results iff there are no recommendations; otherwise the report |
| ResponseFormatter.InitialStateHasNoResults | src/yield_agent/nodes/response_formatter.py:96-112 | a fresh state, with no error and no recommendations, gets the no-results message |
| ResponseFormatter.StepTag | src/yield_agent/nodes/response_formatter.py:101-130 | "formatting_complete_error" for the error panel, "formatting_complete_no_results" for no results, "formatting_complete" for the report |
| ResponseFormatter.StepTagsDistinct | src/yield_agent/nodes/response_formatter.py:89-131 | the three outcomes carry three different step tags |
| ResponseFormatter.QueryOrDefault | src/yield_agent/nodes/response_formatter.py:93 | a non-empty query is kept; an empty one shows as "Your yield query" |
| ResponseFormatter.TokenOrDefault | src/yield_agent/nodes/response_formatter.py:116 | a present, non-empty token is kept; a missing or empty one shows as "USD" |
| ResponseFormatter.ReportFrame | src/yield_agent/nodes/response_formatter.py:115-124 | header for the defaulted query, amount and token and the number of recommendations, then the table, last the disclaimer |
| ResponseFormatter.ReportBlocks | src/yield_agent/nodes/response_formatter.py:119-120 | the blocks between table and disclaimer are the detailed blocks of the first three recommendations, in order |
| ResponseFormatter.FormatDetailBlocks | src/yield_agent/nodes/response_formatter.py:119-120 | the loop appends the detailed block of each recommendation shown, in order |
| ResponseFormatter.FormatReport | src/yield_agent/nodes/response_formatter.py:114-124 | the report branch builds the header, the table, the detailed blocks and the disclaimer and joins them into `ReportSections`, which end with the disclaimer |
| ResponseFormatter.FormatResponse | src/yield_agent/nodes/response_formatter.py:89-131 | one branch by `OutcomeOf`; its text is both the formatted response and the single message added; the step tag matches the branch |
| ResponseFormatter.ReportStartsWithBanner | src/yield_agent/nodes/response_formatter.py:116 | a report starts with the banner of its header |

## Left out

- `server.py` is not part of this model. It is the HTTP shell around the pipeline.
- The classifier call uses a language model over the network. It is a parameter of `ParseInput`: the reply text, or `None` when the call raised. The prompt and the model name are not modelled.
- Floats are exact `real`s. The digit text of a formatted float (`f"{x:.2f}"`, `f"{x:,.2f}"`) is supplied by the `Numerals` parameter. Rounding, digit grouping and float parsing are therefore not modelled.
- `str.lower`, `str.upper` and `str.title`, and the classes `\d`, `\w` and `\s`, are modelled on ASCII only: `\s` is blank, tab to carriage return and 0x1C to 0x1F; non-ASCII white space, digits and letters are not. Every keyword, token and registry entry is ASCII.
- Pydantic validation is not modelled. `YieldOpportunity.Valid` and `Recommendation.Valid` state the declared bounds. The formatter's helpers are total, as in the source. Facts that hold only for a validated score (ten glyphs, at most five stars) are stated under `1 <= score <= 10`, and `ValidRecommendationRisk` carries them to every validated recommendation.
- The `add_messages` reducer is not modelled, nor is the `AIMessage` wrapper. A message added by the formatter is its content string.
- Message content in the form of a list of parts is not modelled. The parser reads `content` as it is and never joins parts, so a chat message's content is a string here.
- `InputParser.ParseAmountAndToken`: the fallback scan iterates a Python set, whose order is hash order. The contract therefore allows any known token that occurs in the text, rather than one fixed choice.
- `ResponseFormatter.RiskGlyphsSpec`: the exact glyph count is stated only for validated scores. Outside [1, 10] the contract says only that no glyph other than `*` and `.` is drawn.
- The report branch of `format_response` is the separate method `FormatReport`. `FormatResponse` calls it.
- `CHAIN_SYMBOLS` and `DIVIDER_DOT` are declared in the formatter but never used, so neither is modelled.
- `BridgeRoute.tx_data` and `AgentState.error_details` are dictionaries of arbitrary values. They are modelled as maps from strings to strings.
- `InputParser.ExpandThousands`: Python refuses to convert a decimal text of more than 4300 digits to an integer and raises `ValueError`. The model has no such limit and rewrites any run of digits.
- `ResponseFormatter.ScaledFigureRange`: the bound is on the quotient before rounding. The digits come from `Numerals`, so 999999 can still show as "$1000.0K".
