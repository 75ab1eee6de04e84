/**
 * The input parser: turns the user's free text into an amount, a token, chains,
 * a risk tolerance and an intent. Everything here is rule based; the one
 * external call, the language-model classifier, is a parameter: its reply text,
 * or `None` when the call failed.
 */
module InputParser {
  import opened Wrappers
  import opened Text
  import opened State

  // ===========================================================================
  // Vocabularies
  // ===========================================================================

  /** Token symbols the parser recognises. A set: no scan order over it is implied. */
  const KnownTokens: set<string> :=
    {"USDC", "USDT", "DAI", "FRAX", "ETH", "WETH", "BTC", "WBTC", "MATIC", "BNB", "AVAX", "ARB", "OP"}

  /** Short chain names and the registry key each stands for, in declaration order. */
  const ChainAliases: seq<(string, string)> := [
    ("eth", "ethereum"), ("arb", "arbitrum"), ("op", "optimism"),
    ("matic", "polygon"), ("bnb", "bsc"), ("avax", "avalanche")
  ]

  const ConservativeWords: seq<string> := ["safe", "low risk", "conservative"]
  const AggressiveWords: seq<string> := ["aggressive", "high risk", "degen"]
  const CompareWords: seq<string> := ["compare", "vs"]
  const RouteWords: seq<string> := ["bridge", "move"]
  const RiskWords: seq<string> := ["risk", "audit"]

  /** `any(k in text for k in words)`. */
  predicate MentionsAny(text: string, words: seq<string>) {
    exists w :: w in words && Contains(text, w)
  }

  // ===========================================================================
  // Keyword classifiers
  // ===========================================================================

  /**
   * `parse_risk_tolerance`: conservative words are checked first, then
   * aggressive ones; anything else is moderate.
   */
  function ParseRiskTolerance(query: string): (r: RiskTolerance)
    ensures r == Conservative <==> MentionsAny(ToLower(query), ConservativeWords)
    ensures r == Aggressive <==>
      !MentionsAny(ToLower(query), ConservativeWords) && MentionsAny(ToLower(query), AggressiveWords)
    ensures r == Moderate <==>
      !MentionsAny(ToLower(query), ConservativeWords) && !MentionsAny(ToLower(query), AggressiveWords)
  {
    var queryLower := ToLower(query);
    if MentionsAny(queryLower, ConservativeWords) then Conservative
    else if MentionsAny(queryLower, AggressiveWords) then Aggressive
    else Moderate
  }

  /**
   * `parse_intent`: compare words, then bridge/move words, then risk/audit
   * words; no match means a yield search. The general-question intent is never
   * produced.
   */
  function ParseIntent(query: string): (r: Intent)
    ensures r != GeneralQuestion
    ensures r == CompareProtocols <==> MentionsAny(ToLower(query), CompareWords)
    ensures r == RouteOnly <==>
      !MentionsAny(ToLower(query), CompareWords) && MentionsAny(ToLower(query), RouteWords)
    ensures r == RiskAnalysis <==>
      !MentionsAny(ToLower(query), CompareWords) && !MentionsAny(ToLower(query), RouteWords)
      && MentionsAny(ToLower(query), RiskWords)
    ensures r == YieldSearch <==>
      !MentionsAny(ToLower(query), CompareWords) && !MentionsAny(ToLower(query), RouteWords)
      && !MentionsAny(ToLower(query), RiskWords)
  {
    var queryLower := ToLower(query);
    if MentionsAny(queryLower, CompareWords) then CompareProtocols
    else if MentionsAny(queryLower, RouteWords) then RouteOnly
    else if MentionsAny(queryLower, RiskWords) then RiskAnalysis
    else YieldSearch
  }

  /** `parse_exclusions`: no protocol is ever excluded from the text. */
  function ParseExclusions(query: string): (r: seq<string>)
    ensures |r| == 0
  {
    []
  }

  /** A string with no upper-case ASCII letter is its own lower-case form. */
  lemma ToLowerOfLower(s: string)
    requires forall i :: 0 <= i < |s| ==> !IsAsciiUpper(s[i])
    ensures ToLower(s) == s
  {
  }

  /** The classifiers see the text only through its lower-case form. */
  lemma ClassifiersIgnoreCase(query: string)
    ensures ParseRiskTolerance(ToLower(query)) == ParseRiskTolerance(query)
    ensures ParseIntent(ToLower(query)) == ParseIntent(query)
  {
    ToLowerIdempotent(query);
  }

  /** A conservative word wins even when an aggressive word is present too. */
  lemma ConservativeBeatsAggressive()
    ensures ParseRiskTolerance("safe degen farm") == Conservative
  {
    var q := "safe degen farm";
    ToLowerOfLower(q);
    assert q[0] == 's' && q[1] == 'a' && q[2] == 'f' && q[3] == 'e';
    assert q[0..4] == "safe";
    ContainsAt(q, "safe", 0);
    assert "safe" in ConservativeWords;
  }

  /** A compare word wins over a bridge word and a risk word. */
  lemma CompareBeatsRoute()
    ensures ParseIntent("bridge vs risk") == CompareProtocols
  {
    var q := "bridge vs risk";
    ToLowerOfLower(q);
    assert q[7] == 'v' && q[8] == 's';
    assert q[7..9] == "vs";
    ContainsAt(q, "vs", 7);
    assert "vs" in CompareWords;
  }

  // ===========================================================================
  // Chains
  // ===========================================================================

  /** The keys of `keys` that occur in `text`, in the order of `keys`. */
  function KeysIn(keys: seq<string>, text: string): seq<string>
    decreases |keys|
  {
    if keys == [] then []
    else
      var k := keys[|keys| - 1];
      KeysIn(keys[..|keys| - 1], text) + (if Contains(text, k) then [k] else [])
  }

  /** Appends, in alias order, the key of each alias found in `text` unless it is already there. */
  function WithAliases(preferred: seq<string>, aliases: seq<(string, string)>, text: string): seq<string>
    decreases |aliases|
  {
    if aliases == [] then preferred
    else
      var p := WithAliases(preferred, aliases[..|aliases| - 1], text);
      var (alias, key) := aliases[|aliases| - 1];
      if Contains(text, alias) && key !in p then p + [key] else p
  }

  /** The chains `parse_chains` finds in already lower-cased text. */
  function MentionedChains(text: string): seq<string> {
    WithAliases(KeysIn(ChainKeys(), text), ChainAliases, text)
  }

  /** The keys the aliases stand for, in alias order. */
  function AliasKeys(aliases: seq<(string, string)>): (r: seq<string>)
    ensures |r| == |aliases| && forall i :: 0 <= i < |aliases| ==> r[i] == aliases[i].1
  {
    seq(|aliases|, i requires 0 <= i < |aliases| => aliases[i].1)
  }

  /** Some alias in `aliases` that stands for `key` occurs in `text`. */
  predicate AliasFound(aliases: seq<(string, string)>, text: string, key: string) {
    exists i :: 0 <= i < |aliases| && aliases[i].1 == key && Contains(text, aliases[i].0)
  }

  /** Some alias of `key` occurs in `text`. */
  predicate AliasMentioned(text: string, key: string) {
    AliasFound(ChainAliases, text, key)
  }

  /** `KeysIn` keeps exactly the keys that occur, without repeating any, in key order. */
  lemma {:induction false} KeysInSpec(keys: seq<string>, text: string)
    requires NoDuplicates(keys)
    ensures forall k :: k in KeysIn(keys, text) <==> k in keys && Contains(text, k)
    ensures NoDuplicates(KeysIn(keys, text))
    ensures forall i, j :: 0 <= i < j < |KeysIn(keys, text)| ==>
      FirstIndex(keys, KeysIn(keys, text)[i]) < FirstIndex(keys, KeysIn(keys, text)[j])
    decreases |keys|
  {
    if keys != [] {
      var init, k := keys[..|keys| - 1], keys[|keys| - 1];
      assert keys == init + [k];
      assert NoDuplicates(init);
      KeysInSpec(init, text);
      assert k !in init;
      forall y | y in init
        ensures FirstIndex(keys, y) == FirstIndex(init, y)
      {
        FirstIndexInPrefix(init, [k], y);
      }
      assert FirstIndex(keys, k) == |keys| - 1;
    }
  }

  /** Alias resolution keeps what was there as a prefix and adds each aliased key at most once. */
  lemma {:induction false} WithAliasesSpec(preferred: seq<string>, aliases: seq<(string, string)>, text: string)
    ensures |preferred| <= |WithAliases(preferred, aliases, text)|
    ensures WithAliases(preferred, aliases, text)[..|preferred|] == preferred
    ensures forall k :: k in WithAliases(preferred, aliases, text) <==> k in preferred || AliasFound(aliases, text, k)
    ensures NoDuplicates(preferred) ==> NoDuplicates(WithAliases(preferred, aliases, text))
    decreases |aliases|
  {
    if aliases != [] {
      var init := aliases[..|aliases| - 1];
      WithAliasesSpec(preferred, init, text);
      var p := WithAliases(preferred, init, text);
      var (alias, key) := aliases[|aliases| - 1];
      forall k
        ensures AliasFound(aliases, text, k) <==> AliasFound(init, text, k) || (k == key && Contains(text, alias))
      {
        if AliasFound(aliases, text, k) {
          var i :| 0 <= i < |aliases| && aliases[i].1 == k && Contains(text, aliases[i].0);
          if i < |init| { assert init[i] == aliases[i]; }
        }
        if AliasFound(init, text, k) {
          var i :| 0 <= i < |init| && init[i].1 == k && Contains(text, init[i].0);
          assert aliases[i] == init[i];
        }
      }
      if Contains(text, alias) && key !in p {
        assert (p + [key])[..|preferred|] == p[..|preferred|];
      }
    }
  }

  /**
   * The keys alias resolution adds are alias keys; when no two aliases share
   * a key, they come in the order of their aliases.
   */
  lemma {:induction false} WithAliasesOrder(preferred: seq<string>, aliases: seq<(string, string)>, text: string)
    ensures |preferred| <= |WithAliases(preferred, aliases, text)|
    ensures forall i :: |preferred| <= i < |WithAliases(preferred, aliases, text)| ==>
      WithAliases(preferred, aliases, text)[i] in AliasKeys(aliases)
    ensures NoDuplicates(AliasKeys(aliases)) ==>
      forall i, j :: |preferred| <= i < j < |WithAliases(preferred, aliases, text)| ==>
        FirstIndex(AliasKeys(aliases), WithAliases(preferred, aliases, text)[i])
        < FirstIndex(AliasKeys(aliases), WithAliases(preferred, aliases, text)[j])
    decreases |aliases|
  {
    if aliases != [] {
      var init := aliases[..|aliases| - 1];
      WithAliasesOrder(preferred, init, text);
      var p := WithAliases(preferred, init, text);
      var (alias, key) := aliases[|aliases| - 1];
      var keys, initKeys := AliasKeys(aliases), AliasKeys(init);
      assert keys == initKeys + [key];
      forall y | y in initKeys
        ensures FirstIndex(keys, y) == FirstIndex(initKeys, y)
      {
        FirstIndexInPrefix(initKeys, [key], y);
      }
      if NoDuplicates(keys) {
        assert NoDuplicates(initKeys);
        assert key !in initKeys;
        assert FirstIndex(keys, key) == |keys| - 1;
      }
    }
  }

  /** Every alias stands for a registry key. */
  lemma AliasTargetsAreKeys()
    ensures forall i :: 0 <= i < |ChainAliases| ==> ChainAliases[i].1 in ChainKeys()
  {
    var k := ChainKeys();
    assert k == ["ethereum", "arbitrum", "optimism", "polygon", "base", "avalanche", "bsc"];
  }

  /**
   * The chains found in lower-cased text: no chain twice; exactly the registry
   * keys that occur themselves or through an alias; the keys that occur
   * themselves first, in registry order.
   */
  lemma MentionedChainsSpec(text: string)
    ensures NoDuplicates(MentionedChains(text))
    ensures forall k :: k in MentionedChains(text) <==>
      k in ChainKeys() && (Contains(text, k) || AliasMentioned(text, k))
    ensures |KeysIn(ChainKeys(), text)| <= |MentionedChains(text)|
    ensures MentionedChains(text)[..|KeysIn(ChainKeys(), text)|] == KeysIn(ChainKeys(), text)
    ensures forall i :: |KeysIn(ChainKeys(), text)| <= i < |MentionedChains(text)| ==>
      MentionedChains(text)[i] in AliasKeys(ChainAliases)
    ensures forall i, j :: |KeysIn(ChainKeys(), text)| <= i < j < |MentionedChains(text)| ==>
      FirstIndex(AliasKeys(ChainAliases), MentionedChains(text)[i])
      < FirstIndex(AliasKeys(ChainAliases), MentionedChains(text)[j])
  {
    ChainKeysDistinct();
    KeysInSpec(ChainKeys(), text);
    WithAliasesSpec(KeysIn(ChainKeys(), text), ChainAliases, text);
    WithAliasesOrder(KeysIn(ChainKeys(), text), ChainAliases, text);
    AliasTargetsAreKeys();
    AliasKeysDistinct();
  }

  /** No two aliases stand for the same chain. */
  lemma AliasKeysDistinct()
    ensures NoDuplicates(AliasKeys(ChainAliases))
  {
    assert AliasKeys(ChainAliases) == ["ethereum", "arbitrum", "optimism", "polygon", "bsc", "avalanche"];
  }

  /**
   * `parse_chains`: first every registry key found in the lower-cased text, in
   * registry order, then the key of every alias found, in alias order, if not
   * already listed. The current chain is never set.
   */
  method ParseChains(query: string) returns (preferred: seq<string>, current: Option<string>)
    ensures preferred == MentionedChains(ToLower(query))
    ensures current.None?
  {
    var queryLower := ToLower(query);
    preferred, current := [], None;
    var keys := ChainKeys();
    for i := 0 to |keys|
      invariant preferred == KeysIn(keys[..i], queryLower)
    {
      assert keys[..i + 1][..i] == keys[..i];
      if Contains(queryLower, keys[i]) {
        preferred := preferred + [keys[i]];
      }
    }
    assert keys[..|keys|] == keys;
    for i := 0 to |ChainAliases|
      invariant preferred == WithAliases(KeysIn(keys, queryLower), ChainAliases[..i], queryLower)
    {
      assert ChainAliases[..i + 1][..i] == ChainAliases[..i];
      var (alias, key) := ChainAliases[i];
      if Contains(queryLower, alias) && key !in preferred {
        preferred := preferred + [key];
      }
    }
    assert ChainAliases[..|ChainAliases|] == ChainAliases;
  }

  // ===========================================================================
  // Amount and token
  // ===========================================================================

  predicate HasDigit(s: string) { exists i :: 0 <= i < |s| && IsDigit(s[i]) }

  /** Length of the run of digits that `s` starts with. */
  function DigitRun(s: string): (n: nat)
    ensures n <= |s| && AllDigits(s[..n])
    ensures n < |s| ==> !IsDigit(s[n])
    decreases |s|
  {
    if s == [] || !IsDigit(s[0]) then 0
    else
      var n := 1 + DigitRun(s[1..]);
      assert s[..n] == [s[0]] + s[1..][..n - 1];
      n
  }

  /** Length of the run of letters that `s` starts with. */
  function LetterRun(s: string): (n: nat)
    ensures n <= |s| && forall i :: 0 <= i < n ==> IsAsciiLetter(s[i])
    ensures n < |s| ==> !IsAsciiLetter(s[n])
    decreases |s|
  {
    if s == [] || !IsAsciiLetter(s[0]) then 0 else 1 + LetterRun(s[1..])
  }

  /** Length of the run of white space that `s` starts with. */
  function SpaceRun(s: string): (n: nat)
    ensures n <= |s| && forall i :: 0 <= i < n ==> IsSpace(s[i])
    ensures n < |s| ==> !IsSpace(s[n])
    decreases |s|
  {
    if s == [] || !IsSpace(s[0]) then 0 else 1 + SpaceRun(s[1..])
  }

  /**
   * `re.sub(r"(\d+)k\b", lambda m: str(int(m.group(1)) * 1000), s)`: a run of
   * digits followed by `k` at the end of a word is replaced by its value times
   * one thousand (leading zeros drop out).
   */
  function ExpandThousands(s: string): (r: string)
    ensures HasDigit(r) <==> HasDigit(s)
    ensures !HasDigit(s) ==> r == s
    decreases |s|
  {
    if s == [] then []
    else if !IsDigit(s[0]) then
      var t := ExpandThousands(s[1..]);
      HasDigitCons(s[0], s[1..]);
      HasDigitCons(s[0], t);
      assert s == [s[0]] + s[1..];
      [s[0]] + t
    else
      var n := DigitRun(s);
      assert IsDigit(s[0]) && HasDigit(s);
      if n < |s| && s[n] == 'k' && (n + 1 == |s| || !IsWordChar(s[n + 1])) then
        var d := NatToString(DecimalValue(s[..n]) * 1000);
        var r := d + ExpandThousands(s[n + 1..]);
        assert IsDigit(r[0]);
        r
      else
        var r := s[..n] + ExpandThousands(s[n..]);
        assert IsDigit(r[0]);
        r
  }

  lemma HasDigitCons(c: char, s: string)
    ensures HasDigit([c] + s) <==> IsDigit(c) || HasDigit(s)
  {
    var t := [c] + s;
    if IsDigit(c) {
      assert IsDigit(t[0]);
    }
    if HasDigit(s) {
      var i :| 0 <= i < |s| && IsDigit(s[i]);
      assert IsDigit(t[i + 1]);
    }
    if HasDigit(t) && !IsDigit(c) {
      var i :| 0 <= i < |t| && IsDigit(t[i]);
      assert i > 0;
      assert IsDigit(s[i - 1]);
    }
  }

  /** Lower-casing keeps every digit where it is. */
  lemma ToLowerKeepsDigits(s: string)
    ensures HasDigit(ToLower(s)) <==> HasDigit(s)
  {
    if HasDigit(s) {
      var i :| 0 <= i < |s| && IsDigit(s[i]);
      assert IsDigit(ToLower(s)[i]);
    }
  }

  /**
   * What the amount pattern `\$?(\d+(?:,\d{3})*(?:\.\d+)?)\s*([A-Za-z]{2,10})?`
   * captures: the integer digits with the thousands commas taken out, the
   * fraction digits, and the word that follows, if any.
   */
  datatype NumberMatch = NumberMatch(whole: string, fraction: string, word: Option<string>)

  /** A comma followed by three digits starts at position `i`. */
  predicate GroupAt(s: string, i: nat) {
    i + 4 <= |s| && s[i] == ',' && IsDigit(s[i + 1]) && IsDigit(s[i + 2]) && IsDigit(s[i + 3])
  }

  /** Text made only of `,ddd` groups: a comma at every fourth position, digits elsewhere. */
  predicate CommaGroups(t: string) {
    |t| % 4 == 0 && forall j :: 0 <= j < |t| ==> if j % 4 == 0 then t[j] == ',' else IsDigit(t[j])
  }

  /** `t.replace(",", "")`. */
  function DropCommas(t: string): string
    decreases |t|
  {
    if t == [] then [] else (if t[0] == ',' then [] else [t[0]]) + DropCommas(t[1..])
  }

  /** Text without commas passes through `DropCommas` unchanged in front of the rest. */
  lemma {:induction false} DropCommasKeeps(a: string, t: string)
    requires forall i :: 0 <= i < |a| ==> a[i] != ','
    ensures DropCommas(a + t) == a + DropCommas(t)
    decreases |a|
  {
    if a != [] {
      assert (a + t)[1..] == a[1..] + t;
      DropCommasKeeps(a[1..], t);
    } else {
      assert a + t == t;
    }
  }

  /** One more group in front: still groups, and its three digits come first once commas are dropped. */
  lemma CommaGroupsCons(s: string, t: string)
    requires GroupAt(s, 0) && CommaGroups(t)
    ensures CommaGroups(s[..4] + t)
    ensures DropCommas(s[..4] + t) == s[1..4] + DropCommas(t)
  {
    var u := s[..4] + t;
    forall j | 4 <= j < |u|
      ensures if j % 4 == 0 then u[j] == ',' else IsDigit(u[j])
    {
      assert u[j] == t[j - 4] && (j - 4) % 4 == j % 4;
    }
    assert u[1..] == s[1..4] + t;
    DropCommasKeeps(s[1..4], t);
  }

  /**
   * `(?:,\d{3})*`, read greedily: the longest run of `,ddd` groups that `s`
   * starts with, and its digits with the commas dropped. The text right after
   * it does not start another group.
   */
  function ThousandsGroups(s: string): (r: (string, nat))
    ensures r.1 <= |s| && AllDigits(r.0)
    ensures CommaGroups(s[..r.1]) && r.0 == DropCommas(s[..r.1])
    ensures !GroupAt(s, r.1)
    decreases |s|
  {
    if GroupAt(s, 0) then
      var t := s[4..];
      var g := ThousandsGroups(t);
      assert s[..4 + g.1] == s[..4] + t[..g.1];
      CommaGroupsCons(s, t[..g.1]);
      assert GroupAt(s, 4 + g.1) == GroupAt(t, g.1);
      (s[1..4] + g.0, 4 + g.1)
    else
      assert s[..0] == [];
      ([], 0)
  }

  /**
   * `(?:\.\d+)?`, read greedily: a dot and every digit after it, or nothing
   * when no digit follows a leading dot.
   */
  function FractionLength(s: string): (n: nat)
    ensures n <= |s|
    ensures n == 0 <==> !(|s| >= 2 && s[0] == '.' && IsDigit(s[1]))
    ensures n > 0 ==> n >= 2 && s[0] == '.' && AllDigits(s[1..n]) && (n < |s| ==> !IsDigit(s[n]))
  {
    if |s| >= 2 && s[0] == '.' && IsDigit(s[1]) then
      var n := 1 + DigitRun(s[1..]);
      assert s[1..n] == s[1..][..n - 1];
      n
    else 0
  }

  /**
   * `\s*([A-Za-z]{2,10})?`: after the white space, the letters that follow,
   * cut at ten, when there are at least two of them. A word shorter than ten
   * letters is the whole run of letters.
   */
  function FollowingWord(s: string): (w: Option<string>)
    ensures var k := SpaceRun(s);
      w.None? <==> !(k + 2 <= |s| && IsAsciiLetter(s[k]) && IsAsciiLetter(s[k + 1]))
    ensures w.Some? ==>
      2 <= |w.value| <= 10 && SpaceRun(s) + |w.value| <= |s| && w.value == s[SpaceRun(s)..SpaceRun(s) + |w.value|]
    ensures w.Some? ==> forall i :: 0 <= i < |w.value| ==> IsAsciiLetter(w.value[i])
    ensures w.Some? && |w.value| < 10 ==>
      SpaceRun(s) + |w.value| == |s| || !IsAsciiLetter(s[SpaceRun(s) + |w.value|])
  {
    var k := SpaceRun(s);
    var word := s[k..];
    var letters := LetterRun(word);
    if letters >= 2 then
      assert word[..Min(letters, 10)] == s[k..k + Min(letters, 10)];
      Some(word[..Min(letters, 10)])
    else
      assert k + 2 <= |s| && IsAsciiLetter(s[k]) ==> word[0] == s[k] && word[1] == s[k + 1];
      None
  }

  /** Where the integer part of a number starting at `s[0]` ends: after its digits and comma groups. */
  function IntegerEnd(s: string): (n: nat)
    ensures n <= |s|
  {
    DigitRun(s) + ThousandsGroups(s[DigitRun(s)..]).1
  }

  /** The integer text with its commas dropped is the leading digits and then the digits of the groups. */
  lemma IntegerDigits(s: string)
    ensures DropCommas(s[..IntegerEnd(s)]) == s[..DigitRun(s)] + ThousandsGroups(s[DigitRun(s)..]).0
  {
    var n := DigitRun(s);
    var g := ThousandsGroups(s[n..]).1;
    assert s[..IntegerEnd(s)] == s[..n] + s[n..][..g];
    DropCommasKeeps(s[..n], s[n..][..g]);
  }

  /** Where the text after the number, fraction included, starts. */
  function WordStart(s: string): (n: nat)
    ensures n <= |s|
  {
    IntegerEnd(s) + FractionLength(s[IntegerEnd(s)..])
  }

  /**
   * The match of the amount pattern whose number starts at `s[0]`: the
   * captured integer text, commas dropped, runs over the digits and the comma
   * groups that follow them; then come the fraction digits, if a fraction
   * follows, and the word after that.
   */
  function MatchAt(s: string): (m: NumberMatch)
    requires |s| > 0 && IsDigit(s[0])
    ensures |m.whole| >= 1 && AllDigits(m.whole) && m.whole[0] == s[0]
    ensures AllDigits(m.fraction)
    ensures m.whole == DropCommas(s[..IntegerEnd(s)])
    ensures var n, f := IntegerEnd(s), FractionLength(s[IntegerEnd(s)..]);
      (f == 0 ==> m.fraction == []) && (f > 0 ==> m.fraction == s[n + 1..n + f])
    ensures m.word == FollowingWord(s[WordStart(s)..])
  {
    NumberMatch(WholeAt(s), FractionAt(s), FollowingWord(s[WordStart(s)..]))
  }

  /** The integer digits of a number starting at `s[0]`: its digits and the digits of its comma groups. */
  function WholeAt(s: string): (w: string)
    requires |s| > 0 && IsDigit(s[0])
    ensures |w| >= 1 && AllDigits(w) && w[0] == s[0]
    ensures w == DropCommas(s[..IntegerEnd(s)])
  {
    IntegerDigits(s);
    s[..DigitRun(s)] + ThousandsGroups(s[DigitRun(s)..]).0
  }

  /** The fraction digits after the integer part, empty when no fraction follows. */
  function FractionAt(s: string): (f: string)
    ensures var n, k := IntegerEnd(s), FractionLength(s[IntegerEnd(s)..]);
      AllDigits(f) && (k == 0 ==> f == []) && (k > 0 ==> f == s[n + 1..n + k])
  {
    var e := IntegerEnd(s);
    var k := FractionLength(s[e..]);
    assert k > 0 ==> s[e..][1..k] == s[e + 1..e + k];
    if k > 0 then s[e + 1..e + k] else []
  }

  /** Index of the leftmost digit. */
  function FirstDigit(s: string): (i: nat)
    requires HasDigit(s)
    ensures i < |s| && IsDigit(s[i])
    ensures forall j :: 0 <= j < i ==> !IsDigit(s[j])
  {
    if IsDigit(s[0]) then 0
    else
      HasDigitCons(s[0], s[1..]);
      assert s == [s[0]] + s[1..];
      1 + FirstDigit(s[1..])
  }

  /** `re.search` with the amount pattern: the match at the leftmost digit, if there is a digit. */
  function MatchNumber(s: string): (r: Option<NumberMatch>)
    ensures r.Some? <==> HasDigit(s)
    ensures r.Some? ==> r.value == MatchAt(s[FirstDigit(s)..])
  {
    if HasDigit(s) then Some(MatchAt(s[FirstDigit(s)..])) else None
  }

  function Pow10(n: nat): (r: nat)
    ensures r >= 1
  {
    if n == 0 then 1 else 10 * Pow10(n - 1)
  }

  /** `float(group(1).replace(",", ""))`, read exactly. */
  function NumberValue(m: NumberMatch): (v: real)
    requires AllDigits(m.whole) && AllDigits(m.fraction)
    ensures v >= 0.0
  {
    DecimalValue(m.whole) as real + DecimalValue(m.fraction) as real / Pow10(|m.fraction|) as real
  }

  /** The text the amount pattern is searched in: lower-cased, `Nk` expanded. */
  function NormalizedQuery(query: string): string {
    ExpandThousands(ToLower(query))
  }

  /** The amount `parse_amount_and_token` reports. */
  function AmountOf(query: string): (a: Option<real>)
    ensures a.Some? <==> HasDigit(query)
    ensures a.Some? ==> a.value >= 0.0
  {
    ToLowerKeepsDigits(query);
    match MatchNumber(NormalizedQuery(query))
    case None => None
    case Some(m) => Some(NumberValue(m))
  }

  /** The token taken from the word right after the amount, when it is a known one. */
  function CapturedToken(query: string): (t: Option<string>)
    ensures t.Some? ==> t.value in KnownTokens
  {
    match MatchNumber(NormalizedQuery(query))
    case Some(NumberMatch(_, _, Some(word))) =>
      if ToUpper(word) in KnownTokens then Some(ToUpper(word)) else None
    case _ => None
  }

  /**
   * The tokens `parse_amount_and_token` may report: the known token right after
   * the amount if there is one; otherwise some known token whose lower-case
   * form occurs in the lower-cased query, and none only when no known token
   * occurs.
   */
  predicate AllowedToken(query: string, token: Option<string>) {
    match CapturedToken(query)
    case Some(t) => token == Some(t)
    case None =>
      match token
      case Some(t) => t in KnownTokens && Contains(ToLower(query), ToLower(t))
      case None => forall t :: t in KnownTokens ==> !Contains(ToLower(query), ToLower(t))
  }

  /**
   * `parse_amount_and_token`. When no token follows the amount, the known
   * tokens are tried in an unspecified order (the vocabulary is a set) and the
   * first one found in the lower-cased text is taken.
   */
  method ParseAmountAndToken(query: string) returns (amount: Option<real>, token: Option<string>)
    ensures amount == AmountOf(query)
    ensures AllowedToken(query, token)
    ensures token.Some? ==> token.value in KnownTokens
  {
    var queryClean := ToLower(query);
    var queryNormalized := ExpandThousands(queryClean);
    amount, token := None, None;
    var m := MatchNumber(queryNormalized);
    if m.Some? {
      amount := Some(NumberValue(m.value));
      var word := m.value.word;
      if word.Some? && ToUpper(word.value) in KnownTokens {
        token := Some(ToUpper(word.value));
      }
    }
    if token.None? {
      var remaining := KnownTokens;
      while remaining != {}
        invariant remaining <= KnownTokens
        invariant token.None?
        invariant forall t :: t in KnownTokens - remaining ==> !Contains(queryClean, ToLower(t))
        decreases |remaining|
      {
        var t :| t in remaining;
        if Contains(queryClean, ToLower(t)) {
          token := Some(t);
          break;
        }
        remaining := remaining - {t};
      }
    }
  }

  /** `str(5000)` and `int("5000")`, digit by digit. */
  lemma FiveThousandDigits()
    ensures NatToString(5000) == "5000"
    ensures DecimalValue("5000") == 5000
  {
    assert NatToString(500) == "500" by {
      assert NatToString(50) == "50";
    }
    assert "5000"[..3] == "500" && "500"[..2] == "50" && "50"[..1] == "5";
  }

  /**
   * A run of digits followed by `k` at the end of a word is replaced by its
   * value times one thousand; the rewrite goes on after the `k`.
   */
  lemma ExpandThousandsShorthand(s: string, n: nat)
    requires 0 < n < |s| && AllDigits(s[..n]) && s[n] == 'k'
    requires n + 1 == |s| || !IsWordChar(s[n + 1])
    ensures ExpandThousands(s) == NatToString(DecimalValue(s[..n]) * 1000) + ExpandThousands(s[n + 1..])
  {
    DigitRunIs(s, n);
    assert IsDigit(s[..n][0]);
  }

  /** A run of `n` digits that ends the text or a non-digit is the run `DigitRun` measures. */
  lemma {:induction false} DigitRunIs(s: string, n: nat)
    requires n <= |s| && AllDigits(s[..n]) && (n < |s| ==> !IsDigit(s[n]))
    ensures DigitRun(s) == n
    decreases n
  {
    if n > 0 {
      assert IsDigit(s[..n][0]);
      assert s[1..][..n - 1] == s[..n][1..];
      DigitRunIs(s[1..], n - 1);
    }
  }

  lemma NoDigitInWord()
    ensures !HasDigit(" usdc")
  {
  }

  /** A single digit with `k` before digit-free text that does not continue the word. */
  lemma SingleDigitShorthand(digit: char, rest: string)
    requires IsDigit(digit) && !HasDigit(rest) && (rest == [] || !IsWordChar(rest[0]))
    ensures ExpandThousands([digit, 'k'] + rest) == NatToString(DigitValue(digit) * 1000) + rest
  {
    var s := [digit, 'k'] + rest;
    assert s[..1] == [digit] && s[2..] == rest;
    assert DecimalValue([digit]) == DigitValue(digit) by {
      assert [digit][..0] == [];
    }
    ExpandThousandsShorthand(s, 1);
  }

  /** The rewrite turns "5k usdc" into "5000 usdc". */
  lemma ExpandShorthandExample()
    ensures NormalizedQuery("5k usdc") == "5000 usdc"
  {
    var q := "5k usdc";
    ToLowerOfLower(q);
    NoDigitInWord();
    assert q == ['5', 'k'] + " usdc";
    SingleDigitShorthand('5', " usdc");
    assert DigitValue('5') * 1000 == 5000;
    FiveThousandDigits();
    NumberThenWord();
  }

  lemma NumberThenWord()
    ensures "5000" + " usdc" == "5000 usdc"
  {
  }

  lemma FollowingWordExample()
    ensures FollowingWord(" usdc") == Some("usdc")
  {
    var rest := " usdc";
    assert SpaceRun(rest) == 1 by { assert SpaceRun(rest[1..]) == 0; }
    assert rest[1..] == "usdc";
    assert LetterRun("usdc") == 4 by {
      assert LetterRun("usdc"[4..]) == 0;
      assert "usdc"[4..] == "usdc"[1..][1..][1..][1..];
    }
    assert "usdc"[..Min(4, 10)] == "usdc";
  }

  /**
   * Digits followed by text that starts with neither a digit, a comma nor a
   * dot: the number is the digits as they are, with no fraction, and the
   * word is the one that follows.
   */
  lemma MatchAtPlainNumber(digits: string, rest: string)
    requires |digits| > 0 && AllDigits(digits)
    requires rest != [] && !IsDigit(rest[0]) && rest[0] != ',' && rest[0] != '.'
    ensures MatchAt(digits + rest) == NumberMatch(digits, [], FollowingWord(rest))
  {
    var t := digits + rest;
    assert t[..|digits|] == digits && t[|digits|..] == rest;
    DigitRunIs(t, |digits|);
    assert ThousandsGroups(rest) == ([], 0);
    assert FractionLength(rest) == 0;
    assert rest[0..] == rest && t[|digits| + 0..] == rest && digits + [] == digits;
  }

  lemma MatchAtExample()
    ensures MatchAt("5000 usdc") == NumberMatch("5000", [], Some("usdc"))
  {
    NumberThenWord();
    assert AllDigits("5000");
    MatchAtPlainNumber("5000", " usdc");
    FollowingWordExample();
  }

  /** The amount pattern on "5000 usdc": the number 5000, no fraction, the word "usdc". */
  lemma MatchShorthandExample()
    ensures MatchNumber("5000 usdc") == Some(NumberMatch("5000", [], Some("usdc")))
  {
    var t := "5000 usdc";
    assert IsDigit(t[0]);
    assert FirstDigit(t) == 0;
    MatchAtExample();
    assert t[0..] == t;
  }

  lemma UpperUsdc()
    ensures ToUpper("usdc") == "USDC"
  {
    var u := ToUpper("usdc");
    assert u[0] == 'U' && u[1] == 'S' && u[2] == 'D' && u[3] == 'C';
    assert u == [u[0], u[1], u[2], u[3]];
  }

  /** The value of the number 5000 with no fraction. */
  lemma FiveThousandValue(word: Option<string>)
    ensures NumberValue(NumberMatch("5000", [], word)) == 5000.0
  {
    FiveThousandDigits();
    assert Pow10(0) == 1 && DecimalValue([]) == 0;
  }

  /** "5k usdc" asks for 5000: the shorthand is expanded before the number is read. */
  lemma ShorthandAmountExample()
    ensures AmountOf("5k usdc") == Some(5000.0)
  {
    ExpandShorthandExample();
    MatchShorthandExample();
    FiveThousandValue(Some("usdc"));
  }

  /** In "5k usdc" the word right after the amount is the token, upper-cased. */
  lemma ShorthandTokenExample()
    ensures CapturedToken("5k usdc") == Some("USDC")
  {
    ExpandShorthandExample();
    MatchShorthandExample();
    UpperUsdc();
  }

  /** A non-digit character passes through the shorthand rewrite. */
  lemma ExpandThousandsSkip(c: char, rest: string)
    requires !IsDigit(c)
    ensures ExpandThousands([c] + rest) == [c] + ExpandThousands(rest)
  {
    assert ([c] + rest)[1..] == rest;
  }

  /** Digits followed by something other than a digit or `k` pass through the rewrite. */
  lemma ExpandThousandsPlain(digits: string, rest: string)
    requires |digits| > 0 && AllDigits(digits)
    requires rest != [] && !IsDigit(rest[0]) && rest[0] != 'k'
    ensures ExpandThousands(digits + rest) == digits + ExpandThousands(rest)
  {
    var t := digits + rest;
    assert t[..|digits|] == digits && t[|digits|..] == rest;
    DigitRunIs(t, |digits|);
    assert IsDigit(t[0]);
  }

  /**
   * Digits, one comma group and text that starts neither a digit, a comma nor
   * a dot: the number is the digits and the group's digits, commas dropped,
   * with no fraction.
   */
  lemma MatchAtGrouped(digits: string, group: string, rest: string)
    requires |digits| > 0 && AllDigits(digits) && |group| == 3 && AllDigits(group)
    requires rest == [] || (!IsDigit(rest[0]) && rest[0] != ',' && rest[0] != '.')
    ensures MatchAt(digits + [','] + group + rest) == NumberMatch(digits + group, [], FollowingWord(rest))
  {
    var t, u, d := digits + [','] + group + rest, [','] + group + rest, |digits|;
    assert t[..d] == digits && t[d..] == u;
    DigitRunIs(t, d);
    assert GroupAt(u, 0) && u[1..4] == group && u[4..] == rest;
    assert !GroupAt(rest, 0);
    assert ThousandsGroups(rest) == ([], 0);
    assert u[1..4] + [] == group;
    assert ThousandsGroups(u) == (group, 4);
    assert IntegerEnd(t) == d + 4;
    assert t[d + 4..] == rest;
    assert FractionLength(rest) == 0;
    assert WordStart(t) == d + 4;
    assert t[..d + 4] == digits + ([','] + group);
    DropCommasKeeps(digits, [','] + group);
    assert ([','] + group)[1..] == group + [];
    DropCommasKeeps(group, []);
  }

  /**
   * Digits, a dot, more digits and text that does not start with a digit:
   * the number is the first digits and the fraction is the digits after the
   * dot, read in full.
   */
  lemma MatchAtFraction(digits: string, frac: string, rest: string)
    requires |digits| > 0 && AllDigits(digits) && |frac| > 0 && AllDigits(frac)
    requires rest == [] || !IsDigit(rest[0])
    ensures MatchAt(digits + ['.'] + frac + rest) == NumberMatch(digits, frac, FollowingWord(rest))
  {
    var t, u, d := digits + ['.'] + frac + rest, ['.'] + frac + rest, |digits|;
    assert t == digits + u;
    PlainInteger(digits, u);
    assert IntegerEnd(t) == d;
    assert FractionLength(t[d..]) == 1 + |frac| by {
      assert t[d..] == u;
      DotFraction(frac, rest);
    }
    var m := MatchAt(t);
    assert m.whole == digits;
    assert m.fraction == frac by {
      assert t[d + 1..d + 1 + |frac|] == frac;
    }
    assert m.word == FollowingWord(rest) by {
      assert WordStart(t) == d + 1 + |frac|;
      assert t[d + 1 + |frac|..] == rest;
    }
  }

  /** Digits followed by no digit and no comma group: the integer part is those digits. */
  lemma PlainInteger(digits: string, u: string)
    requires |digits| > 0 && AllDigits(digits) && (u == [] || !IsDigit(u[0])) && !GroupAt(u, 0)
    ensures IntegerEnd(digits + u) == |digits|
    ensures DropCommas((digits + u)[..|digits|]) == digits
  {
    var t := digits + u;
    assert t[..|digits|] == digits && t[|digits|..] == u;
    DigitRunIs(t, |digits|);
    assert ThousandsGroups(u).1 == 0;
    DropCommasKeeps(digits, []);
    assert digits + [] == digits;
  }

  /** A dot and digits before a non-digit: the fraction runs over the dot and all of those digits. */
  lemma DotFraction(frac: string, rest: string)
    requires |frac| > 0 && AllDigits(frac) && (rest == [] || !IsDigit(rest[0]))
    ensures FractionLength(['.'] + frac + rest) == 1 + |frac|
  {
    var u := ['.'] + frac + rest;
    assert u[1..] == frac + rest && (frac + rest)[..|frac|] == frac;
    DigitRunIs(u[1..], |frac|);
  }

  /** A run of at least ten letters after the white space is cut to its first ten. */
  lemma FollowingWordCut(s: string, word: string)
    requires word == s[SpaceRun(s)..] && |word| >= 10
    requires forall j :: 0 <= j < 10 ==> IsAsciiLetter(word[j])
    ensures FollowingWord(s) == Some(word[..10])
  {
    LetterRunAtLeast(word, 10);
  }

  /** A text that starts with `n` letters has a letter run of at least `n`. */
  lemma {:induction false} LetterRunAtLeast(s: string, n: nat)
    requires n <= |s| && forall j :: 0 <= j < n ==> IsAsciiLetter(s[j])
    ensures LetterRun(s) >= n
    decreases n
  {
    if n > 0 {
      LetterRunAtLeast(s[1..], n - 1);
    }
  }

  /** `int("1500")`. */
  lemma FifteenHundredDigits()
    ensures AllDigits("1500") && DecimalValue("1500") == 1500
  {
    assert "1500"[..3] == "150" && "150"[..2] == "15" && "15"[..1] == "1";
  }

  lemma GroupedText()
    ensures "1,500 usdc" == "1" + ([','] + ("500" + " usdc"))
    ensures "1,500 usdc" == "1" + [','] + "500" + " usdc"
    ensures "1" + "500" == "1500"
  {
  }

  /** "1,500 usdc" passes through the rewrite unchanged. */
  lemma GroupedNormalized()
    ensures NormalizedQuery("1,500 usdc") == "1,500 usdc"
  {
    var q := "1,500 usdc";
    ToLowerOfLower(q);
    GroupedText();
    NoDigitInWord();
    assert AllDigits("500") && AllDigits("1");
    ExpandThousandsPlain("500", " usdc");
    ExpandThousandsSkip(',', "500" + " usdc");
    ExpandThousandsPlain("1", [','] + ("500" + " usdc"));
  }

  /** On "1,500 usdc" the pattern reads 1500 across the comma, then the word "usdc". */
  lemma GroupedMatchExample()
    ensures MatchNumber("1,500 usdc") == Some(NumberMatch("1500", [], Some("usdc")))
  {
    var q := "1,500 usdc";
    GroupedText();
    assert AllDigits("500") && AllDigits("1");
    assert IsDigit(q[0]) && FirstDigit(q) == 0 && q[0..] == q;
    MatchAtGrouped("1", "500", " usdc");
    FollowingWordExample();
  }

  /** A number without a fraction is worth its digits. */
  lemma WholeValue(digits: string, word: Option<string>)
    requires AllDigits(digits)
    ensures NumberValue(NumberMatch(digits, [], word)) == DecimalValue(digits) as real
  {
    assert Pow10(0) == 1 && DecimalValue([]) == 0;
  }

  /** "1,500 usdc" asks for 1500: the thousands comma is dropped before the number is read. */
  lemma GroupedAmountExample()
    ensures AmountOf("1,500 usdc") == Some(1500.0)
  {
    GroupedNormalized();
    GroupedMatchExample();
    FifteenHundredDigits();
    WholeValue("1500", Some("usdc"));
  }

  lemma FractionText()
    ensures "2.5 eth" == "2" + (['.'] + ("5" + " eth"))
    ensures "2.5 eth" == "2" + ['.'] + "5" + " eth"
  {
  }

  /** "2.5 eth" passes through the rewrite unchanged. */
  lemma FractionNormalized()
    ensures NormalizedQuery("2.5 eth") == "2.5 eth"
  {
    var q := "2.5 eth";
    ToLowerOfLower(q);
    FractionText();
    assert !HasDigit(" eth");
    assert AllDigits("5") && AllDigits("2");
    ExpandThousandsPlain("5", " eth");
    ExpandThousandsSkip('.', "5" + " eth");
    ExpandThousandsPlain("2", ['.'] + ("5" + " eth"));
  }

  /** On "2.5 eth" the pattern reads the digits 2 and the fraction digits 5. */
  lemma FractionMatchExample()
    ensures MatchNumber("2.5 eth") == Some(NumberMatch("2", "5", FollowingWord(" eth")))
  {
    var q := "2.5 eth";
    FractionText();
    assert AllDigits("5") && AllDigits("2");
    assert IsDigit(q[0]) && FirstDigit(q) == 0 && q[0..] == q;
    MatchAtFraction("2", "5", " eth");
  }

  /** The value of 2 with the fraction 5. */
  lemma TwoPointFiveValue(word: Option<string>)
    ensures NumberValue(NumberMatch("2", "5", word)) == 2.5
  {
    assert DecimalValue("2") == 2 && DecimalValue("5") == 5 by {
      assert "2"[..0] == [] && "5"[..0] == [];
    }
    assert Pow10(1) == 10;
  }

  /** "2.5 eth" asks for 2.5: the fraction is read after the dot. */
  lemma FractionAmountExample()
    ensures AmountOf("2.5 eth") == Some(2.5)
  {
    FractionNormalized();
    FractionMatchExample();
    TwoPointFiveValue(FollowingWord(" eth"));
  }

  // ===========================================================================
  // The parser node
  // ===========================================================================

  /** What `parse_input` hands back to the pipeline: an error record or the parsed fields. */
  datatype InputUpdate =
    | EmptyInput(processingStep: string, error: string)
    | Parsed(
        userQuery: string,
        amount: Option<real>,
        token: string,
        preferredChains: seq<string>,
        currentChain: Option<string>,
        riskTolerance: RiskTolerance,
        intent: Intent,
        excludedProtocols: seq<string>,
        targetChains: seq<string>,
        processingStep: string)

  /** The text of a chat message: the `content` attribute, the "content" entry, or nothing. */
  function MessageText(m: Message): string {
    match m
    case ContentMessage(c) => c
    case MappingMessage(fields) => if "content" in fields then fields["content"] else ""
    case OtherMessage => ""
  }

  /** The query: `user_query` when non-empty, otherwise the text of the last message. */
  function ResolveQuery(state: AgentState): (q: string)
    ensures state.userQuery != "" ==> q == state.userQuery
    ensures state.userQuery == "" && state.messages == [] ==> q == ""
    ensures state.userQuery == "" && state.messages != [] ==> q == MessageText(state.messages[|state.messages| - 1])
  {
    if state.userQuery == "" && |state.messages| > 0 then MessageText(state.messages[|state.messages| - 1])
    else state.userQuery
  }

  /**
   * The intent after the classifier: with a reply, "compare", then "route",
   * then "risk" in the lower-cased reply override the rule-based intent; a
   * failed call or a reply with none of them leaves it as it was.
   */
  function ClassifiedIntent(query: string, reply: Option<string>): (r: Intent)
    ensures reply.None? ==> r == ParseIntent(query)
    ensures r != GeneralQuestion
    ensures r == YieldSearch ==> ParseIntent(query) == YieldSearch
    ensures reply.Some? && Contains(ToLower(reply.value), "compare") ==> r == CompareProtocols
    ensures reply.Some? && !Contains(ToLower(reply.value), "compare") && Contains(ToLower(reply.value), "route")
            ==> r == RouteOnly
    ensures (reply.Some? && !Contains(ToLower(reply.value), "compare") && !Contains(ToLower(reply.value), "route")
             && Contains(ToLower(reply.value), "risk")) ==> r == RiskAnalysis
    ensures (reply.Some? && !Contains(ToLower(reply.value), "compare") && !Contains(ToLower(reply.value), "route")
             && !Contains(ToLower(reply.value), "risk")) ==> r == ParseIntent(query)
  {
    match reply
    case None => ParseIntent(query)
    case Some(text) =>
      var replyLower := ToLower(text);
      if Contains(replyLower, "compare") then CompareProtocols
      else if Contains(replyLower, "route") then RouteOnly
      else if Contains(replyLower, "risk") then RiskAnalysis
      else ParseIntent(query)
  }

  /**
   * The record `parse_input` returns for a non-empty query, given the
   * classifier's reply and the token chosen: the amount from the text, the
   * chains it names (all registry chains as targets when it names none), its
   * risk tolerance, the classified intent, no exclusions, no current chain.
   */
  function ParsedQuery(query: string, reply: Option<string>, token: string): (u: InputUpdate)
    ensures u.Parsed? && u.processingStep == "input_parsed" && u.userQuery == query
    ensures u.currentChain.None? && u.excludedProtocols == []
    ensures u.preferredChains != [] ==> u.targetChains == u.preferredChains
    ensures u.preferredChains == [] ==> u.targetChains == ChainKeys()
  {
    var preferred := MentionedChains(ToLower(query));
    Parsed(query, AmountOf(query), token, preferred, None, ParseRiskTolerance(query),
           ClassifiedIntent(query, reply), ParseExclusions(query),
           if preferred != [] then preferred else ChainKeys(), "input_parsed")
  }

  /** A fresh state carries no query, so parsing it gives the error record. */
  lemma InitialStateIsEmpty()
    ensures ResolveQuery(InitialState()) == ""
  {
  }

  /**
   * `parse_input`. `classifierReply` is the classifier's answer for this
   * query, or `None` when the call raised. An empty query, both in the field
   * and in the last message, is the one error; otherwise the token defaults to
   * USDC when none is found.
   */
  method ParseInput(state: AgentState, classifierReply: Option<string>) returns (u: InputUpdate)
    ensures u.EmptyInput? <==> ResolveQuery(state) == ""
    ensures u.EmptyInput? <==>
      state.userQuery == "" && (state.messages == [] || MessageText(state.messages[|state.messages| - 1]) == "")
    ensures u.EmptyInput? ==> u == EmptyInput("input_empty_error", "No query provided")
    ensures u.Parsed? ==> u == ParsedQuery(ResolveQuery(state), classifierReply, u.token)
    ensures u.Parsed? ==> u.token in KnownTokens
    ensures u.Parsed? ==>
      AllowedToken(u.userQuery, Some(u.token)) || (u.token == "USDC" && AllowedToken(u.userQuery, None))
  {
    // 1. The query: the explicit field, else the last chat message.
    var query := state.userQuery;
    if query == "" && |state.messages| > 0 {
      query := MessageText(state.messages[|state.messages| - 1]);
    }
    if query == "" {
      return EmptyInput("input_empty_error", "No query provided");
    }
    assert query == ResolveQuery(state) && query != "";

    // 2. Rule-based intent, overridden by the classifier's reply when there is one.
    var intent := ParseIntent(query);
    if classifierReply.Some? {
      var intentText := ToLower(classifierReply.value);
      if Contains(intentText, "compare") {
        intent := CompareProtocols;
      } else if Contains(intentText, "route") {
        intent := RouteOnly;
      } else if Contains(intentText, "risk") {
        intent := RiskAnalysis;
      }
    }

    // 3. The parameters.
    var amount, token := ParseAmountAndToken(query);
    var preferredChains, currentChain := ParseChains(query);
    var riskTolerance := ParseRiskTolerance(query);
    var exclusions := ParseExclusions(query);
    var targetChains := if |preferredChains| > 0 then preferredChains else ChainKeys();
    u := Parsed(query, amount, token.GetOr("USDC"), preferredChains, currentChain, riskTolerance,
                intent, exclusions, targetChains, "input_parsed");
  }
}
