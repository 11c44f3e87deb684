/** The fake-news and harmful-content detector: three rule-table scorers
    (clickbait, hate speech, credibility), each a capped linear combination
    of keyword, pattern, punctuation and length signals, and the analysis
    that weighs them into a fake-news probability with a warnings list. */
module FakeNews {
  import opened Text
  import opened Externals

  const ClickbaitWords: seq<string> := [
    "shocking", "unbelievable", "you won't believe",
    "secret", "exposed", "scandal", "breaking",
    "leaked", "urgent", "alert", "warning"
  ]

  /** The hate-speech regular expressions, run in this order on the
      lowercased text. */
  const OffensivePatterns: seq<string> := [
    @"\b(hate|stupid|idiot|dumb)\b",
    @"(kill|destroy|eliminate)\s+(all|every)"
  ]

  const CredibleSources: seq<string> := [
    "reuters", "ap", "bbc", "npr", "pbs",
    "nature", "science", "research", "study", "university"
  ]

  const ClickbaitWarning: string := "Contains clickbait patterns"
  const HateWarning: string := "Contains potential hate speech"
  const CredibilityWarning: string := "Low credibility score"

  function Min(x: real, y: real): real {
    if x <= y then x else y
  }

  function Max(x: real, y: real): real {
    if x >= y then x else y
  }

  // ---------------------------------------------------------------------
  // Clickbait

  datatype ClickbaitResult = ClickbaitResult(
    isClickbait: bool,
    clickbaitScore: real,
    clickbaitWords: seq<string>,
    exclamationCount: nat,
    capsRatio: real)

  /** Upper-case letters per character, with one added to the length so an
      empty text does not divide by zero. */
  function CapsRatio(text: string): (r: real)
    ensures 0.0 <= r < 1.0
  {
    var upper, denominator := CountUpper(text) as real, (|text| + 1) as real;
    assert upper < denominator;
    upper / denominator
  }

  /** The clickbait sum before the cap at 100. */
  function ClickbaitSum(words: nat, exclamations: nat, capsRatio: real): (s: real)
    requires 0.0 <= capsRatio
    ensures 15.0 * (words as real) <= s <= 15.0 * (words as real) + 60.0
  {
    (words as real) * 15.0
      + Min((exclamations as real) * 10.0, 30.0)
      + Min(capsRatio * 50.0, 30.0)
  }

  /** The clickbait scorer `detect_clickbait`. */
  function DetectClickbait(text: string): (r: ClickbaitResult)
    ensures r.clickbaitWords == KeywordsIn(ClickbaitWords, Lower(text))
    ensures r.exclamationCount == CountChar(text, '!')
    ensures r.capsRatio == CapsRatio(text) && 0.0 <= r.capsRatio < 1.0
    ensures var sum := ClickbaitSum(|r.clickbaitWords|, r.exclamationCount, r.capsRatio);
            && r.clickbaitScore == Min(sum, 100.0)
            && (r.isClickbait <==> sum > 40.0)
    ensures 0.0 <= r.clickbaitScore <= 100.0
    ensures r.isClickbait <==> r.clickbaitScore > 40.0
    ensures |r.clickbaitWords| >= 3 ==> r.isClickbait
  {
    var words := KeywordsIn(ClickbaitWords, Lower(text));
    var exclamations := CountChar(text, '!');
    var caps := CapsRatio(text);
    var sum := ClickbaitSum(|words|, exclamations, caps);
    ClickbaitResult(sum > 40.0, Min(sum, 100.0), words, exclamations, caps)
  }

  // ---------------------------------------------------------------------
  // Hate speech

  datatype HateResult = HateResult(
    containsHateSpeech: bool,
    hateScore: real,
    offensivePatternsFound: nat,
    sentimentPolarity: real)

  function HateSum(offensiveCount: nat, polarity: real): real {
    (offensiveCount as real) * 40.0 + Max(0.0, -polarity) * 30.0
  }

  /** The hate-speech result for a given number of pattern matches and a
      given polarity. */
  function HateOf(offensiveCount: nat, polarity: Polarity): (r: HateResult)
    ensures r.offensivePatternsFound == offensiveCount && r.sentimentPolarity == polarity
    ensures r.hateScore == Min(HateSum(offensiveCount, polarity), 100.0)
    ensures 0.0 <= r.hateScore <= 100.0
    ensures r.containsHateSpeech <==> HateSum(offensiveCount, polarity) > 50.0
    ensures r.containsHateSpeech <==> r.hateScore > 50.0
    ensures offensiveCount >= 2 ==> r.containsHateSpeech
    ensures polarity >= 0.0 && r.containsHateSpeech ==> offensiveCount >= 2
    ensures offensiveCount == 0 ==> !r.containsHateSpeech
  {
    var sum := HateSum(offensiveCount, polarity);
    HateResult(sum > 50.0, Min(sum, 100.0), offensiveCount, polarity)
  }

  /** Total number of matches of `patterns` in `text`: at least the matches
      of each pattern, and zero exactly when no pattern matches. */
  function MatchTotal(patterns: seq<string>, text: string, findall: MatchCounter): (n: nat)
    ensures forall i :: 0 <= i < |patterns| ==> findall(patterns[i], text) <= n
    ensures n == 0 <==> forall i :: 0 <= i < |patterns| ==> findall(patterns[i], text) == 0
  {
    if patterns == [] then 0
    else MatchTotal(patterns[..|patterns| - 1], text, findall) + findall(patterns[|patterns| - 1], text)
  }

  /** `detect_hate_speech`: the pattern matches are counted in a loop over
      the pattern table. */
  method DetectHateSpeech(text: string, findall: MatchCounter, blob: SentimentModel)
    returns (r: HateResult)
    ensures r == HateOf(MatchTotal(OffensivePatterns, Lower(text), findall), blob(text).polarity)
  {
    var textLower := Lower(text);
    var offensiveCount := 0;
    for i := 0 to |OffensivePatterns|
      invariant offensiveCount == MatchTotal(OffensivePatterns[..i], textLower, findall)
    {
      assert OffensivePatterns[..i + 1][..i] == OffensivePatterns[..i];
      offensiveCount := offensiveCount + findall(OffensivePatterns[i], textLower);
    }
    assert OffensivePatterns[..|OffensivePatterns|] == OffensivePatterns;
    var polarity := blob(text).polarity;
    var sum := HateSum(offensiveCount, polarity);
    r := HateResult(sum > 50.0, Min(sum, 100.0), offensiveCount, polarity);
  }

  // ---------------------------------------------------------------------
  // Credibility

  datatype CredibilityResult = CredibilityResult(
    credible: bool,
    credibilityScore: real,
    credibleSourcesMentioned: nat,
    hasCitations: bool,
    hasQuotes: bool)

  predicate AllDigits(s: string) {
    forall k :: 0 <= k < |s| ==> IsDigit(s[k])
  }

  /** A bracketed run of one or more digits starts at index `i`. */
  predicate BracketCitationAt(s: string, i: nat) {
    exists j :: i + 1 < j < |s| && s[i] == '[' && s[j] == ']' && AllDigits(s[i + 1..j])
  }

  /** A parenthesised run of exactly four digits starts at index `i`. */
  predicate YearCitationAt(s: string, i: nat) {
    i + 6 <= |s| && s[i] == '(' && AllDigits(s[i + 1..i + 5]) && s[i + 5] == ')'
  }

  /** The citation search of `check_credibility`: a bracketed number or a
      parenthesised four-digit year occurs anywhere in the text. */
  predicate HasCitation(s: string): (b: bool)
    ensures b ==> |s| >= 3
    ensures '[' !in s && '(' !in s ==> !b
  {
    exists i: nat :: i < |s| && (BracketCitationAt(s, i) || YearCitationAt(s, i))
  }

  /** The search is not anchored: a citation is found wherever it sits in
      the text. */
  lemma CitationAnywhere(prefix: string, cited: string, suffix: string)
    requires HasCitation(cited)
    ensures HasCitation(prefix + cited + suffix)
  {
    var i: nat :| i < |cited| && (BracketCitationAt(cited, i) || YearCitationAt(cited, i));
    if BracketCitationAt(cited, i) {
      BracketShift(prefix, cited, suffix, i);
    } else {
      YearShift(prefix, cited, suffix, i);
    }
    assert |prefix| + i < |prefix + cited + suffix|;
  }

  lemma BracketShift(prefix: string, cited: string, suffix: string, i: nat)
    requires BracketCitationAt(cited, i)
    ensures BracketCitationAt(prefix + cited + suffix, |prefix| + i)
  {
    var t, k := prefix + cited + suffix, |prefix| + i;
    var j :| i + 1 < j < |cited| && cited[i] == '[' && cited[j] == ']' && AllDigits(cited[i + 1..j]);
    MiddleOf(prefix, cited, suffix, i, j + 1);
    assert t[k] == '[' && t[|prefix| + j] == ']' && AllDigits(t[k + 1..|prefix| + j]);
  }

  lemma YearShift(prefix: string, cited: string, suffix: string, i: nat)
    requires YearCitationAt(cited, i)
    ensures YearCitationAt(prefix + cited + suffix, |prefix| + i)
  {
    MiddleOf(prefix, cited, suffix, i, i + 6);
  }

  /** Indices into the middle part of a concatenation. */
  lemma MiddleOf(prefix: string, mid: string, suffix: string, x: nat, y: nat)
    requires x <= y <= |mid|
    ensures forall m :: x <= m < y ==> (prefix + mid + suffix)[|prefix| + m] == mid[m]
    ensures forall m, n :: x <= m <= n <= y ==>
              (prefix + mid + suffix)[|prefix| + m..|prefix| + n] == mid[m..n]
  {
    var t := prefix + mid + suffix;
    forall m, n | x <= m <= n <= y
      ensures t[|prefix| + m..|prefix| + n] == mid[m..n]
    {
      assert forall q :: 0 <= q < n - m ==> t[|prefix| + m..|prefix| + n][q] == mid[m..n][q];
    }
  }

  function CredibilitySum(mentions: nat, citations: bool, quotes: bool, length: nat): (s: real)
    ensures 25.0 * (mentions as real) <= s <= 25.0 * (mentions as real) + 75.0
  {
    (mentions as real) * 25.0
      + (if citations then 30.0 else 0.0)
      + (if quotes then 15.0 else 0.0)
      + Min((length as real) / 50.0, 30.0)
  }

  /** The credibility scorer `check_credibility`. */
  function CheckCredibility(text: string, source: string): (r: CredibilityResult)
    ensures r.credibleSourcesMentioned == CountMentioned(CredibleSources, Lower(text), Lower(source))
    ensures r.credibleSourcesMentioned <= |CredibleSources| == 10
    ensures r.hasCitations == HasCitation(text)
    ensures r.hasQuotes <==> CountChar(text, '"') >= 2
    ensures var sum := CredibilitySum(r.credibleSourcesMentioned, r.hasCitations, r.hasQuotes, |text|);
            && r.credibilityScore == Min(sum, 100.0)
            && (r.credible <==> sum > 50.0)
    ensures 0.0 <= r.credibilityScore <= 100.0
    ensures r.credible <==> r.credibilityScore > 50.0
    ensures r.credibleSourcesMentioned >= 3 ==> r.credible
  {
    var mentions := CountMentioned(CredibleSources, Lower(text), Lower(source));
    var citations := HasCitation(text);
    var quotes := CountChar(text, '"') >= 2;
    var sum := CredibilitySum(mentions, citations, quotes, |text|);
    CredibilityResult(sum > 50.0, Min(sum, 100.0), mentions, citations, quotes)
  }

  // ---------------------------------------------------------------------
  // Combined analysis

  datatype Details = Details(
    clickbait: ClickbaitResult,
    hateSpeech: HateResult,
    credibility: CredibilityResult)

  /** The dictionary `analyze` returns; blank text gets the short form
      without source, sub-scores and details. */
  datatype Analysis =
    | BlankAnalysis(
        text: string,
        isFakeNews: bool,
        fakeNewsProbability: real,
        warnings: seq<string>,
        credibilityScore: real)
    | FullAnalysis(
        text: string,
        source: string,
        isFakeNews: bool,
        fakeNewsProbability: real,
        credibilityScore: real,
        clickbaitScore: real,
        hateScore: real,
        warnings: seq<string>,
        details: Details)

  /** The echoed text: at most 200 characters of it, and "..." when cut. */
  function Echo(text: string): (r: string)
    ensures |text| <= 200 ==> r == text
    ensures |text| > 200 ==> |r| == 203 && r[..200] == text[..200] && r[200..] == "..."
    ensures |r| <= 203
  {
    if |text| > 200 then text[..200] + "..." else text
  }

  /** The weighted fake-news probability: 0.3 of the clickbait score, 0.2
      of the hate score and 0.5 of the missing credibility. */
  function FakeNewsProbability(clickbait: real, hate: real, credibility: real): (p: real)
    ensures 0.0 <= clickbait <= 100.0 && 0.0 <= hate <= 100.0 && 0.0 <= credibility <= 100.0
            ==> 0.0 <= p <= 100.0
  {
    clickbait * 0.3 + hate * 0.2 + (100.0 - credibility) * 0.5
  }

  /** `analyze`: blank text short-circuits; otherwise the three scorers run,
      the warnings are appended in a fixed order and the sub-scores are
      weighed into the fake-news probability. */
  method Analyze(text: string, source: string, findall: MatchCounter, blob: SentimentModel)
    returns (r: Analysis)
    ensures IsBlank(text) ==> r == BlankAnalysis(text, false, 0.0, [], 0.0)
    ensures !IsBlank(text) ==> r.FullAnalysis? && r.source == source && r.text == Echo(text)
    ensures !IsBlank(text) ==>
              var c := DetectClickbait(text);
              var h := HateOf(MatchTotal(OffensivePatterns, Lower(text), findall), blob(text).polarity);
              var cr := CheckCredibility(text, source);
              && r.details == Details(c, h, cr)
              && r.clickbaitScore == c.clickbaitScore
              && r.hateScore == h.hateScore
              && r.credibilityScore == cr.credibilityScore
              && r.fakeNewsProbability == FakeNewsProbability(c.clickbaitScore, h.hateScore, cr.credibilityScore)
              && (ClickbaitWarning in r.warnings <==> c.isClickbait)
              && (HateWarning in r.warnings <==> h.containsHateSpeech)
              && (CredibilityWarning in r.warnings <==> !cr.credible)
    ensures IsSubsequence(r.warnings, [ClickbaitWarning, HateWarning, CredibilityWarning])
    ensures |r.warnings| <= 3
    ensures 0.0 <= r.fakeNewsProbability <= 100.0
    ensures r.isFakeNews <==> r.fakeNewsProbability > 60.0
    ensures r.isFakeNews ==> r.warnings != []
  {
    if IsBlank(text) {
      return BlankAnalysis(text, false, 0.0, [], 0.0);
    }
    var clickbait := DetectClickbait(text);
    var hate := DetectHateSpeech(text, findall, blob);
    var credibility := CheckCredibility(text, source);

    var warnings: seq<string> := [];
    if clickbait.isClickbait {
      warnings := warnings + [ClickbaitWarning];
    }
    ghost var first := warnings;
    if hate.containsHateSpeech {
      warnings := warnings + [HateWarning];
    }
    ghost var second := warnings;
    if !credibility.credible {
      warnings := warnings + [CredibilityWarning];
    }
    assert first == (if clickbait.isClickbait then [ClickbaitWarning] else []);
    assert second == first + (if hate.containsHateSpeech then [HateWarning] else []);
    assert warnings == second + (if !credibility.credible then [CredibilityWarning] else []);
    WarningsInOrder(clickbait.isClickbait, hate.containsHateSpeech, !credibility.credible, warnings);
    if warnings == [] {
      NoWarningNoFakeNews(clickbait.clickbaitScore, hate.hateScore, credibility.credibilityScore);
    }

    var probability := FakeNewsProbability(
      clickbait.clickbaitScore, hate.hateScore, credibility.credibilityScore);
    r := FullAnalysis(
      Echo(text), source, probability > 60.0, probability,
      credibility.credibilityScore, clickbait.clickbaitScore, hate.hateScore,
      warnings, Details(clickbait, hate, credibility));
  }

  /** Sub-scores that raise none of the three warnings (clickbait at most
      40, hate at most 50, credibility above 50) keep the probability below
      47, well under the fake-news threshold of 60. */
  lemma NoWarningNoFakeNews(clickbait: real, hate: real, credibility: real)
    requires 0.0 <= clickbait <= 40.0 && 0.0 <= hate <= 50.0 && 50.0 < credibility <= 100.0
    ensures FakeNewsProbability(clickbait, hate, credibility) < 47.0
  {
  }

  /** The warnings built by the three conditional appends are exactly the
      messages whose conditions hold, in table order. */
  lemma WarningsInOrder(a: bool, b: bool, c: bool, warnings: seq<string>)
    requires warnings == (if a then [ClickbaitWarning] else [])
                       + (if b then [HateWarning] else [])
                       + (if c then [CredibilityWarning] else [])
    ensures IsSubsequence(warnings, [ClickbaitWarning, HateWarning, CredibilityWarning])
    ensures (ClickbaitWarning in warnings <==> a)
    ensures (HateWarning in warnings <==> b)
    ensures (CredibilityWarning in warnings <==> c)
  {
    var all := [ClickbaitWarning, HateWarning, CredibilityWarning];
    assert all[..2] == [ClickbaitWarning, HateWarning] && all[..2][..1] == [ClickbaitWarning];
    assert IsSubsequence([ClickbaitWarning], [ClickbaitWarning]);
    assert IsSubsequence([HateWarning], [ClickbaitWarning, HateWarning]);
    assert IsSubsequence([ClickbaitWarning, HateWarning], [ClickbaitWarning, HateWarning]);
    assert IsSubsequence([], all[..2]);
    if a && b && c {
    } else if a && b {
      assert IsSubsequence(warnings, all[..2]);
    } else if a && c {
      assert IsSubsequence([ClickbaitWarning], all[..2]);
    } else if b && c {
    } else if a {
      assert IsSubsequence(warnings, all[..2]);
    } else if b {
      assert IsSubsequence(warnings, all[..2]);
    } else if c {
    }
  }

  // ---------------------------------------------------------------------
  // Examples

  /** Three clickbait keywords (one of them a phrase) already decide the
      clickbait flag. */
  lemma ShockingSecretIsClickbait(text: string)
    requires text == "YOU WON'T BELIEVE THIS SHOCKING SECRET!!!"
    ensures DetectClickbait(text).isClickbait && DetectClickbait(text).clickbaitScore > 40.0
  {
    ShockingSecretWords(text);
  }

  lemma ShockingSecretWords(text: string)
    requires text == "YOU WON'T BELIEVE THIS SHOCKING SECRET!!!"
    ensures |KeywordsIn(ClickbaitWords, Lower(text))| >= 3
    ensures "you won't believe" in KeywordsIn(ClickbaitWords, Lower(text))
  {
    var a, b, c := "YOU WON'T BELIEVE", "SHOCKING", "SECRET";
    assert text == "" + a + " THIS " + b + " " + c + "!!!";
    HeadlineWordsLowered();
    assert ClickbaitWords[2] == Lower(a) && ClickbaitWords[0] == Lower(b) && ClickbaitWords[3] == Lower(c);
    ThreeWordsFound(ClickbaitWords, text, "", a, " THIS ", b, " ", c, "!!!");
  }

  lemma HeadlineWordsLowered()
    ensures Lower("YOU WON'T BELIEVE") == "you won't believe"
    ensures Lower("SHOCKING") == "shocking" && Lower("SECRET") == "secret"
  {
  }

  /** Source names are found by substring, not by word: "ap" is found
      inside "happen", so a text without any source is credited with at
      least one mention. */
  lemma ApFoundInsideWords(text: string, source: string)
    requires text == "it will happen" && source == ""
    ensures CheckCredibility(text, source).credibleSourcesMentioned >= 1
  {
    assert text == "it will h" + "ap" + "pen";
    assert OccursAt(text, "ap", 9);
    LowerFound(text, "ap", 9);
    assert Lower("ap") == "ap";
    assert CredibleSources[1] == "ap";
    assert "ap" in KeywordsIn(CredibleSources, Lower(text));
    CountMentionedBounds(CredibleSources, Lower(text), Lower(source));
  }

  /** The end-to-end clickbait example: whatever the pattern counts and the
      polarity, the analysis warns about clickbait. */
  method ShockingSecretAnalysis(findall: MatchCounter, blob: SentimentModel) returns (r: Analysis)
    ensures r.FullAnalysis? && r.clickbaitScore > 40.0
    ensures ClickbaitWarning in r.warnings
  {
    var text := "YOU WON'T BELIEVE THIS SHOCKING SECRET!!!";
    assert !IsBlank(text) by {
      assert !IsSpace(text[0]);
    }
    assert DetectClickbait(text).isClickbait by {
      ShockingSecretIsClickbait(text);
    }
    r := Analyze(text, "", findall, blob);
  }
}
