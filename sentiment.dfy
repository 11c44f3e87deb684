/** The sentiment classifier of the review analyzer: a polarity threshold
    rule applied to one text or to a batch, and the aggregate statistics of
    a batch of results. The polarity/subjectivity model is the parameter
    `blob`. */
module Sentiment {
  import opened Text
  import opened Externals

  datatype Label = Positive | Neutral | Negative

  /** The record `analyze_text` returns. */
  datatype SentimentResult = SentimentResult(
    text: string,
    sentiment: Label,
    polarity: real,
    subjectivity: real,
    confidence: real)

  /** The label thresholds: strictly above 0.1 is positive, strictly below
      -0.1 is negative, and the closed band [-0.1, 0.1] is neutral. */
  function Classify(polarity: real): (l: Label)
    ensures l == Positive <==> polarity > 0.1
    ensures l == Negative <==> polarity < -0.1
    ensures l == Neutral <==> -0.1 <= polarity <= 0.1
  {
    if polarity > 0.1 then Positive
    else if polarity < -0.1 then Negative
    else Neutral
  }

  function Abs(x: real): real {
    if x < 0.0 then -x else x
  }

  /** What every result of `AnalyzeText` satisfies. */
  predicate WellFormed(r: SentimentResult) {
    && -1.0 <= r.polarity <= 1.0
    && 0.0 <= r.subjectivity <= 1.0
    && r.confidence == Abs(r.polarity)
    && r.sentiment == Classify(r.polarity)
  }

  /** `analyze_text`: blank text short-circuits to a zero neutral result
      without consulting the model. */
  function AnalyzeText(text: string, blob: SentimentModel): (r: SentimentResult)
    ensures r.text == text
    ensures WellFormed(r)
    ensures IsBlank(text) ==> r == SentimentResult(text, Neutral, 0.0, 0.0, 0.0)
    ensures !IsBlank(text) ==>
              r.polarity == blob(text).polarity && r.subjectivity == blob(text).subjectivity
    ensures 0.0 <= r.confidence <= 1.0
    ensures r.sentiment == Neutral ==> r.confidence <= 0.1
  {
    if IsBlank(text) then
      SentimentResult(text, Neutral, 0.0, 0.0, 0.0)
    else
      var s := blob(text);
      SentimentResult(text, Classify(s.polarity), s.polarity, s.subjectivity, Abs(s.polarity))
  }

  /** `analyze_batch`: the per-item map, order preserved. */
  function AnalyzeBatch(texts: seq<string>, blob: SentimentModel): (rs: seq<SentimentResult>)
    ensures |rs| == |texts|
    ensures forall i :: 0 <= i < |texts| ==> rs[i] == AnalyzeText(texts[i], blob)
    ensures forall i :: 0 <= i < |rs| ==> WellFormed(rs[i]) && rs[i].text == texts[i]
  {
    seq(|texts|, i requires 0 <= i < |texts| => AnalyzeText(texts[i], blob))
  }

  /** The dictionary `get_statistics` returns; an empty batch has no
      percentage keys and no `average_confidence`. */
  datatype Statistics =
    | NoReviews(
        totalReviews: nat,
        positiveCount: nat,
        neutralCount: nat,
        negativeCount: nat,
        averagePolarity: real,
        averageSubjectivity: real)
    | Summary(
        totalReviews: nat,
        positiveCount: nat,
        neutralCount: nat,
        negativeCount: nat,
        positivePercentage: real,
        neutralPercentage: real,
        negativePercentage: real,
        averagePolarity: real,
        averageSubjectivity: real,
        averageConfidence: real)

  /** Number of results carrying `label`. */
  function Count(rs: seq<SentimentResult>, want: Label): (n: nat)
    ensures n <= |rs|
  {
    if rs == [] then 0
    else Count(rs[..|rs| - 1], want) + (if rs[|rs| - 1].sentiment == want then 1 else 0)
  }

  /** Every result carries exactly one of the three labels. */
  lemma {:induction false} CountsPartition(rs: seq<SentimentResult>)
    ensures Count(rs, Positive) + Count(rs, Neutral) + Count(rs, Negative) == |rs|
  {
    if rs != [] {
      CountsPartition(rs[..|rs| - 1]);
    }
  }

  function Sum(xs: seq<real>): real {
    if xs == [] then 0.0 else Sum(xs[..|xs| - 1]) + xs[|xs| - 1]
  }

  /** The arithmetic mean of a non-empty column. */
  function Mean(xs: seq<real>): real
    requires xs != []
  {
    Sum(xs) / (|xs| as real)
  }

  function Polarities(rs: seq<SentimentResult>): (xs: seq<real>)
    ensures |xs| == |rs| && forall i :: 0 <= i < |rs| ==> xs[i] == rs[i].polarity
  {
    seq(|rs|, i requires 0 <= i < |rs| => rs[i].polarity)
  }

  function Subjectivities(rs: seq<SentimentResult>): (xs: seq<real>)
    ensures |xs| == |rs| && forall i :: 0 <= i < |rs| ==> xs[i] == rs[i].subjectivity
  {
    seq(|rs|, i requires 0 <= i < |rs| => rs[i].subjectivity)
  }

  function Confidences(rs: seq<SentimentResult>): (xs: seq<real>)
    ensures |xs| == |rs| && forall i :: 0 <= i < |rs| ==> xs[i] == rs[i].confidence
  {
    seq(|rs|, i requires 0 <= i < |rs| => rs[i].confidence)
  }

  /** The share of `count` in `total`, as a percentage. */
  function Percentage(count: nat, total: nat): real
    requires total > 0
  {
    (count as real) / (total as real) * 100.0
  }

  /** The three label shares of a non-empty batch add up to 100. */
  lemma PercentagesSumTo100(p: nat, n: nat, g: nat, total: nat)
    requires total > 0 && p + n + g == total
    ensures Percentage(p, total) + Percentage(n, total) + Percentage(g, total) == 100.0
  {
    var t := total as real;
    DivAdd(p as real, n as real, t);
    DivAdd(p as real + n as real, g as real, t);
    assert p as real + n as real + g as real == t;
    calc {
      Percentage(p, total) + Percentage(n, total) + Percentage(g, total);
      ((p as real) / t + (n as real) / t + (g as real) / t) * 100.0;
      (t / t) * 100.0;
    }
  }

  /** Fractions over one positive denominator add up numerator-wise. */
  lemma DivAdd(x: real, y: real, t: real)
    requires t > 0.0
    ensures x / t + y / t == (x + y) / t
  {
  }

  /** Division by a positive quantity is undone by multiplying back. */
  lemma DivMul(x: real, t: real)
    requires t > 0.0
    ensures (x / t) * t == x
  {
  }

  /** A positive factor does not change the sign of a product. */
  lemma NonNegativeFactor(x: real, t: real)
    requires t > 0.0 && x * t >= 0.0
    ensures x >= 0.0
  {
  }

  /** `get_statistics`: label counts, label percentages and column means. */
  function GetStatistics(rs: seq<SentimentResult>): (st: Statistics)
    ensures st.NoReviews? <==> rs == []
    ensures rs == [] ==> st == NoReviews(0, 0, 0, 0, 0.0, 0.0)
    ensures st.totalReviews == |rs|
    ensures && st.positiveCount == Count(rs, Positive)
            && st.neutralCount == Count(rs, Neutral)
            && st.negativeCount == Count(rs, Negative)
    ensures st.positiveCount + st.neutralCount + st.negativeCount == st.totalReviews
    ensures st.Summary? ==>
              && st.positivePercentage + st.neutralPercentage + st.negativePercentage == 100.0
              && 0.0 <= st.positivePercentage <= 100.0
              && 0.0 <= st.neutralPercentage <= 100.0
              && 0.0 <= st.negativePercentage <= 100.0
              && st.positivePercentage == Percentage(st.positiveCount, st.totalReviews)
              && st.neutralPercentage == Percentage(st.neutralCount, st.totalReviews)
              && st.negativePercentage == Percentage(st.negativeCount, st.totalReviews)
              && st.averagePolarity == Mean(Polarities(rs))
              && st.averageSubjectivity == Mean(Subjectivities(rs))
              && st.averageConfidence == Mean(Confidences(rs))
  {
    if rs == [] then
      NoReviews(0, 0, 0, 0, 0.0, 0.0)
    else
      var total := |rs|;
      var pos, neu, neg := Count(rs, Positive), Count(rs, Neutral), Count(rs, Negative);
      CountsPartition(rs);
      PercentagesSumTo100(pos, neu, neg, total);
      PercentageBounds(pos, total);
      PercentageBounds(neu, total);
      PercentageBounds(neg, total);
      Summary(
        total, pos, neu, neg,
        Percentage(pos, total), Percentage(neu, total), Percentage(neg, total),
        Mean(Polarities(rs)), Mean(Subjectivities(rs)), Mean(Confidences(rs)))
  }

  lemma PercentageBounds(count: nat, total: nat)
    requires 0 < total && count <= total
    ensures 0.0 <= Percentage(count, total) <= 100.0
  {
    assert (count as real) / (total as real) <= 1.0;
  }

  /** A column whose every entry lies in [lo, hi] sums to a value in
      [|xs| * lo, |xs| * hi]. */
  lemma {:induction false} SumBounds(xs: seq<real>, lo: real, hi: real)
    requires forall i :: 0 <= i < |xs| ==> lo <= xs[i] <= hi
    ensures (|xs| as real) * lo <= Sum(xs) <= (|xs| as real) * hi
  {
    if xs != [] {
      SumBounds(xs[..|xs| - 1], lo, hi);
    }
  }

  /** The mean of a column lies within any bounds of its entries. */
  lemma MeanBounds(xs: seq<real>, lo: real, hi: real)
    requires xs != []
    requires forall i :: 0 <= i < |xs| ==> lo <= xs[i] <= hi
    ensures lo <= Mean(xs) <= hi
  {
    SumBounds(xs, lo, hi);
    var n := |xs| as real;
    DivMul(Sum(xs), n);
    assert (Mean(xs) - lo) * n == Sum(xs) - n * lo;
    NonNegativeFactor(Mean(xs) - lo, n);
    assert (hi - Mean(xs)) * n == n * hi - Sum(xs);
    NonNegativeFactor(hi - Mean(xs), n);
  }

  /** A column dominated in magnitude by another sums to a value dominated
      in magnitude by the other's sum. */
  lemma {:induction false} SumDominated(xs: seq<real>, ys: seq<real>)
    requires |xs| == |ys|
    requires forall i :: 0 <= i < |xs| ==> -ys[i] <= xs[i] <= ys[i]
    ensures -Sum(ys) <= Sum(xs) <= Sum(ys)
  {
    if xs != [] {
      SumDominated(xs[..|xs| - 1], ys[..|ys| - 1]);
    }
  }

  /** The same for means. */
  lemma MeanDominated(xs: seq<real>, ys: seq<real>)
    requires xs != [] && |xs| == |ys|
    requires forall i :: 0 <= i < |xs| ==> -ys[i] <= xs[i] <= ys[i]
    ensures -Mean(ys) <= Mean(xs) <= Mean(ys)
  {
    SumDominated(xs, ys);
    var n := |xs| as real;
    DivMul(Sum(xs), n);
    DivMul(Sum(ys), n);
    assert (Mean(ys) + Mean(xs)) * n == Sum(ys) + Sum(xs);
    NonNegativeFactor(Mean(ys) + Mean(xs), n);
    assert (Mean(ys) - Mean(xs)) * n == Sum(ys) - Sum(xs);
    NonNegativeFactor(Mean(ys) - Mean(xs), n);
  }

  /** Statistics of well-formed results: the averages stay in the ranges of
      the model's outputs, and the average confidence is at least the
      magnitude of the average polarity. */
  lemma StatisticsAverages(rs: seq<SentimentResult>)
    requires rs != []
    requires forall i :: 0 <= i < |rs| ==> WellFormed(rs[i])
    ensures var st := GetStatistics(rs);
            && -1.0 <= st.averagePolarity <= 1.0
            && 0.0 <= st.averageSubjectivity <= 1.0
            && 0.0 <= st.averageConfidence <= 1.0
            && -st.averageConfidence <= st.averagePolarity <= st.averageConfidence
  {
    MeanBounds(Polarities(rs), -1.0, 1.0);
    MeanBounds(Subjectivities(rs), 0.0, 1.0);
    MeanBounds(Confidences(rs), 0.0, 1.0);
    MeanDominated(Polarities(rs), Confidences(rs));
  }

  /** Statistics of a batch analysis: the counts partition the batch, and
      an empty batch of texts never reaches the division. */
  lemma BatchStatistics(texts: seq<string>, blob: SentimentModel)
    ensures var st := GetStatistics(AnalyzeBatch(texts, blob));
            && st.totalReviews == |texts|
            && (texts == [] <==> st == NoReviews(0, 0, 0, 0, 0.0, 0.0))
            && (texts != [] ==> -st.averageConfidence <= st.averagePolarity <= st.averageConfidence)
  {
    if texts != [] {
      StatisticsAverages(AnalyzeBatch(texts, blob));
    }
  }
}
