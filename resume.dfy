/** The resume screener: skills found from a fixed lexicon, years of
    experience from captured numbers, a match score from the vectorizer's
    similarity, a four-tier recommendation, and the ranking of several
    resumes against one job description by a stable sort on the match
    score followed by a loop that writes each 1-based rank. */
module Resume {
  import opened Text
  import opened Externals

  datatype Option<T> = None | Some(value: T) {
    function GetOr(default: T): T {
      match this
      case Some(v) => v
      case None => default
    }
  }

  const TechSkills: seq<string> := [
    "python", "java", "javascript", "react", "angular", "vue",
    "sql", "nosql", "mongodb", "postgresql", "mysql",
    "aws", "azure", "gcp", "docker", "kubernetes",
    "machine learning", "deep learning", "nlp", "ai",
    "fastapi", "django", "flask", "nodejs", "express",
    "git", "agile", "scrum", "ci/cd", "devops"
  ]

  /** The experience regular expressions, each with a single group
      capturing a run of digits, run in this order on the lowercased
      resume. */
  const ExperiencePatterns: seq<string> := [
    @"(\d+)\+?\s*years?\s+(?:of\s+)?experience",
    @"experience[:\s]+(\d+)\+?\s*years?",
    @"(\d+)\+?\s*yrs?\s+(?:of\s+)?experience"
  ]

  lemma TechSkillsDistinct()
    ensures |TechSkills| == 30 && NoDuplicates(TechSkills)
  {
  }

  // ---------------------------------------------------------------------
  // Skills

  /** The loop of `extract_skills`: every lexicon entry that occurs in
      `textLower` is appended, in lexicon order. */
  method CollectKeywords(lexicon: seq<string>, textLower: string) returns (found: seq<string>)
    ensures found == KeywordsIn(lexicon, textLower)
  {
    found := [];
    for i := 0 to |lexicon|
      invariant found == KeywordsIn(lexicon[..i], textLower)
    {
      assert lexicon[..i + 1][..i] == lexicon[..i];
      if Contains(textLower, lexicon[i]) {
        found := found + [lexicon[i]];
      }
    }
    assert lexicon[..|lexicon|] == lexicon;
  }

  /** The skill extraction `extract_skills`. */
  method ExtractSkills(text: string) returns (found: seq<string>)
    ensures found == KeywordsIn(TechSkills, Lower(text))
    ensures forall s :: s in found <==> s in TechSkills && Contains(Lower(text), s)
    ensures |found| <= |TechSkills| && NoDuplicates(found)
  {
    found := CollectKeywords(TechSkills, Lower(text));
    TechSkillsDistinct();
    KeywordsInDistinct(TechSkills, Lower(text));
  }

  // ---------------------------------------------------------------------
  // Experience

  /** The captures of `patterns`, pattern by pattern, concatenated: every
      value some pattern captures, and nothing else. */
  function AllCaptures(patterns: seq<string>, text: string, findall: IntCaptures): (r: seq<nat>)
    ensures forall i, c :: 0 <= i < |patterns| && c in findall(patterns[i], text) ==> c in r
    ensures forall c :: c in r ==> exists i :: 0 <= i < |patterns| && c in findall(patterns[i], text)
  {
    if patterns == [] then []
    else AllCaptures(patterns[..|patterns| - 1], text, findall) + findall(patterns[|patterns| - 1], text)
  }

  /** The largest captured value, or 0 when nothing was captured. */
  function MaxOrZero(xs: seq<nat>): (m: nat)
    ensures xs == [] ==> m == 0
    ensures xs != [] ==> m in xs
    ensures forall k :: 0 <= k < |xs| ==> xs[k] <= m
  {
    if xs == [] then 0
    else
      var rest := MaxOrZero(xs[..|xs| - 1]);
      assert xs == xs[..|xs| - 1] + [xs[|xs| - 1]];
      if rest >= xs[|xs| - 1] then rest else xs[|xs| - 1]
  }

  /** `extract_experience_years`: the captures of the three patterns are
      collected in a loop, then their maximum is taken. */
  method ExtractExperienceYears(text: string, findall: IntCaptures) returns (years: nat)
    ensures years == MaxOrZero(AllCaptures(ExperiencePatterns, Lower(text), findall))
  {
    var textLower := Lower(text);
    var found: seq<nat> := [];
    for i := 0 to |ExperiencePatterns|
      invariant found == AllCaptures(ExperiencePatterns[..i], textLower, findall)
    {
      assert ExperiencePatterns[..i + 1][..i] == ExperiencePatterns[..i];
      found := found + findall(ExperiencePatterns[i], textLower);
    }
    assert ExperiencePatterns[..|ExperiencePatterns|] == ExperiencePatterns;
    if found == [] {
      return 0;
    }
    years := found[0];
    for i := 1 to |found|
      invariant years in found[..i]
      invariant forall k :: 0 <= k < i ==> found[k] <= years
    {
      if found[i] > years {
        years := found[i];
      }
    }
    assert found[..|found|] == found;
  }

  // ---------------------------------------------------------------------
  // Recommendation tiers

  datatype Recommendation = HighlyRecommended | Recommended | Maybe | Reject

  /** The order of the tiers, from "reject" up to "highly_recommended". */
  function Level(t: Recommendation): nat {
    match t
    case Reject => 0
    case Maybe => 1
    case Recommended => 2
    case HighlyRecommended => 3
  }

  /** The tier rules, tried in order, the first that holds wins. */
  function Recommend(matchScore: real, skillsCount: nat): (t: Recommendation)
    ensures t == HighlyRecommended <==> matchScore >= 70.0 && skillsCount >= 5
    ensures t == Recommended <==>
              matchScore >= 50.0 && skillsCount >= 3 && !(matchScore >= 70.0 && skillsCount >= 5)
    ensures t == Maybe <==> matchScore >= 30.0 && !(matchScore >= 50.0 && skillsCount >= 3)
    ensures t == Reject <==> matchScore < 30.0
  {
    if matchScore >= 70.0 && skillsCount >= 5 then HighlyRecommended
    else if matchScore >= 50.0 && skillsCount >= 3 then Recommended
    else if matchScore >= 30.0 then Maybe
    else Reject
  }

  /** A higher match score never lowers the tier. */
  lemma RecommendMonotoneInScore(low: real, high: real, skillsCount: nat)
    requires low <= high
    ensures Level(Recommend(low, skillsCount)) <= Level(Recommend(high, skillsCount))
  {
  }

  /** More skills never lower the tier. */
  lemma RecommendMonotoneInSkills(matchScore: real, fewer: nat, more: nat)
    requires fewer <= more
    ensures Level(Recommend(matchScore, fewer)) <= Level(Recommend(matchScore, more))
  {
  }

  // ---------------------------------------------------------------------
  // Screening one resume

  /** The dictionary `screen_resume` returns; `skillsCount` is `None` where
      the dictionary has no `skills_count` key. */
  datatype Screening = Screening(
    matchScore: real,
    skillsFound: seq<string>,
    skillsCount: Option<nat>,
    experienceYears: nat,
    recommendation: Recommendation)

  /** The similarity as a percentage, or 0 when the vectorizer failed. */
  function MatchScore(similarity: Similarity): (s: real)
    ensures 0.0 <= s <= 100.0
    ensures similarity.VectorizerError? ==> s == 0.0
    ensures similarity.Cosine? ==> s == similarity.value * 100.0
  {
    match similarity
    case Cosine(v) => v * 100.0
    case VectorizerError => 0.0
  }

  /** What `screen_resume` returns for a resume and a job description. */
  function ScreeningOf(resumeText: string, jobDescription: string,
                       vectorizer: Vectorizer, findall: IntCaptures): (r: Screening)
    ensures resumeText == [] || jobDescription == [] ==>
              r == Screening(0.0, [], None, 0, Reject)
    ensures resumeText != [] && jobDescription != [] ==>
              && r.matchScore == MatchScore(vectorizer(jobDescription, resumeText))
              && r.skillsFound == KeywordsIn(TechSkills, Lower(resumeText))
              && r.skillsCount == Some(|r.skillsFound|)
              && r.experienceYears == MaxOrZero(AllCaptures(ExperiencePatterns, Lower(resumeText), findall))
    ensures 0.0 <= r.matchScore <= 100.0
    ensures r.recommendation == Recommend(r.matchScore, |r.skillsFound|)
    ensures |r.skillsFound| <= |TechSkills| && NoDuplicates(r.skillsFound)
  {
    if resumeText == [] || jobDescription == [] then
      Screening(0.0, [], None, 0, Reject)
    else
      var score := MatchScore(vectorizer(jobDescription, resumeText));
      var skills := KeywordsIn(TechSkills, Lower(resumeText));
      var years := MaxOrZero(AllCaptures(ExperiencePatterns, Lower(resumeText), findall));
      TechSkillsDistinct();
      KeywordsInDistinct(TechSkills, Lower(resumeText));
      Screening(score, skills, Some(|skills|), years, Recommend(score, |skills|))
  }

  /** The screening of one resume, `screen_resume`. */
  method ScreenResume(resumeText: string, jobDescription: string,
                      vectorizer: Vectorizer, findall: IntCaptures) returns (r: Screening)
    ensures r == ScreeningOf(resumeText, jobDescription, vectorizer, findall)
  {
    if resumeText == [] || jobDescription == [] {
      return Screening(0.0, [], None, 0, Reject);
    }
    var matchScore := MatchScore(vectorizer(jobDescription, resumeText));
    var skillsFound := ExtractSkills(resumeText);
    var experienceYears := ExtractExperienceYears(resumeText, findall);
    var recommendation := Recommend(matchScore, |skillsFound|);
    r := Screening(matchScore, skillsFound, Some(|skillsFound|), experienceYears, recommendation);
  }

  // ---------------------------------------------------------------------
  // Ranking

  /** An element of the request list: `id` and `text` may be missing. */
  datatype ResumeItem = ResumeItem(id: Option<string>, text: Option<string>)

  /** One record of `rank_resumes`' result; `rank` is `None` until the
      ranking loop writes it. */
  datatype RankedResume = RankedResume(resumeId: string, screening: Screening, rank: Option<nat>)

  function Score(e: RankedResume): real {
    e.screening.matchScore
  }

  /** The record built for one request item before sorting. */
  function EntryOf(item: ResumeItem, jobDescription: string,
                   vectorizer: Vectorizer, findall: IntCaptures): (e: RankedResume)
    ensures e.resumeId == (if item.id.Some? then item.id.value else "unknown")
    ensures e.screening == ScreeningOf(if item.text.Some? then item.text.value else "",
                                       jobDescription, vectorizer, findall)
    ensures e.rank == None
  {
    RankedResume(item.id.GetOr("unknown"),
                 ScreeningOf(item.text.GetOr(""), jobDescription, vectorizer, findall),
                 None)
  }

  function Entries(items: seq<ResumeItem>, jobDescription: string,
                   vectorizer: Vectorizer, findall: IntCaptures): (es: seq<RankedResume>)
    ensures |es| == |items|
    ensures forall i :: 0 <= i < |items| ==> es[i] == EntryOf(items[i], jobDescription, vectorizer, findall)
  {
    seq(|items|, i requires 0 <= i < |items| => EntryOf(items[i], jobDescription, vectorizer, findall))
  }

  /** Inserts `x` after the last element of `sorted` whose score is at
      least `x`'s: the step of a stable sort by descending score. */
  function Insert(sorted: seq<RankedResume>, x: RankedResume): (r: seq<RankedResume>)
    ensures |r| == |sorted| + 1
    ensures forall y :: y in r <==> y == x || y in sorted
    decreases |sorted|
  {
    if sorted == [] || Score(sorted[|sorted| - 1]) >= Score(x) then sorted + [x]
    else Insert(sorted[..|sorted| - 1], x) + [sorted[|sorted| - 1]]
  }

  /** The list sorted by descending score, equal scores in input order. */
  function SortedByScore(s: seq<RankedResume>): (r: seq<RankedResume>)
    ensures |r| == |s|
    ensures forall y :: y in r ==> y in s
  {
    if s == [] then [] else Insert(SortedByScore(s[..|s| - 1]), s[|s| - 1])
  }

  predicate NonIncreasing(s: seq<RankedResume>) {
    forall i, j :: 0 <= i < j < |s| ==> Score(s[i]) >= Score(s[j])
  }

  /** The elements of `s` whose score is `k`, in order. */
  function WithScore(s: seq<RankedResume>, k: real): seq<RankedResume> {
    if s == [] then []
    else WithScore(s[..|s| - 1], k) + (if Score(s[|s| - 1]) == k then [s[|s| - 1]] else [])
  }

  lemma {:induction false} WithScoreAppend(s: seq<RankedResume>, t: seq<RankedResume>, k: real)
    ensures WithScore(s + t, k) == WithScore(s, k) + WithScore(t, k)
    decreases |t|
  {
    if t != [] {
      var t' := t[..|t| - 1];
      assert (s + t)[..|s + t| - 1] == s + t';
      WithScoreAppend(s, t', k);
    } else {
      assert s + t == s;
    }
  }

  lemma {:induction false} InsertPermutation(sorted: seq<RankedResume>, x: RankedResume)
    ensures multiset(Insert(sorted, x)) == multiset(sorted) + multiset{x}
    ensures |Insert(sorted, x)| == |sorted| + 1
    decreases |sorted|
  {
    if sorted != [] && Score(sorted[|sorted| - 1]) < Score(x) {
      var init := sorted[..|sorted| - 1];
      InsertPermutation(init, x);
      assert sorted == init + [sorted[|sorted| - 1]];
    }
  }

  lemma {:induction false} InsertNonIncreasing(sorted: seq<RankedResume>, x: RankedResume)
    requires NonIncreasing(sorted)
    ensures NonIncreasing(Insert(sorted, x))
    ensures forall i :: 0 <= i < |Insert(sorted, x)| ==>
              Insert(sorted, x)[i] == x || Insert(sorted, x)[i] in sorted
    decreases |sorted|
  {
    InsertPermutation(sorted, x);
    if sorted != [] && Score(sorted[|sorted| - 1]) < Score(x) {
      var init, last := sorted[..|sorted| - 1], sorted[|sorted| - 1];
      InsertNonIncreasing(init, x);
      var r := Insert(init, x);
      forall i | 0 <= i < |r| ensures Score(r[i]) >= Score(last) {
        if r[i] != x {
          var j :| 0 <= j < |init| && init[j] == r[i];
        }
      }
    }
  }

  /** Inserting `x` moves it only past elements of strictly lower score,
      so among elements of any one score the order is kept. */
  lemma {:induction false} InsertStable(sorted: seq<RankedResume>, x: RankedResume, k: real)
    ensures WithScore(Insert(sorted, x), k) == WithScore(sorted, k) + WithScore([x], k)
    decreases |sorted|
  {
    if sorted == [] || Score(sorted[|sorted| - 1]) >= Score(x) {
      assert Insert(sorted, x) == sorted + [x];
      WithScoreAppend(sorted, [x], k);
    } else {
      var init, last := sorted[..|sorted| - 1], sorted[|sorted| - 1];
      var wx, wl := WithScore([x], k), WithScore([last], k);
      assert wx == [] || wl == [] by {
        WithScoreSingleton(x, k);
        WithScoreSingleton(last, k);
      }
      assert Insert(sorted, x) == Insert(init, x) + [last];
      assert sorted == init + [last];
      calc {
        WithScore(Insert(sorted, x), k);
        { WithScoreAppend(Insert(init, x), [last], k); }
        WithScore(Insert(init, x), k) + wl;
        { InsertStable(init, x, k); }
        WithScore(init, k) + wx + wl;
        WithScore(init, k) + wl + wx;
        { WithScoreAppend(init, [last], k); }
        WithScore(sorted, k) + wx;
      }
    }
  }

  lemma WithScoreSingleton(x: RankedResume, k: real)
    ensures WithScore([x], k) == (if Score(x) == k then [x] else [])
  {
    assert [x][..0] == [];
  }

  /** The sorted list is a permutation of the input. */
  lemma {:induction false} SortedByScorePermutation(s: seq<RankedResume>)
    ensures multiset(SortedByScore(s)) == multiset(s)
    ensures |SortedByScore(s)| == |s|
  {
    if s != [] {
      var init, last := s[..|s| - 1], s[|s| - 1];
      assert SortedByScore(s) == Insert(SortedByScore(init), last);
      SortedByScorePermutation(init);
      InsertPermutation(SortedByScore(init), last);
      assert multiset(s) == multiset(init) + multiset{last} by {
        assert s == init + [last];
      }
    }
  }

  /** The sorted list is non-increasing in score. */
  lemma {:induction false} SortedByScoreNonIncreasing(s: seq<RankedResume>)
    ensures NonIncreasing(SortedByScore(s))
  {
    if s != [] {
      SortedByScoreNonIncreasing(s[..|s| - 1]);
      InsertNonIncreasing(SortedByScore(s[..|s| - 1]), s[|s| - 1]);
    }
  }

  /** The sort is stable: for every score, the records with that score
      appear in the same order as in the input. */
  lemma {:induction false} SortedByScoreStable(s: seq<RankedResume>, k: real)
    ensures WithScore(SortedByScore(s), k) == WithScore(s, k)
  {
    if s != [] {
      var init := s[..|s| - 1];
      SortedByScoreStable(init, k);
      InsertStable(SortedByScore(init), s[|s| - 1], k);
      assert WithScore([s[|s| - 1]], k) == (if Score(s[|s| - 1]) == k then [s[|s| - 1]] else []);
    }
  }

  /** Inserting past an element of strictly lower score. */
  lemma InsertPast(prefix: seq<RankedResume>, moved: RankedResume, x: RankedResume)
    requires Score(moved) < Score(x)
    ensures Insert(prefix + [moved], x) == Insert(prefix, x) + [moved]
  {
    assert (prefix + [moved])[..|prefix|] == prefix;
  }

  /** One swap of the insertion step keeps the sorted result it is heading
      for: moving `x` left past a lower-scored element. */
  lemma SwapStep(before: seq<RankedResume>, after: seq<RankedResume>, j: nat, i: nat, x: RankedResume)
    requires 0 < j <= i < |before|
    requires before[j] == x && Score(before[j - 1]) < Score(x)
    requires after == before[j - 1 := x][j := before[j - 1]]
    ensures Insert(before[..j], x) + before[j + 1..i + 1] == Insert(after[..j - 1], x) + after[j..i + 1]
    ensures after[i + 1..] == before[i + 1..]
    ensures after[j - 1] == x
  {
    var prefix, moved := before[..j - 1], before[j - 1];
    assert before[..j] == prefix + [moved];
    InsertPast(prefix, moved, x);
    assert after[..j - 1] == prefix;
    assert after[j..i + 1] == [moved] + before[j + 1..i + 1];
  }

  /** One step of the insertion sort: `a[i]` is swapped leftwards past the
      elements of strictly lower score. */
  method InsertAt(a: array<RankedResume>, i: nat)
    requires i < a.Length
    modifies a
    ensures a[..i + 1] == Insert(old(a[..i]), old(a[i]))
    ensures a[i + 1..] == old(a[i + 1..])
  {
    ghost var sorted := a[..i];
    var x := a[i];
    var j := i;
    while j > 0 && Score(a[j - 1]) < Score(x)
      invariant 0 <= j <= i
      invariant a[j] == x
      invariant Insert(sorted, x) == Insert(a[..j], x) + a[j + 1..i + 1]
      invariant a[i + 1..] == old(a[i + 1..])
    {
      ghost var before := a[..];
      a[j - 1], a[j] := a[j], a[j - 1];
      assert a[..] == before[j - 1 := x][j := before[j - 1]];
      SwapStep(before, a[..], j, i, x);
      j := j - 1;
    }
    assert Insert(a[..j], x) == a[..j] + [x];
    assert a[..i + 1] == a[..j] + [x] + a[j + 1..i + 1];
  }

  /** The stable sort by descending match score, as an insertion sort on
      the array. */
  method SortByScore(a: array<RankedResume>)
    modifies a
    ensures a[..] == SortedByScore(old(a[..]))
  {
    ghost var input := a[..];
    for i := 0 to a.Length
      invariant a[..i] == SortedByScore(input[..i])
      invariant a[i..] == input[i..]
    {
      assert a[i] == input[i] && a[i + 1..] == input[i + 1..];
      ghost var next := SortedByScore(input[..i + 1]);
      assert next == Insert(SortedByScore(input[..i]), input[i]) by {
        assert input[..i + 1][..i] == input[..i];
      }
      InsertAt(a, i);
    }
    assert input[..a.Length] == input;
  }

  /** The records with `rank` set to their 1-based position. */
  function WithRanks(s: seq<RankedResume>): (r: seq<RankedResume>)
    ensures |r| == |s|
    ensures forall i :: 0 <= i < |s| ==> r[i] == s[i].(rank := Some(i + 1))
  {
    seq(|s|, i requires 0 <= i < |s| => s[i].(rank := Some(i + 1)))
  }

  /** The loop that writes into each record its 1-based position as rank. */
  method AssignRanks(a: array<RankedResume>)
    modifies a
    ensures a[..] == WithRanks(old(a[..]))
  {
    for i := 0 to a.Length
      invariant forall k :: 0 <= k < i ==> a[k] == old(a[k]).(rank := Some(k + 1))
      invariant forall k :: i <= k < a.Length ==> a[k] == old(a[k])
    {
      a[i] := a[i].(rank := Some(i + 1));
    }
  }

  /** What `rank_resumes` returns. */
  function Ranking(items: seq<ResumeItem>, jobDescription: string,
                   vectorizer: Vectorizer, findall: IntCaptures): (r: seq<RankedResume>)
    ensures |r| == |items|
    ensures forall i :: 0 <= i < |r| ==> r[i].rank == Some(i + 1)
  {
    SortedByScorePermutation(Entries(items, jobDescription, vectorizer, findall));
    WithRanks(SortedByScore(Entries(items, jobDescription, vectorizer, findall)))
  }

  /** `rank_resumes`: screen every item into a new list, sort it by score,
      then write the ranks. */
  method RankResumes(items: seq<ResumeItem>, jobDescription: string,
                     vectorizer: Vectorizer, findall: IntCaptures)
    returns (results: array<RankedResume>)
    ensures fresh(results)
    ensures results[..] == Ranking(items, jobDescription, vectorizer, findall)
  {
    results := new RankedResume[|items|];
    for i := 0 to |items|
      modifies results
      invariant forall k :: 0 <= k < i ==>
                  results[k] == EntryOf(items[k], jobDescription, vectorizer, findall)
    {
      var resumeId := items[i].id.GetOr("unknown");
      var resumeText := items[i].text.GetOr("");
      var analysis := ScreenResume(resumeText, jobDescription, vectorizer, findall);
      results[i] := RankedResume(resumeId, analysis, None);
      assert results[i] == EntryOf(items[i], jobDescription, vectorizer, findall);
    }
    ghost var entries := Entries(items, jobDescription, vectorizer, findall);
    assert results[..] == entries;
    SortByScore(results);
    assert results[..] == SortedByScore(entries);
    AssignRanks(results);
    assert results[..] == WithRanks(SortedByScore(entries));
  }

  /** The records without their ranks. */
  function Unranked(s: seq<RankedResume>): (r: seq<RankedResume>)
    ensures |r| == |s|
    ensures forall i :: 0 <= i < |s| ==> r[i] == s[i].(rank := None)
  {
    seq(|s|, i requires 0 <= i < |s| => s[i].(rank := None))
  }

  /** The ranking has one record per item; the record at position i has
      rank i + 1; scores do not increase down the list; without their ranks
      the records are a permutation of the per-item screenings, and records
      of equal score keep the order of their items. */
  lemma RankingProperties(items: seq<ResumeItem>, jobDescription: string,
                          vectorizer: Vectorizer, findall: IntCaptures)
    ensures var r := Ranking(items, jobDescription, vectorizer, findall);
            var es := Entries(items, jobDescription, vectorizer, findall);
            && |r| == |items|
            && (forall i :: 0 <= i < |r| ==> r[i].rank == Some(i + 1))
            && (forall i, j :: 0 <= i < j < |r| ==> Score(r[i]) >= Score(r[j]))
            && multiset(Unranked(r)) == multiset(es)
            && (forall k :: WithScore(Unranked(r), k) == WithScore(es, k))
  {
    var es := Entries(items, jobDescription, vectorizer, findall);
    var sorted := SortedByScore(es);
    SortedByScorePermutation(es);
    SortedByScoreNonIncreasing(es);
    RanksRemoved(es);
    forall k ensures WithScore(sorted, k) == WithScore(es, k) {
      SortedByScoreStable(es, k);
    }
  }

  /** Removing the ranks the loop wrote gives back the sorted records,
      which had none. */
  lemma RanksRemoved(es: seq<RankedResume>)
    requires forall i :: 0 <= i < |es| ==> es[i].rank == None
    ensures Unranked(WithRanks(SortedByScore(es))) == SortedByScore(es)
  {
    var sorted := SortedByScore(es);
    SortedByScorePermutation(es);
    forall i | 0 <= i < |sorted| ensures sorted[i].rank == None {
      assert sorted[i] in multiset(es);
    }
  }

  /** The end-to-end screening example, with the first experience pattern
      capturing 5 and the other two nothing: five years, the three skills
      named, and at least "recommended" once the match score reaches 50. */
  lemma PythonAwsDockerExample(resume: string, job: string,
                               vectorizer: Vectorizer, findall: IntCaptures)
    requires resume == "5 years experience in python, aws, docker"
    requires job == "need python and aws developer"
    requires findall(ExperiencePatterns[0], Lower(resume)) == [5]
    requires findall(ExperiencePatterns[1], Lower(resume)) == []
    requires findall(ExperiencePatterns[2], Lower(resume)) == []
    ensures var r := ScreeningOf(resume, job, vectorizer, findall);
            && r.experienceYears == 5
            && "python" in r.skillsFound && "aws" in r.skillsFound && "docker" in r.skillsFound
            && (r.matchScore >= 50.0 ==> r.recommendation in {Recommended, HighlyRecommended})
  {
    PythonAwsDockerSkills(resume);
    ThreePatternCaptures(ExperiencePatterns, Lower(resume), findall);
  }

  /** The captures of a three-pattern table, pattern by pattern. */
  lemma ThreePatternCaptures(patterns: seq<string>, text: string, findall: IntCaptures)
    requires |patterns| == 3
    ensures AllCaptures(patterns, text, findall)
         == findall(patterns[0], text) + findall(patterns[1], text) + findall(patterns[2], text)
  {
    var one, two := patterns[..1], patterns[..2];
    assert one[..0] == [] && two[..1] == one && patterns[..2] == two;
    assert AllCaptures(one, text, findall) == findall(patterns[0], text);
    assert AllCaptures(two, text, findall) == AllCaptures(one, text, findall) + findall(patterns[1], text);
    assert AllCaptures(patterns, text, findall) == AllCaptures(two, text, findall) + findall(patterns[2], text);
  }

  lemma PythonAwsDockerSkills(resume: string)
    requires resume == "5 years experience in python, aws, docker"
    ensures var skills := KeywordsIn(TechSkills, Lower(resume));
            "python" in skills && "aws" in skills && "docker" in skills && |skills| >= 3
  {
    var a, b, c := "python", "aws", "docker";
    assert resume == "5 years experience in " + a + ", " + b + ", " + c + "";
    SkillWordsLowered();
    assert TechSkills[0] == Lower(a) && TechSkills[11] == Lower(b) && TechSkills[14] == Lower(c);
    ThreeWordsFound(TechSkills, resume, "5 years experience in ", a, ", ", b, ", ", c, "");
  }

  lemma SkillWordsLowered()
    ensures Lower("python") == "python" && Lower("aws") == "aws" && Lower("docker") == "docker"
  {
  }
}
