# NLP business toolkit services in Dafny

This project models the three analysis services of an NLP toolkit for
small businesses. Each service turns free text into a scored verdict by
fixed rules.

- **Resume screening** (`resume.dfy`, module `Resume`). It finds skills
  from a fixed lexicon of 30 technologies and reads years of experience
  from three experience patterns. It turns the vectorizer's similarity
  between the resume and the job description into a match score. From the
  score and the number of skills it picks one of four tiers: highly
  recommended, recommended, maybe, reject. To rank several resumes, it
  screens each one, sorts the records by match score (highest first, ties
  in input order) and writes each record's 1-based rank.
- **Fake-news and harmful-content detection** (`fake_news.dfy`, module
  `FakeNews`). It has three capped scorers: clickbait (keywords,
  exclamation marks, share of capitals), hate speech (pattern matches,
  negative polarity) and credibility (source names, citations, quotes,
  length). The analysis builds the warnings list in a fixed order and
  weighs the three scores into a fake-news probability.
- **Sentiment analysis of reviews** (`sentiment.dfy`, module `Sentiment`).
  A polarity threshold rule gives a label and a confidence, for one text or
  a batch. For a batch of results it computes the label counts, the label
  percentages and the column means.

`text.dfy` (module `Text`) holds the string operations the services share.
It covers `str.lower`, `str.isupper`, `str.strip`, `str.count` and the
substring test `in`, all on ASCII. It also holds the "lexicon entries found
in the text" filter that every keyword table is queried with.

`externals.dfy` (module `Externals`) gives types to the three library
calls the services make: the TextBlob sentiment model, `re.findall` for
the hate and experience patterns, and the TF-IDF vectorizer with cosine
similarity. The model does not re-implement them. Each one is a
function-typed parameter of the operations that use it, and its result type
carries the range the library guarantees: polarity in [-1, 1],
subjectivity and similarity in [0, 1], counts and captured numbers
non-negative. The vectorizer can also return an error, which models the
exception `screen_resume` catches.

Code that loops or updates state in place is written as methods. These
are the skill loop, the experience loop and the maximum, the hate-pattern
loop, the conditional appends of the warnings list, and the ranking: a
results list that is filled, sorted and then updated with ranks. The loop
methods and the ranking methods are proved equal to specification
functions, and the properties are proved about those functions. The
analysis method `Analyze` instead states its result fields and their
properties directly in its contract. The rest is functions and lemmas.

## Model

| member | source | states |
|---|---|---|
| Text.Lower | backend/services/fake_news_service.py:43 | lower-casing keeps the length, turns every capital into its own lower-case letter and keeps every other character, so no capital is left |
| Text.IsBlank | backend/services/sentiment_service.py:30 | the blank test holds exactly when the text is empty or stripping it leaves nothing |
| Text.Strip | backend/services/fake_news_service.py:146 | the stripped text is empty or starts and ends with a non-whitespace character |
| Text.CountUpper | backend/services/fake_news_service.py:49 | the number of capitals is at most the length, and zero exactly when the text has no capital |
| Text.ContainsIsOccurrence | backend/services/fake_news_service.py:44 | the substring test holds exactly when the needle occurs at some index of the text |
| Text.KeywordsIn | backend/services/resume_service.py:42-49 | the found list holds exactly the lexicon entries that occur in the text, in lexicon order, never more entries than the lexicon has |
| Text.KeywordsInDistinct | backend/services/resume_service.py:45-47 | a lexicon without repeats gives a found list without repeats |
| Text.CountChar | backend/services/fake_news_service.py:47 | a character count is at most the length, and it is zero exactly when the character does not occur |
| Text.CountMentioned | backend/services/fake_news_service.py:113 | the number of sources named in the text or the source name is at most the table size |
| Text.CountMentionedBounds | backend/services/fake_news_service.py:113 | a source found in both strings counts once: the count is the two single-string counts added, less the number of sources found in both, so it lies between the larger single-string count and the sum of the two |
| Text.LowerFound | backend/services/fake_news_service.py:43-44 | a word at a known index of the text is found, lower-cased, in the lower-cased text |
| Text.ThreeWordsFound | backend/services/fake_news_service.py:43-44 | three words of a text whose lower-case forms are different lexicon entries are all in the keyword list, which then has at least three entries |
| Sentiment.Classify | backend/services/sentiment_service.py:45-50 | positive exactly above 0.1, negative exactly below -0.1, neutral exactly on the closed band [-0.1, 0.1] |
| Sentiment.AnalyzeText | backend/services/sentiment_service.py:30-61 | echoes the text; blank text gives a zero neutral result without using the model; otherwise polarity and subjectivity come from the model, the label from the thresholds, and confidence is the absolute polarity, in [0, 1] and at most 0.1 for a neutral label |
| Sentiment.AnalyzeBatch | backend/services/sentiment_service.py:73 | one result per text, in order, each the single-text analysis of its text |
| Sentiment.Count | backend/services/sentiment_service.py:99-101 | a label count never exceeds the number of results |
| Sentiment.CountsPartition | backend/services/sentiment_service.py:99-101 | the three label counts add up to the number of results |
| Sentiment.PercentagesSumTo100 | backend/services/sentiment_service.py:102-104 | the three label percentages of a non-empty batch add up to 100 |
| Sentiment.PercentageBounds | backend/services/sentiment_service.py:102-104 | each label percentage lies in [0, 100] |
| Sentiment.GetStatistics | backend/services/sentiment_service.py:85-108 | the short form with zero counts and averages exactly when there are no results; otherwise each label count is the number of results with that label, the counts partition the total; the percentages are each count's share and add up to 100; the averages are the three column means |
| Sentiment.SumBounds | backend/services/sentiment_service.py:105-107 | a column whose entries lie in [lo, hi] sums to between n·lo and n·hi |
| Sentiment.MeanBounds | backend/services/sentiment_service.py:105-107 | a column mean lies within any bounds of its entries |
| Sentiment.SumDominated | backend/services/sentiment_service.py:105-107 | a column bounded in magnitude by another column has a sum bounded in magnitude by the other's sum |
| Sentiment.MeanDominated | backend/services/sentiment_service.py:105-107 | the same for the means |
| Sentiment.StatisticsAverages | backend/services/sentiment_service.py:105-107 | for analyzer results, average polarity is in [-1, 1], average subjectivity and confidence in [0, 1], and the magnitude of the average polarity is at most the average confidence |
| Sentiment.BatchStatistics | backend/services/sentiment_service.py:73-108 | the statistics of a batch analysis count every text, are the short form exactly for an empty batch, and bound the average polarity by the average confidence |
| FakeNews.CapsRatio | backend/services/fake_news_service.py:49 | the share of capitals, over length plus one, lies in [0, 1) |
| FakeNews.ClickbaitSum | backend/services/fake_news_service.py:51-55 | the uncapped clickbait score is 15 per keyword plus at most 60 from punctuation and capitals |
| FakeNews.DetectClickbait | backend/services/fake_news_service.py:43-63 | the keywords found in the lower-cased text, the `!` count and the capitals ratio; the score is the sum capped at 100; clickbait exactly when the sum exceeds 40, and, since this model does not round, exactly when the capped score does; three keywords are always clickbait |
| FakeNews.HateOf | backend/services/fake_news_service.py:86-96 | the score is 40 per match plus 30 per unit of negative polarity, capped at 100; hate speech exactly when the sum exceeds 50, and, since this model does not round, exactly when the capped score does; two matches always are, no match never is, and without negative polarity it takes two matches |
| FakeNews.MatchTotal | backend/services/fake_news_service.py:78-80 | the total of the pattern matches is at least each pattern's count, and zero exactly when no pattern matches |
| FakeNews.DetectHateSpeech | backend/services/fake_news_service.py:75-96 | the loop over the pattern table counts every pattern's matches in the lower-cased text, and the result is the hate verdict for that count and the model's polarity |
| FakeNews.CredibilitySum | backend/services/fake_news_service.py:120-125 | the uncapped credibility score is 25 per source plus at most 75 from citations, quotes and length |
| FakeNews.HasCitation | backend/services/fake_news_service.py:116 | a citation (a bracketed number or a parenthesised four-digit year) needs at least three characters and an opening bracket or parenthesis |
| FakeNews.CitationAnywhere | backend/services/fake_news_service.py:116 | the citation search is not anchored: a citation is found wherever it sits in the text |
| FakeNews.CheckCredibility | backend/services/fake_news_service.py:109-133 | sources mentioned in the text or the source name (at most 10), a bracketed-number or four-digit-year citation, at least two double quotes; the score is the capped sum; credible exactly when it exceeds 50; three sources always are |
| FakeNews.Echo | backend/services/fake_news_service.py:177 | text up to 200 characters is echoed whole; longer text gives its first 200 characters followed by "..." |
| FakeNews.Analyze | backend/services/fake_news_service.py:146-190 | blank text gives the short result; otherwise the three sub-results, the probability weighed 0.3/0.2/0.5 from them, each warning present exactly when its condition holds, the warnings in table order, a probability in [0, 100], fake news exactly above 60, and never fake news without a warning |
| FakeNews.FakeNewsProbability | backend/services/fake_news_service.py:170-174 | sub-scores in [0, 100] give a weighted probability in [0, 100] |
| FakeNews.NoWarningNoFakeNews | backend/services/fake_news_service.py:161-179 | sub-scores that raise no warning keep the probability below 47, under the threshold of 60 |
| FakeNews.WarningsInOrder | backend/services/fake_news_service.py:161-167 | the three conditional appends give exactly the messages whose conditions hold, as a subsequence of the three messages in order |
| FakeNews.ShockingSecretWords | backend/services/fake_news_service.py:15-19 | "YOU WON'T BELIEVE THIS SHOCKING SECRET!!!" contains at least three clickbait keywords, among them the phrase "you won't believe" |
| FakeNews.ShockingSecretIsClickbait | backend/services/fake_news_service.py:43-58 | that headline is clickbait with a score above 40 |
| FakeNews.ShockingSecretAnalysis | backend/services/fake_news_service.py:146-184 | analyzing that headline, whatever the pattern counts and polarity, warns about clickbait |
| FakeNews.ApFoundInsideWords | backend/services/fake_news_service.py:113 | sources are matched as substrings, so "it will happen" with no source is credited with at least one mention ("ap" inside "happen") |
| Resume.TechSkillsDistinct | backend/services/resume_service.py:23-30 | the skills lexicon has 30 entries, all different |
| Resume.CollectKeywords | backend/services/resume_service.py:43-47 | the append loop returns exactly the lexicon filter of the text |
| Resume.ExtractSkills | backend/services/resume_service.py:42-49 | a skill is found exactly when it occurs in the lower-cased resume; at most 30 skills, in lexicon order, without repeats |
| Resume.AllCaptures | backend/services/resume_service.py:71-73 | the collected captures hold every value some pattern captures, and nothing else |
| Resume.MaxOrZero | backend/services/resume_service.py:75 | zero for no captures; otherwise a captured value that is at least every other |
| Resume.ExtractExperienceYears | backend/services/resume_service.py:62-75 | the loop collects the captures of the three patterns in order on the lower-cased resume, and the result is their maximum, or 0 |
| Resume.Recommend | backend/services/resume_service.py:111-118 | the first rule that holds wins: highly recommended exactly when score ≥ 70 and ≥ 5 skills; recommended exactly when score ≥ 50 and ≥ 3 skills but not the first rule; maybe exactly when score ≥ 30 and not the second rule's condition; reject exactly below 30 |
| Resume.RecommendMonotoneInScore | backend/services/resume_service.py:111-118 | a higher score never gives a lower tier |
| Resume.RecommendMonotoneInSkills | backend/services/resume_service.py:111-118 | more skills never give a lower tier |
| Resume.MatchScore | backend/services/resume_service.py:97-102 | similarity times 100, 0 when the vectorizer fails, always in [0, 100] |
| Resume.ScreeningOf | backend/services/resume_service.py:88-126 | an empty resume or job description gives a reject with score 0 and no skill count; otherwise the score, the skills, their count and the years; the tier follows the tier rules; at most 30 distinct skills |
| Resume.ScreenResume | backend/services/resume_service.py:88-126 | the screening computed with the skill and experience loops is the specified screening |
| Resume.EntryOf | backend/services/resume_service.py:142-149 | a missing id becomes "unknown", a missing text the empty string; the record holds the screening and no rank yet |
| Resume.Entries | backend/services/resume_service.py:141-149 | one record per request item, in order |
| Resume.Insert | backend/services/resume_service.py:152 | one insertion step of the stable descending sort adds one element and keeps every other: its elements are the new record and the old ones |
| Resume.SortedByScore | backend/services/resume_service.py:152 | the stable descending order of a list has its length and only its elements |
| Resume.InsertPermutation | backend/services/resume_service.py:152 | one insertion step adds exactly the inserted record |
| Resume.InsertNonIncreasing | backend/services/resume_service.py:152 | one insertion step keeps the list in descending score order |
| Resume.InsertStable | backend/services/resume_service.py:152 | one insertion step puts the new record after every record of equal score |
| Resume.SortedByScorePermutation | backend/services/resume_service.py:152 | the sorted list is a permutation of the input |
| Resume.SortedByScoreNonIncreasing | backend/services/resume_service.py:152 | the sorted list is in descending score order |
| Resume.SortedByScoreStable | backend/services/resume_service.py:152 | for every score, the records with that score keep their input order |
| Resume.InsertAt | backend/services/resume_service.py:152 | swapping one record left past lower scores performs one insertion step on the array prefix and leaves the rest unchanged |
| Resume.SortByScore | backend/services/resume_service.py:152 | the in-place sort leaves the array holding the stable descending order of its old contents |
| Resume.WithRanks | backend/services/resume_service.py:155-156 | the record at position i gets rank i + 1, nothing else changes |
| Resume.AssignRanks | backend/services/resume_service.py:155-156 | the rank loop leaves the array holding the ranked records |
| Resume.Ranking | backend/services/resume_service.py:139-158 | the result of ranking has one record per item, and the record at position i has rank i + 1 |
| Resume.RankResumes | backend/services/resume_service.py:139-158 | the new results array holds the screened records, sorted and ranked |
| Resume.RankingProperties | backend/services/resume_service.py:139-158 | one record per item; rank i + 1 at position i; scores do not increase down the list; without ranks, a permutation of the screenings; equal scores keep item order |
| Resume.RanksRemoved | backend/services/resume_service.py:155-156 | the rank loop changes only the rank field of each record |
| Resume.ThreePatternCaptures | backend/services/resume_service.py:71-73 | the captures of the three-pattern table are the captures of each pattern in order, concatenated |
| Resume.PythonAwsDockerSkills | backend/services/resume_service.py:42-49 | "5 years experience in python, aws, docker" yields python, aws and docker |
| Resume.PythonAwsDockerExample | backend/services/resume_service.py:105-118 | with the first experience pattern capturing 5, that resume screens to 5 years and those three skills, and is at least recommended once its score reaches 50 |

## Left out

- The TextBlob sentiment model, `re.findall` and the TF-IDF vectorizer with cosine similarity are parameters, not implementations. Only the ranges of their results are assumed.
- Rounding (`round(x, 2)` and `round(x, 3)`) is not modelled: every score, ratio, polarity, percentage and average is the exact real value. Python floats are modelled as reals.
- FakeNews.DetectClickbait: the score is the unrounded sum capped at 100. The source rounds before capping. So the model's "clickbait exactly when the score exceeds 40" does not hold of the source at the boundary: a sum of 40.0042 is clickbait there, yet its rounded score is 40.0. The unused `?` count is not modelled.
- FakeNews.HateOf: the score and the reported polarity are not rounded. So the model's "hate speech exactly when the score exceeds 50" does not hold of the source at the boundary: one match with polarity -0.3334 sums to 50.002, which is hate speech there, yet its rounded score is 50.0.
- FakeNews.CheckCredibility: the score is not rounded.
- FakeNews.Analyze: the probability is computed from unrounded sub-scores and is not rounded itself. In the source, the verdict uses the probability before rounding but after the sub-scores were rounded, so it can differ at the boundary of 60.
- Resume.MatchScore: the score is not rounded to two decimals. In the source a similarity such as 0.699996 rounds up to 70.0 and reaches the higher tier.
- Sentiment.AnalyzeText: polarity, subjectivity and confidence are not rounded to three decimals.
- Sentiment.GetStatistics: percentages and averages are not rounded. The records it reads are the model's results, not arbitrary dictionaries, so missing or mistyped keys are not modelled.
- Text.Lower: lower-casing, `isupper`, `strip` whitespace and the regular-expression `\d` cover ASCII only. Python applies the Unicode rules.
- Resume.SortByScore: an insertion sort replaces Python's built-in sort. Both give the only stable descending order, so the resulting list is the same.
- Resume.RankResumes: the results are an array of record values, not a list of shared dictionaries. Aliasing between the request and the results is not modelled.
- The `id` and `text` keys of a resume item are either missing or strings. A key present with a non-string value is not modelled.
- The web API routes, request and response schemas, configuration, application entry point and the front end are not part of this model.
