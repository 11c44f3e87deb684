/** The library calls the three services make and that this model does not
    re-implement: the TextBlob sentiment model, Python's regular-expression search, and
    the TF-IDF vectorizer with cosine similarity. Each becomes a parameter of
    the operations that use it; these types give the ranges of its results. */
module Externals {

  type Polarity = r: real | -1.0 <= r <= 1.0
  type UnitInterval = r: real | 0.0 <= r <= 1.0

  /** The sentiment TextBlob assigns to a text: polarity and subjectivity. */
  datatype BlobSentiment = BlobSentiment(polarity: Polarity, subjectivity: UnitInterval)
  type SentimentModel = string -> BlobSentiment

  /** The number of matches of a regular expression in a text, given the
      pattern and the text. */
  type MatchCounter = (string, string) -> nat

  /** The numbers captured by every match of a regular expression whose
      only group is a run of digits, so each is a non-negative integer. */
  type IntCaptures = (string, string) -> seq<nat>

  /** Fitting the vectorizer on the job description and the resume and taking
      the cosine similarity of the two rows: either a value in [0, 1] or the
      exception the service catches (for one, a vocabulary left empty by
      stop-word removal). */
  datatype Similarity = Cosine(value: UnitInterval) | VectorizerError
  type Vectorizer = (string, string) -> Similarity
}
