/** Risk tiering of a fraud probability: the `if/elif/else` that both the
    check flow and the initiate flow run on the classifier's output. */
module Risk {

  /** The three risk tiers a transaction can be put in. */
  datatype Tier = Low | Medium | High

  /** Strictly above this probability a transaction is HIGH risk. */
  const HighThreshold: real := 0.8
  /** Strictly above this probability (and not HIGH) it is MEDIUM risk. */
  const MediumThreshold: real := 0.5

  /** Maps a probability to its tier. Total and deterministic: each tier is
      characterised exactly by the interval of probabilities it covers. */
  function Classify(p: real): (t: Tier)
    ensures t == High <==> p > HighThreshold
    ensures t == Medium <==> MediumThreshold < p <= HighThreshold
    ensures t == Low <==> p <= MediumThreshold
  {
    if p > HighThreshold then High
    else if p > MediumThreshold then Medium
    else Low
  }

  /** Orders the tiers from least to most risky. */
  function Rank(t: Tier): nat
  {
    match t
    case Low => 0
    case Medium => 1
    case High => 2
  }

  /** A larger probability never yields a less risky tier. */
  lemma ClassifyMonotone(p: real, q: real)
    requires p <= q
    ensures Rank(Classify(p)) <= Rank(Classify(q))
  {
  }

  /** The thresholds are strict: 0.8 is still MEDIUM and 0.5 is still LOW. */
  lemma ClassifyBoundaries()
    ensures Classify(0.8) == Medium
    ensures Classify(0.5) == Low
    ensures Classify(0.0) == Low && Classify(1.0) == High
  {
  }
}
