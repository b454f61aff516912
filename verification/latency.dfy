/** Classification of the gateway round-trip latency, in whole milliseconds,
    into the four quality buckets and the two embed colours of `ping`. */
module Latency {
  import opened Colours

  datatype Bucket = Excellent | Good | Average | Poor

  /** Position of a bucket from best (0) to worst (3). */
  function Rank(b: Bucket): nat
  {
    match b
    case Excellent => 0
    case Good => 1
    case Average => 2
    case Poor => 3
  }

  /** The latency bucket: each boundary is closed below and open above. */
  function Classify(ms: int): (b: Bucket)
    ensures b == Excellent <==> ms < 100
    ensures b == Good <==> 100 <= ms < 200
    ensures b == Average <==> 200 <= ms < 300
    ensures b == Poor <==> 300 <= ms
  {
    if ms < 100 then Excellent
    else if ms < 200 then Good
    else if ms < 300 then Average
    else Poor
  }

  /** A larger latency never yields a better bucket. */
  lemma ClassifyMonotone(a: int, b: int)
    requires a <= b
    ensures Rank(Classify(a)) <= Rank(Classify(b))
  {
  }

  /** The bucket on each side of the 100, 200 and 300 ms boundaries of the
      if/elif chain. */
  lemma ClassifyBoundaries()
    ensures Classify(99) == Excellent && Classify(100) == Good
    ensures Classify(199) == Good && Classify(200) == Average
    ensures Classify(299) == Average && Classify(300) == Poor
  {
  }

  /** The colour of the status report: green below 200 ms, red otherwise. */
  function ReportColour(ms: int): (c: int)
    ensures c == Green || c == Red
    ensures c == Green <==> ms < 200
  {
    if ms < 200 then Green else Red
  }

  /** The report is green exactly when the bucket is Excellent or Good, so
      the colour never contradicts the bucket. */
  lemma ColourMatchesBucket(ms: int)
    ensures ReportColour(ms) == Green <==> Classify(ms) in {Excellent, Good}
    ensures ReportColour(ms) == Red <==> Rank(Classify(ms)) >= 2
  {
  }
}
