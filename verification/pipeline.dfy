/** The two-tier screening decision (app.py lines 47-71): the edge model's
    fraud probability is routed three ways, and the ambiguous middle band is
    forwarded to the simulated quantum tier, which always blocks. */
module Pipeline {
  import Features

  /** A fraud probability as `predict_proba` reports it. */
  type Probability = p: real | 0.0 <= p <= 1.0

  /** The float the Python literal `0.3` denotes: the binary64 number
      nearest to 3/10, which lies just below it (5404319552844595 / 2^54). */
  const LowThreshold: real := 5404319552844595.0 / 18014398509481984.0

  /** The float the Python literal `0.9` denotes: the binary64 number
      nearest to 9/10, which lies just above it (8106479329266893 / 2^53). */
  const HighThreshold: real := 8106479329266893.0 / 9007199254740992.0

  /** The terminal outcome reported for a transaction. */
  datatype Verdict = Approved | Blocked

  /** The tiers a transaction passes through. */
  datatype Stage = Edge | Quantum

  /** The branch the edge tier takes on a probability. */
  datatype Route = Approve | Block | Forward

  /** What the pipeline reports: the verdict, the tiers visited in order,
      and the edge probability that decided it. */
  datatype Decision = Decision(verdict: Verdict, stages: seq<Stage>, edgeProbability: Probability)

  /** The if / elif / else on the edge probability. Every probability takes
      exactly one branch: approve strictly below the low threshold, block
      strictly above the high one, forward everything in between with both
      boundaries included. */
  function RouteOf(p: Probability): (r: Route)
    ensures r == Approve <==> p < LowThreshold
    ensures r == Block <==> p > HighThreshold
    ensures r == Forward <==> LowThreshold <= p <= HighThreshold
  {
    if p < LowThreshold then Approve
    else if p > HighThreshold then Block
    else Forward
  }

  /** Screen one transaction whose edge probability is `p`. The quantum tier
      is visited exactly when the edge tier forwards, and then exactly once
      and after the edge tier; the verdict is Approved exactly when `p` is
      below the low threshold. The simulated quantum tier, once engaged,
      always ends in a block: the app's fixed policy. */
  function Decide(p: Probability): (d: Decision)
    ensures d.edgeProbability == p
    ensures d.stages == [Edge] || d.stages == [Edge, Quantum]
    ensures Quantum in d.stages <==> LowThreshold <= p <= HighThreshold
    ensures d.verdict == Approved <==> p < LowThreshold
    ensures d.verdict == Blocked <==> LowThreshold <= p
    ensures Quantum in d.stages ==> d.verdict == Blocked
  {
    match RouteOf(p)
    case Approve => Decision(Approved, [Edge], p)
    case Block => Decision(Blocked, [Edge], p)
    case Forward => Decision(Blocked, [Edge, Quantum], p)
  }

  /** A higher probability never turns a block into an approval. */
  lemma BlockMonotone(p: Probability, q: Probability)
    requires p <= q
    requires Decide(p).verdict == Blocked
    ensures Decide(q).verdict == Blocked
  {
  }

  /** The whole transaction: build the feature vector from the sliders,
      score it with the edge model (an opaque function here), and decide. */
  function Screen(s: Features.Sliders, edgeModel: Features.FeatureVector -> Probability)
    : (d: Decision)
    ensures d.edgeProbability == edgeModel(Features.Assemble(s))
    ensures d.stages == [Edge] || d.stages == [Edge, Quantum]
    ensures d.verdict == Approved <==> edgeModel(Features.Assemble(s)) < LowThreshold
    ensures Quantum in d.stages <==>
      LowThreshold <= edgeModel(Features.Assemble(s)) <= HighThreshold
  {
    Decide(edgeModel(Features.Assemble(s)))
  }
}
