/** The `/estimate` route: a rough price for analysing one image, from its
    size and the model name in the request body. */
module CostEstimate {
  import opened Common
  import CostTracking

  /** The model assumed when the body names none. */
  const DefaultModel := "haiku"

  /** Output tokens the estimate assumes for every call. */
  const OutputTokens: int := 500

  /** USD per token, as the route prices them. */
  datatype Rates = Rates(input: real, output: real)

  /** The JSON body the route answers with. */
  datatype Estimate = Estimate(estimatedCost: real, model: string, estimatedTokens: int, currency: string)

  /** `Math.ceil` */
  function Ceil(x: real): (n: int)
    ensures n as real - 1.0 < x <= n as real
  {
    -((-x).Floor)
  }

  /** `Math.ceil(imageSize / 4) + 500`: a token per four bytes of image, plus
      the output. */
  function EstimatedTokens(imageSize: real): (t: int)
    ensures 4.0 * ((t - OutputTokens) as real - 1.0) < imageSize <= 4.0 * (t - OutputTokens) as real
    ensures imageSize >= 0.0 ==> t >= OutputTokens
    ensures imageSize > 0.0 ==> t > OutputTokens
  {
    Ceil(imageSize / 4.0) + OutputTokens
  }

  /** A larger image never gets fewer tokens. */
  lemma EstimatedTokensMonotone(a: real, b: real)
    requires a <= b
    ensures EstimatedTokens(a) <= EstimatedTokens(b)
  {
  }

  /** Haiku's prices for exactly "haiku", Sonnet's for every other name. */
  function RatesOf(model: string): Rates {
    if model == "haiku" then Rates(0.0008, 0.004) else Rates(0.003, 0.015)
  }

  /** The `/estimate` handler on a body with `imageSize` and an optional
      `model`. */
  function EstimateRoute(imageSize: real, model: Option<string>): (e: Estimate)
    ensures e.model == model.GetOr(DefaultModel) && e.currency == "USD"
    ensures e.estimatedTokens == EstimatedTokens(imageSize)
  {
    var name := model.GetOr(DefaultModel);
    var tokens := EstimatedTokens(imageSize);
    var rates := RatesOf(name);
    Estimate(tokens as real * rates.input + OutputTokens as real * rates.output, name, tokens, "USD")
  }

  /** A body without a model is priced as "haiku"; a model other than exactly
      "haiku" is priced as Sonnet; for an image of any size Haiku's estimate
      is the cheaper one, and a larger image never costs less. */
  lemma EstimateRouteProperties(imageSize: real, larger: real, model: string)
    requires 0.0 <= imageSize <= larger
    ensures EstimateRoute(imageSize, None) == EstimateRoute(imageSize, Some("haiku"))
    ensures model != "haiku" ==> EstimateRoute(imageSize, Some(model)).estimatedCost
                                 == EstimateRoute(imageSize, Some("sonnet")).estimatedCost
    ensures EstimateRoute(imageSize, Some("haiku")).estimatedCost >= 2.4
    ensures model != "haiku" ==> EstimateRoute(imageSize, Some("haiku")).estimatedCost
                                 < EstimateRoute(imageSize, Some(model)).estimatedCost
    ensures EstimateRoute(imageSize, Some(model)).estimatedCost <= EstimateRoute(larger, Some(model)).estimatedCost
  {
    EstimatedTokensMonotone(imageSize, larger);
    var t := EstimatedTokens(imageSize);
    var u := EstimatedTokens(larger);
    assert t as real * 0.0008 <= u as real * 0.0008;
    assert t as real * 0.003 <= u as real * 0.003;
    assert t as real * 0.0008 < t as real * 0.003;
  }

  /** The tracker's per-million prices for the model the route picks. */
  function TrackerRates(model: string): CostTracking.Rates {
    if model == "haiku" then CostTracking.HaikuRates else CostTracking.SonnetRates
  }

  /** What the estimate evidently means to predict: the tracker's bill for a
      call reading the image's tokens and writing the assumed output. */
  function IntendedCost(imageSize: real, model: string): (c: real)
    requires imageSize > -4.0
    ensures c >= 0.0
  {
    CostTracking.CallCost(Ceil(imageSize / 4.0), OutputTokens, TrackerRates(model))
  }

  /** For the two configured models the corrected estimate is exactly what
      the tracker charges for such a call, and it never falls with the image
      size. */
  lemma IntendedCostMatchesTracker(imageSize: real, larger: real, model: string)
    requires -4.0 < imageSize <= larger
    ensures model == "haiku" || model == "sonnet" ==>
      IntendedCost(imageSize, model)
        == CostTracking.CallCost(Ceil(imageSize / 4.0), OutputTokens, CostTracking.RatesFor(model))
    ensures IntendedCost(imageSize, model) <= IntendedCost(larger, model)
  {
    var t := Ceil(imageSize / 4.0);
    var u := Ceil(larger / 4.0);
    var r := TrackerRates(model);
    assert t <= u;
    assert (t as real / 1000000.0) * r.input <= (u as real / 1000000.0) * r.input;
  }

  /** The route's per-token prices are the tracker's per-million prices
      divided by a thousand, so as written the estimate is a thousand times
      the tracker's bill, plus the output tokens priced once more at the
      input rate. */
  lemma EstimateOverstates(imageSize: real, model: string)
    requires imageSize > -4.0
    ensures RatesOf(model).input * 1000.0 == TrackerRates(model).input
    ensures RatesOf(model).output * 1000.0 == TrackerRates(model).output
    ensures EstimateRoute(imageSize, Some(model)).estimatedCost
            == 1000.0 * IntendedCost(imageSize, model) + OutputTokens as real * RatesOf(model).input
  {
  }

  /** An empty Haiku image: the route answers 2.4 USD where the tracker
      would bill 0.002 USD. */
  lemma EstimateOverstatesExample()
    ensures EstimateRoute(0.0, None).estimatedCost == 2.4
    ensures IntendedCost(0.0, DefaultModel) == 0.002
  {
  }
}
