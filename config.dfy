/** The constants the scoring rules depend on (config.py). */
module Config {
  import opened Dicts

  // Indicator look-back periods, in bars.
  const RsiPeriod: nat := 14
  const AdxPeriod: nat := 14
  const CmfPeriod: nat := 20
  const MansfieldRsPeriod: nat := 250

  /** The least history the historical replayers ask of a peer. */
  const MinDataPoints: nat := 50

  /** The name of the benchmark entity, which is never ranked. */
  const Benchmark: string := "Nifty 50"

  /** Decimal places the display layer rounds each field to. */
  const DecimalPlaces: Dict<nat> := [
    ("RSI", 1), ("ADX", 1), ("ADX_Z", 1), ("DI_Spread", 1), ("CMF", 2),
    ("RS_Rating", 1), ("Mansfield_RS", 1), ("Momentum_Score", 1), ("Reversal_Score", 1)]

  const MomentumFields: seq<string> := ["ADX_Z", "RS_Rating", "RSI", "DI_Spread"]
  const ReversalFields: seq<string> := ["RS_Rating", "CMF", "RSI", "ADX_Z"]

  /** Percentage weights of the momentum score, by indicator. */
  const DefaultMomentumWeights: Dict<real> :=
    [("ADX_Z", 20.0), ("RS_Rating", 40.0), ("RSI", 30.0), ("DI_Spread", 10.0)]

  /** Percentage weights of the reversal score, by indicator. */
  const DefaultReversalWeights: Dict<real> :=
    [("RS_Rating", 40.0), ("CMF", 40.0), ("RSI", 10.0), ("ADX_Z", 10.0)]

  /** One tier of the reversal classifier: RSI and ADX Z-score below, CMF above. */
  datatype Tier = Tier(rsi: real, adxZ: real, cmf: real)

  const ReversalBuyDiv: Tier := Tier(40.0, -0.5, 0.1)
  const ReversalWatch: Tier := Tier(50.0, 0.5, 0.0)

  predicate Meets(t: Tier, rsi: real, adxZ: real, cmf: real) {
    rsi < t.rsi && adxZ < t.adxZ && cmf > t.cmf
  }

  /** Both default weight tables cover exactly their four indicators and sum to 100. */
  lemma DefaultWeightsSumTo100()
    ensures Total(DefaultMomentumWeights) == 100.0 && Total(DefaultReversalWeights) == 100.0
    ensures forall f :: f in MomentumFields ==> HasKey(DefaultMomentumWeights, f)
    ensures forall f :: f in ReversalFields ==> HasKey(DefaultReversalWeights, f)
  {
    assert DefaultMomentumWeights[0].0 == "ADX_Z" && DefaultMomentumWeights[1].0 == "RS_Rating";
    assert DefaultMomentumWeights[2].0 == "RSI" && DefaultMomentumWeights[3].0 == "DI_Spread";
    assert DefaultReversalWeights[0].0 == "RS_Rating" && DefaultReversalWeights[1].0 == "CMF";
    assert DefaultReversalWeights[2].0 == "RSI" && DefaultReversalWeights[3].0 == "ADX_Z";
  }

  /** The BUY_DIV tier lies inside the Watch tier: every triple meeting BUY_DIV meets Watch. */
  lemma BuyDivNestedInWatch(rsi: real, adxZ: real, cmf: real)
    ensures Meets(ReversalBuyDiv, rsi, adxZ, cmf) ==> Meets(ReversalWatch, rsi, adxZ, cmf)
    ensures ReversalBuyDiv.rsi < ReversalWatch.rsi && ReversalBuyDiv.adxZ < ReversalWatch.adxZ
    ensures ReversalBuyDiv.cmf > ReversalWatch.cmf
  {
  }

  /** CMF is shown with two decimals, every other listed field with one. */
  lemma DecimalPlacesByField()
    ensures Get(DecimalPlaces, "CMF", 0) == 2
    ensures Get(DecimalPlaces, "RSI", 0) == Get(DecimalPlaces, "ADX", 0) == 1
    ensures Get(DecimalPlaces, "ADX_Z", 0) == Get(DecimalPlaces, "DI_Spread", 0) == 1
    ensures Get(DecimalPlaces, "RS_Rating", 0) == Get(DecimalPlaces, "Mansfield_RS", 0) == 1
    ensures Get(DecimalPlaces, "Momentum_Score", 0) == Get(DecimalPlaces, "Reversal_Score", 0) == 1
  {
  }

  /** The indicator periods, and the history the historical replayers require. */
  lemma IndicatorPeriods()
    ensures RsiPeriod == AdxPeriod == 14 && CmfPeriod == 20 && MansfieldRsPeriod == 250
    ensures MinDataPoints == 50
  {
  }
}
