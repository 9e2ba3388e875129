/** Horizon return and rate-shock scenarios of a bond fund, after the
    `PDFDataExtractor` class: a hedge table built at construction time
    (per-currency hedge cost and hedge weight) and the closed-form
    arithmetic over it. Floats are modelled as exact reals. */
module PortfolioSummaryReport {

  /** The nested dictionary `b_init`: outer keys "Hedge Cost" and "Weight",
      inner keys the currency codes. */
  type HedgeTable = map<string, map<string, real>>

  const HedgeCostKey: string := "Hedge Cost"
  const WeightKey: string := "Weight"

  const Usd: string := "USD"
  const Gbp: string := "GBP"
  const Eur: string := "EUR"

  /** The currencies the weighted hedge cost runs over. */
  const Currencies: seq<string> := [Usd, Gbp, Eur]

  const HzKey: string := "hz return"
  const Up100Key: string := "100bp up"
  const Up50Key: string := "50bp up"
  const Down50Key: string := "50bp down"
  const Down100Key: string := "100bp down"
  const ScenarioKeys: set<string> := {Up100Key, Up50Key, Down50Key, Down100Key}

  const ModifiedDurationKey: string := "Modified duration"
  const EffectiveYieldKey: string := "Effective Yield"

  /** Constructor defaults of the hedge costs. */
  const DefaultUsdCost: real := 0.025
  const DefaultGbpCost: real := 0.02
  const DefaultEurCost: real := 0.0

  predicate HasCurrencies(m: map<string, real>) {
    Usd in m && Gbp in m && Eur in m
  }

  /** The lookups `calculate_hz` performs cannot fail on this table. */
  predicate WellFormed(b: HedgeTable) {
    HedgeCostKey in b && WeightKey in b &&
    HasCurrencies(b[HedgeCostKey]) && HasCurrencies(b[WeightKey])
  }

  function PerCurrency(usd: real, gbp: real, eur: real): map<string, real> {
    map[Usd := usd, Gbp := gbp, Eur := eur]
  }

  /** The table `_set_up` builds from the stored costs and weights. */
  function TableOf(usdCost: real, gbpCost: real, eurCost: real,
                   usdWeight: real, gbpWeight: real, eurWeight: real): HedgeTable
  {
    map[HedgeCostKey := PerCurrency(usdCost, gbpCost, eurCost),
        WeightKey := PerCurrency(usdWeight, gbpWeight, eurWeight)]
  }

  /** Sum of cost times weight over the given currencies: the reference
      definition of the weighted hedge cost. */
  function WeightedSum(cost: map<string, real>, weight: map<string, real>, cs: seq<string>): real
    requires forall c :: c in cs ==> c in cost && c in weight
  {
    if cs == [] then 0.0 else cost[cs[0]] * weight[cs[0]] + WeightedSum(cost, weight, cs[1..])
  }

  /** Over the three recognised currencies the weighted sum is the
      three-term expression `calculate_hz` writes out. */
  lemma {:induction false} WeightedSumOfCurrencies(cost: map<string, real>, weight: map<string, real>)
    requires HasCurrencies(cost) && HasCurrencies(weight)
    ensures WeightedSum(cost, weight, Currencies)
            == cost[Usd] * weight[Usd] + cost[Gbp] * weight[Gbp] + cost[Eur] * weight[Eur]
  {
    assert Currencies[1..] == [Gbp, Eur] && Currencies[1..][1..] == [Eur] && Currencies[1..][1..][1..] == [];
    calc {
      WeightedSum(cost, weight, Currencies);
      cost[Usd] * weight[Usd] + WeightedSum(cost, weight, [Gbp, Eur]);
      cost[Usd] * weight[Usd] + cost[Gbp] * weight[Gbp] + WeightedSum(cost, weight, [Eur]);
      cost[Usd] * weight[Usd] + cost[Gbp] * weight[Gbp] + cost[Eur] * weight[Eur] + WeightedSum(cost, weight, []);
    }
  }

  /** `calculate_hz`: effective yield plus the roll-up term minus the
      weighted hedge cost, under the single key "hz return". */
  function CalculateHz(b: HedgeTable, rul: real, yld: real, dur: real): (r: map<string, real>)
    requires WellFormed(b)
    ensures r.Keys == {HzKey}
    ensures r[HzKey] == yld + rul * (dur - 1.0) / 100000.0 - WeightedSum(b[HedgeCostKey], b[WeightKey], Currencies)
    ensures rul == 0.0 ==> r[HzKey] == yld - WeightedSum(b[HedgeCostKey], b[WeightKey], Currencies)
  {
    var effectiveYield := yld;
    var rulContribution := rul * (dur - 1.0) / 100000.0;
    var hedgeCost := b[HedgeCostKey][Usd] * b[WeightKey][Usd]
                   + b[HedgeCostKey][Gbp] * b[WeightKey][Gbp]
                   + b[HedgeCostKey][Eur] * b[WeightKey][Eur];
    WeightedSumOfCurrencies(b[HedgeCostKey], b[WeightKey]);
    map[HzKey := effectiveYield + rulContribution - hedgeCost]
  }

  /** `calculate_scenario`: four shocked returns. As written, the "50bp"
      entries move by dur/(100/2) = dur/50 and the "100bp" entries by
      dur/(100/1) = dur/100. */
  function CalculateScenario(hz: real, dur: real): (r: map<string, real>)
    ensures r.Keys == ScenarioKeys
    ensures r[Up100Key] == hz + dur / 100.0 && r[Down100Key] == hz - dur / 100.0
    ensures r[Up50Key] == hz + dur / 50.0 && r[Down50Key] == hz - dur / 50.0
    // each up/down pair is centred on hz
    ensures (r[Up100Key] + r[Down100Key]) / 2.0 == hz
    ensures (r[Up50Key] + r[Down50Key]) / 2.0 == hz
    // the "50bp" shift is twice the "100bp" shift
    ensures r[Up50Key] - hz == 2.0 * (r[Up100Key] - hz)
    ensures hz - r[Down50Key] == 2.0 * (hz - r[Down100Key])
    ensures dur > 0.0 ==> r[Up50Key] > r[Up100Key] > hz > r[Down100Key] > r[Down50Key]
    ensures dur < 0.0 ==> r[Up50Key] < r[Up100Key] < hz < r[Down100Key] < r[Down50Key]
    ensures dur == 0.0 ==> forall k :: k in r ==> r[k] == hz
  {
    var b: map<string, real> := map[];
    var b := b[Up100Key := hz + dur / (100.0 / 1.0)];
    var b := b[Up50Key := hz + dur / (100.0 / 2.0)];
    var b := b[Down50Key := hz - dur / (100.0 / 2.0)];
    var b := b[Down100Key := hz - dur / (100.0 / 1.0)];
    b
  }

  /** With the weights the constructor installs (all of the hedge in USD),
      the weighted hedge cost is the USD cost. */
  lemma DefaultWeightsCostUsd(usdCost: real, gbpCost: real, eurCost: real)
    ensures WellFormed(TableOf(usdCost, gbpCost, eurCost, 1.0, 0.0, 0.0))
    ensures var b := TableOf(usdCost, gbpCost, eurCost, 1.0, 0.0, 0.0);
            WeightedSum(b[HedgeCostKey], b[WeightKey], Currencies) == usdCost
  {
    var b := TableOf(usdCost, gbpCost, eurCost, 1.0, 0.0, 0.0);
    WeightedSumOfCurrencies(b[HedgeCostKey], b[WeightKey]);
  }

  /** Horizon return of a freshly constructed extractor: yield plus the
      roll-up term minus the USD hedge cost. */
  lemma DefaultHorizonReturn(usdCost: real, gbpCost: real, eurCost: real, rul: real, yld: real, dur: real)
    ensures WellFormed(TableOf(usdCost, gbpCost, eurCost, 1.0, 0.0, 0.0))
    ensures CalculateHz(TableOf(usdCost, gbpCost, eurCost, 1.0, 0.0, 0.0), rul, yld, dur)[HzKey]
            == yld + rul * (dur - 1.0) / 100000.0 - usdCost
  {
  }

  /** Worked example: yield 0.03, duration 5, no roll-up, USD cost 0.025
      and default weights give a horizon return of 0.005; the scenarios
      around hz = 0.03 with duration 5 are 0.08 for "100bp up" and
      0.03 - 5/50 = -0.07 for "50bp down". */
  lemma WorkedExample()
    ensures CalculateHz(TableOf(DefaultUsdCost, DefaultGbpCost, DefaultEurCost, 1.0, 0.0, 0.0), 0.0, 0.03, 5.0)[HzKey] == 0.005
    ensures CalculateScenario(0.03, 5.0)[Up100Key] == 0.08
    ensures CalculateScenario(0.03, 5.0)[Down50Key] == -0.07
  {
  }

  /** `PDFDataExtractor`: the hedge costs given at construction, the hedge
      weights `_retrieve_weight` installs, and the table `b_init` built
      from both. */
  class PdfDataExtractor {
    var usdCost: real
    var gbpCost: real
    var eurCost: real
    var usdWeight: real
    var gbpWeight: real
    var eurWeight: real
    var bInit: HedgeTable

    /** `b_init` agrees with the stored costs and weights. */
    ghost predicate Valid()
      reads this
    {
      bInit == TableOf(usdCost, gbpCost, eurCost, usdWeight, gbpWeight, eurWeight)
    }

    /** `__init__`: stores the costs and runs `_set_up`. */
    constructor (usdCost: real, gbpCost: real, eurCost: real)
      ensures Valid() && WellFormed(bInit)
      ensures this.usdCost == usdCost && this.gbpCost == gbpCost && this.eurCost == eurCost
      ensures usdWeight == 1.0 && gbpWeight == 0.0 && eurWeight == 0.0
      ensures bInit[HedgeCostKey] == PerCurrency(usdCost, gbpCost, eurCost)
      ensures bInit[WeightKey] == PerCurrency(1.0, 0.0, 0.0)
    {
      this.usdCost := usdCost;
      this.gbpCost := gbpCost;
      this.eurCost := eurCost;
      new;
      SetUp();
    }

    /** `__init__` with its default arguments. */
    constructor Default()
      ensures Valid() && WellFormed(bInit)
      ensures usdCost == DefaultUsdCost && gbpCost == DefaultGbpCost && eurCost == DefaultEurCost
      ensures usdWeight == 1.0 && gbpWeight == 0.0 && eurWeight == 0.0
    {
      usdCost := DefaultUsdCost;
      gbpCost := DefaultGbpCost;
      eurCost := DefaultEurCost;
      new;
      SetUp();
    }

    /** `_set_up`: rebuilds `b_init` from the costs and the retrieved
      weights, leaving the costs as they are. */
    method SetUp()
      modifies this
      ensures Valid()
      ensures usdCost == old(usdCost) && gbpCost == old(gbpCost) && eurCost == old(eurCost)
      ensures usdWeight == 1.0 && gbpWeight == 0.0 && eurWeight == 0.0
    {
      bInit := map[];
      var hedgeCost := map[Usd := usdCost, Gbp := gbpCost, Eur := eurCost];
      bInit := bInit[HedgeCostKey := hedgeCost];
      RetrieveWeight();
      var hedgeWeight := map[Usd := usdWeight, Gbp := gbpWeight, Eur := eurWeight];
      bInit := bInit[WeightKey := hedgeWeight];
    }

    /** `_retrieve_weight`: all of the hedge weight on USD. The fallback
      branch of the source cannot be reached (the guarded block only
      assigns constants). */
    method RetrieveWeight()
      modifies this`usdWeight, this`gbpWeight, this`eurWeight
      ensures usdWeight == 1.0 && gbpWeight == 0.0 && eurWeight == 0.0
    {
      usdWeight := 1.0;
      eurWeight := 0.0;
      gbpWeight := 0.0;
    }

    /** `main`, with the key figures handed in instead of read from a PDF:
      the horizon return, the four scenarios computed from that same
      horizon return and the key figures' modified duration, and the key
      figures themselves, merged left to right. */
    method RunReport(keyFigures: map<string, real>, rul: real := 0.0) returns (r: map<string, real>)
      requires WellFormed(bInit)
      requires EffectiveYieldKey in keyFigures && ModifiedDurationKey in keyFigures
      ensures r.Keys == {HzKey} + ScenarioKeys + keyFigures.Keys
      ensures forall k :: k in keyFigures ==> r[k] == keyFigures[k]
      ensures
        var yld, dur := keyFigures[EffectiveYieldKey], keyFigures[ModifiedDurationKey];
        var hz := yld + rul * (dur - 1.0) / 100000.0 - WeightedSum(bInit[HedgeCostKey], bInit[WeightKey], Currencies);
        (HzKey !in keyFigures ==> r[HzKey] == hz) &&
        (Up100Key !in keyFigures ==> r[Up100Key] == hz + dur / 100.0) &&
        (Up50Key !in keyFigures ==> r[Up50Key] == hz + dur / 50.0) &&
        (Down50Key !in keyFigures ==> r[Down50Key] == hz - dur / 50.0) &&
        (Down100Key !in keyFigures ==> r[Down100Key] == hz - dur / 100.0)
    {
      var hz := CalculateHz(bInit, rul, keyFigures[EffectiveYieldKey], keyFigures[ModifiedDurationKey]);
      var scenario := CalculateScenario(hz[HzKey], keyFigures[ModifiedDurationKey]);
      r := hz + scenario + keyFigures;
    }
  }
}
