/**
 * The pricing admin page: base prices per sport and the five price multipliers,
 * edited by copying the loaded record with one field replaced.
 */
module PricingAdmin {
  import opened Wrappers
  import opened Strings

  datatype Sport = Cricket | Football
  datatype MultiplierKey = PeakHours | OffPeak | Weekend | HighDemand | RainForecast

  /** `None` is the NaN that `parseInt` / `parseFloat` give for an empty or non-numeric input. */
  datatype BasePrices = BasePrices(cricket: Option<int>, football: Option<int>)
  datatype Multipliers = Multipliers(
    peakHours: Option<real>, offPeak: Option<real>, weekend: Option<real>,
    highDemand: Option<real>, rainForecast: Option<real>)
  datatype PricingData = PricingData(basePrices: BasePrices, multipliers: Multipliers)

  /** The record `get_pricing` serves. */
  const ServedPricing: PricingData :=
    PricingData(BasePrices(Some(2000), Some(1800)),
                Multipliers(Some(1.3), Some(0.9), Some(1.2), Some(1.4), Some(0.8)))

  function BasePriceOf(b: BasePrices, s: Sport): Option<int> {
    match s
    case Cricket => b.cricket
    case Football => b.football
  }

  function MultiplierOf(m: Multipliers, k: MultiplierKey): Option<real> {
    match k
    case PeakHours => m.peakHours
    case OffPeak => m.offPeak
    case Weekend => m.weekend
    case HighDemand => m.highDemand
    case RainForecast => m.rainForecast
  }

  /** `updateBasePrice`: nothing happens before the record is loaded; otherwise only `base_prices[sport]` changes. */
  function UpdateBasePrice(pricing: Option<PricingData>, sport: Sport, value: Option<int>): (r: Option<PricingData>)
    ensures pricing.None? <==> r.None?
    ensures r.Some? ==> BasePriceOf(r.value.basePrices, sport) == value
    ensures r.Some? ==> forall s :: s != sport ==> BasePriceOf(r.value.basePrices, s) == BasePriceOf(pricing.value.basePrices, s)
    ensures r.Some? ==> r.value.multipliers == pricing.value.multipliers
  {
    match pricing
    case None => None
    case Some(p) =>
      var b := match sport
        case Cricket => p.basePrices.(cricket := value)
        case Football => p.basePrices.(football := value);
      Some(p.(basePrices := b))
  }

  /** `updateMultiplier`: nothing happens before the record is loaded; otherwise only `multipliers[key]` changes. */
  function UpdateMultiplier(pricing: Option<PricingData>, key: MultiplierKey, value: Option<real>): (r: Option<PricingData>)
    ensures pricing.None? <==> r.None?
    ensures r.Some? ==> MultiplierOf(r.value.multipliers, key) == value
    ensures r.Some? ==> forall k :: k != key ==> MultiplierOf(r.value.multipliers, k) == MultiplierOf(pricing.value.multipliers, k)
    ensures r.Some? ==> r.value.basePrices == pricing.value.basePrices
  {
    match pricing
    case None => None
    case Some(p) =>
      var m := match key
        case PeakHours => p.multipliers.(peakHours := value)
        case OffPeak => p.multipliers.(offPeak := value)
        case Weekend => p.multipliers.(weekend := value)
        case HighDemand => p.multipliers.(highDemand := value)
        case RainForecast => p.multipliers.(rainForecast := value);
      Some(p.(multipliers := m))
  }

  /** The base-price inputs' `onChange`: `updateBasePrice(sport, parseInt(text))`. */
  function OnBasePriceInput(pricing: Option<PricingData>, sport: Sport, text: string): (r: Option<PricingData>)
    ensures pricing.None? <==> r.None?
    ensures r.Some? ==> BasePriceOf(r.value.basePrices, sport) == ParseInt(text)
    ensures r.Some? ==> forall s :: s != sport ==> BasePriceOf(r.value.basePrices, s) == BasePriceOf(pricing.value.basePrices, s)
    ensures r.Some? ==> r.value.multipliers == pricing.value.multipliers
  {
    UpdateBasePrice(pricing, sport, ParseInt(text))
  }

  /** Typing a whole number into a base-price field stores that number for that sport. */
  lemma TypedBasePrice(p: PricingData, sport: Sport, n: int)
    ensures var r := OnBasePriceInput(Some(p), sport, IntToString(n));
      r.Some? && BasePriceOf(r.value.basePrices, sport) == Some(n)
  {
    ParseIntToString(n);
  }

  /** Of two edits of the same base price the later one wins; edits of different sports commute. */
  lemma BasePriceEditsCompose(p: Option<PricingData>, s: Sport, t: Sport, v: Option<int>, w: Option<int>)
    ensures s == t ==> UpdateBasePrice(UpdateBasePrice(p, s, v), t, w) == UpdateBasePrice(p, t, w)
    ensures s != t ==> UpdateBasePrice(UpdateBasePrice(p, s, v), t, w) == UpdateBasePrice(UpdateBasePrice(p, t, w), s, v)
  {
  }

  /** Of two edits of the same multiplier the later one wins; edits of different multipliers commute. */
  lemma MultiplierEditsCompose(p: Option<PricingData>, j: MultiplierKey, k: MultiplierKey, v: Option<real>, w: Option<real>)
    ensures j == k ==> UpdateMultiplier(UpdateMultiplier(p, j, v), k, w) == UpdateMultiplier(p, k, w)
    ensures j != k ==> UpdateMultiplier(UpdateMultiplier(p, j, v), k, w) == UpdateMultiplier(UpdateMultiplier(p, k, w), j, v)
  {
  }
}
