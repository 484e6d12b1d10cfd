/**
 * The Electricity Maps adapter: the five-band carbon-intensity classifier,
 * the two zone-name tables, the carbon-footprint formula, and the four
 * `fetch*` wrappers with the mock data they fall back to.
 */
module ElectricityMap {
  import opened Common
  import opened Js
  import Text

  // ---------------------------------------------------------------------------
  // Carbon levels

  /** The five bands `getCarbonLevel` returns, cleanest first. */
  datatype CarbonLevel = VeryLow | Low | Medium | High | VeryHigh {
    /** Position in the scale, 0 for Very Low to 4 for Very High. */
    function Rank(): nat {
      match this
      case VeryLow => 0
      case Low => 1
      case Medium => 2
      case High => 3
      case VeryHigh => 4
    }
    function Label(): string {
      match this
      case VeryLow => "Very Low"
      case Low => "Low"
      case Medium => "Medium"
      case High => "High"
      case VeryHigh => "Very High"
    }
    function Color(): string {
      match this
      case VeryLow => "#22c55e"
      case Low => "#84cc16"
      case Medium => "#f59e0b"
      case High => "#ef4444"
      case VeryHigh => "#991b1b"
    }
    function Icon(): string {
      match this
      case VeryLow => "\U{1F7E2}"
      case Low => "\U{1F7E1}"
      case Medium => "\U{1F7E0}"
      case High => "\U{1F534}"
      case VeryHigh => "\U{26AB}"
    }
    function Description(): string {
      match this
      case VeryLow => "Excellent - Very clean energy"
      case Low => "Good - Mostly clean energy"
      case Medium => "Moderate - Mixed energy sources"
      case High => "Poor - High carbon footprint"
      case VeryHigh => "Critical - Very high emissions"
    }
  }

  /** `getCarbonLevel` on a number of gCO2eq/kWh: bands below 100, 200, 400 and 600, then Very High. */
  function LevelOf(intensity: real): (l: CarbonLevel)
    ensures l == VeryLow <==> intensity < 100.0
    ensures l == Low <==> 100.0 <= intensity < 200.0
    ensures l == Medium <==> 200.0 <= intensity < 400.0
    ensures l == High <==> 400.0 <= intensity < 600.0
    ensures l == VeryHigh <==> 600.0 <= intensity
  {
    if intensity < 100.0 then VeryLow
    else if intensity < 200.0 then Low
    else if intensity < 400.0 then Medium
    else if intensity < 600.0 then High
    else VeryHigh
  }

  /**
   * `getCarbonLevel` on any value: `intensity < 100` converts the value with
   * ToNumber, so numeric text and one-element arrays are banded like the
   * number they denote; every comparison with NaN is false, so NaN falls
   * through to Very High, as does +Infinity, while -Infinity is below 100.
   */
  function GetCarbonLevel(intensity: JsValue): (l: CarbonLevel)
    ensures ToNumber(intensity).Num? ==> l == LevelOf(ToNumber(intensity).n)
    ensures ToNumber(intensity).NaN? ==> l == VeryHigh
    ensures ToNumber(intensity).Infinity? ==> (l == VeryLow <==> ToNumber(intensity).negative)
    ensures ToNumber(intensity).Infinity? ==> (l == VeryHigh <==> !ToNumber(intensity).negative)
  {
    match ToNumber(intensity)
    case Num(x) => LevelOf(x)
    case Infinity(negative) => if negative then VeryLow else VeryHigh
    case NaN => VeryHigh
  }

  /** An intensity sent as decimal text, such as "50", gets the band of its number. */
  lemma CarbonLevelOfText(n: nat)
    ensures GetCarbonLevel(Str(Text.NatToString(n))) == LevelOf(n as real)
    ensures GetCarbonLevel(Arr([Str(Text.NatToString(n))])) == LevelOf(n as real)
  {
    Js.StringToNumberOfNat(n);
  }

  /** A higher intensity never gets a cleaner band. */
  lemma {:induction false} LevelMonotone(a: real, b: real)
    requires a <= b
    ensures LevelOf(a).Rank() <= LevelOf(b).Rank()
  {
  }

  /** Each threshold itself belongs to the band above it. */
  lemma ThresholdsGoUp()
    ensures LevelOf(100.0) == Low && LevelOf(200.0) == Medium
    ensures LevelOf(400.0) == High && LevelOf(600.0) == VeryHigh
  {
  }

  // ---------------------------------------------------------------------------
  // Zones

  /** `SWEDISH_ZONES`, in declaration order. */
  const SWEDISH_ZONES: seq<(string, string)> := [
    ("SE", "Sweden (National)"),
    ("SE-1", "Northern Sweden"),
    ("SE-2", "Central Sweden"),
    ("SE-3", "Southern Sweden"),
    ("SE-4", "Malmö area")
  ]

  /** `EUROPEAN_ZONES`, in declaration order. */
  const EUROPEAN_ZONES: seq<(string, string)> := [
    ("SE", "Sweden"), ("NO", "Norway"), ("DK", "Denmark"), ("FI", "Finland"), ("DE", "Germany"),
    ("PL", "Poland"), ("FR", "France"), ("GB", "Great Britain"), ("NL", "Netherlands"), ("BE", "Belgium")
  ]

  /** `table[code] || fallback`: the entry when it exists and is not empty. */
  function NameOr(table: seq<(string, string)>, code: string, fallback: string): string {
    match Lookup(table, code)
    case Some(name) => if name != "" then name else fallback
    case None => fallback
  }

  /** `getZoneName`: the Swedish table first, then the European one, then the code itself. */
  function GetZoneName(code: string): string {
    NameOr(SWEDISH_ZONES, code, NameOr(EUROPEAN_ZONES, code, code))
  }

  predicate NonEmptyNames(table: seq<(string, string)>) {
    forall i :: 0 <= i < |table| ==> table[i].1 != ""
  }

  /** The precedence of `getZoneName`: a Swedish entry wins, a European entry comes next, the code comes last. */
  lemma ZoneNamePrecedence(code: string)
    ensures Lookup(SWEDISH_ZONES, code).Some? ==> GetZoneName(code) == Lookup(SWEDISH_ZONES, code).value
    ensures Lookup(SWEDISH_ZONES, code).None? && Lookup(EUROPEAN_ZONES, code).Some? ==>
              GetZoneName(code) == Lookup(EUROPEAN_ZONES, code).value
    ensures Lookup(SWEDISH_ZONES, code).None? && Lookup(EUROPEAN_ZONES, code).None? ==> GetZoneName(code) == code
  {
    assert NonEmptyNames(SWEDISH_ZONES) && NonEmptyNames(EUROPEAN_ZONES);
  }

  /** "SE" is in both tables, and the Swedish name wins. */
  lemma NationalSwedenWins()
    ensures Lookup(EUROPEAN_ZONES, "SE") == Some("Sweden")
    ensures GetZoneName("SE") == "Sweden (National)"
  {
  }

  datatype ZoneInfo = ZoneInfo(code: string, name: string)

  /** `getAllSwedishZones`: every entry of `SWEDISH_ZONES` in declaration order; each name is what `getZoneName` gives its code. */
  function GetAllSwedishZones(): (r: seq<ZoneInfo>)
    ensures |r| == |SWEDISH_ZONES|
    ensures forall i :: 0 <= i < |r| ==> r[i] == ZoneInfo(SWEDISH_ZONES[i].0, SWEDISH_ZONES[i].1)
  {
    seq(|SWEDISH_ZONES|, i requires 0 <= i < |SWEDISH_ZONES| => ZoneInfo(SWEDISH_ZONES[i].0, SWEDISH_ZONES[i].1))
  }

  lemma SwedishZonesNamed(i: nat)
    requires i < |SWEDISH_ZONES|
    ensures GetZoneName(GetAllSwedishZones()[i].code) == GetAllSwedishZones()[i].name
  {
    assert UniqueKeys(SWEDISH_ZONES);
    LookupFirst(SWEDISH_ZONES, i);
  }

  // ---------------------------------------------------------------------------
  // Footprint

  /** `calculateCarbonFootprint`: kWh times gCO2eq/kWh, in kilograms. */
  function CalculateCarbonFootprint(energyConsumption: real, carbonIntensity: real): real {
    (energyConsumption * carbonIntensity) / 1000.0
  }

  /** No consumption or a carbon-free source gives no footprint; the footprint is linear in each argument. */
  lemma FootprintLaws(e: real, e2: real, c: real, c2: real, k: real)
    ensures CalculateCarbonFootprint(0.0, c) == 0.0 && CalculateCarbonFootprint(e, 0.0) == 0.0
    ensures CalculateCarbonFootprint(e + e2, c) == CalculateCarbonFootprint(e, c) + CalculateCarbonFootprint(e2, c)
    ensures CalculateCarbonFootprint(e, c + c2) == CalculateCarbonFootprint(e, c) + CalculateCarbonFootprint(e, c2)
    ensures CalculateCarbonFootprint(k * e, c) == k * CalculateCarbonFootprint(e, c)
    ensures CalculateCarbonFootprint(e, c) == CalculateCarbonFootprint(c, e)
  {
    assert (e + e2) * c == e * c + e2 * c;
    assert e * (c + c2) == e * c + e * c2;
    assert (k * e) * c == k * (e * c);
  }

  // ---------------------------------------------------------------------------
  // Latest carbon intensity

  /** What `fetchCarbonIntensity` returns: the JSON payload as it came, or mock data. */
  datatype CarbonIntensity =
    | Payload(json: JsValue)
    | MockIntensity(zone: string, carbonIntensity: int, unit: string)

  /** `generateMockCarbonIntensity`: a value between 40 and 100 gCO2eq/kWh. */
  function GenerateMockCarbonIntensity(zone: string, draw: real): (r: CarbonIntensity)
    requires 0.0 <= draw < 1.0
    ensures r.MockIntensity? && r.zone == zone && 40 <= r.carbonIntensity <= 100
  {
    MockIntensity(zone, Round(40.0 + draw * 60.0), "gCO2eq/kWh")
  }

  /** The payload a successful call yields: a 2xx status and a body that parses as JSON. */
  function ReceivedJson(response: Fetched<JsValue>): Option<JsValue> {
    if response.Ok() && response.body.Ok? then Some(response.body.value) else None
  }

  /**
   * `fetchCarbonIntensity` as written: its `catch` calls
   * `getMockCarbonIntensity`, which the module never defines, so every
   * failure ends in a ReferenceError instead of mock data.
   */
  function FetchCarbonIntensityAsWritten(zone: Option<string>, response: Fetched<JsValue>): (r: Result<CarbonIntensity>)
    ensures r.Ok? <==> ReceivedJson(response).Some?
    ensures r.Ok? ==> r.value == Payload(ReceivedJson(response).value)
  {
    match ReceivedJson(response)
    case Some(json) => Ok(Payload(json))
    case None => Err("getMockCarbonIntensity is not defined")
  }

  /** A refused call is enough to make the function as written throw. */
  lemma CarbonIntensityFallbackThrows(zone: Option<string>)
    ensures FetchCarbonIntensityAsWritten(zone, Answered(503, "Service Unavailable", Ok(Null))).Err?
    ensures FetchCarbonIntensityAsWritten(zone, Threw("Failed to fetch")).Err?
  {
  }

  /** `fetchCarbonIntensity` as evidently intended: the catch returns the generated mock. */
  function FetchCarbonIntensity(zone: Option<string>, response: Fetched<JsValue>, draw: real): (r: CarbonIntensity)
    requires 0.0 <= draw < 1.0
    ensures ReceivedJson(response).Some? ==> r == Payload(ReceivedJson(response).value)
    ensures ReceivedJson(response).None? ==> r == GenerateMockCarbonIntensity(zone.GetOr("SE"), draw)
  {
    match ReceivedJson(response)
    case Some(json) => Payload(json)
    case None => GenerateMockCarbonIntensity(zone.GetOr("SE"), draw)
  }

  /** The corrected wrapper never throws and agrees with the written one wherever that one does not throw. */
  lemma CarbonIntensityCorrection(zone: Option<string>, response: Fetched<JsValue>, draw: real)
    requires 0.0 <= draw < 1.0
    ensures FetchCarbonIntensityAsWritten(zone, response).Ok? ==>
              FetchCarbonIntensity(zone, response, draw) == FetchCarbonIntensityAsWritten(zone, response).value
    ensures FetchCarbonIntensityAsWritten(zone, response).Err? ==>
              FetchCarbonIntensity(zone, response, draw).MockIntensity?
              && FetchCarbonIntensity(zone, response, draw).zone == zone.GetOr("SE")
  {
  }

  // ---------------------------------------------------------------------------
  // Power breakdown

  datatype Breakdown =
    | RealBreakdown(zone: string, consumption: JsValue, production: JsValue,
                    renewablePercentage: JsValue, fossilFreePercentage: JsValue, datetime: JsValue, updatedAt: JsValue)
    | MockBreakdown(zone: string, consumptionTable: seq<(string, JsValue)>, productionTable: seq<(string, JsValue)>,
                    renewableRounded: int, fossilFreeRounded: int)
  {
    function Source(): Source { if RealBreakdown? then Real else Mock }
  }

  /** The real result: the fields of `data`; reading them throws a TypeError when `data` is null. */
  function RealBreakdownOf(zone: string, data: JsValue): (r: Result<Breakdown>)
    ensures r.Ok? <==> !Nullish(data)
    ensures r.Ok? ==> r.value.RealBreakdown? && r.value.zone == zone
    ensures r.Ok? ==> Ok(r.value.consumption) == Member(data, "powerConsumptionBreakdown")
                      && r.value.production == OptMember(data, "powerProductionBreakdown")
                      && r.value.renewablePercentage == OptMember(data, "renewablePercentage")
                      && r.value.fossilFreePercentage == OptMember(data, "fossilFreePercentage")
                      && r.value.datetime == OptMember(data, "datetime")
                      && r.value.updatedAt == OptMember(data, "updatedAt")
  {
    match Member(data, "powerConsumptionBreakdown")
    case Err(e) => Err(e)
    case Ok(consumption) =>
      Ok(RealBreakdown(zone, consumption, OptMember(data, "powerProductionBreakdown"),
                       OptMember(data, "renewablePercentage"), OptMember(data, "fossilFreePercentage"),
                       OptMember(data, "datetime"), OptMember(data, "updatedAt")))
  }

  /** Left-to-right sum, as `reduce((a, b) => a + b, 0)` computes it. */
  function Sum(xs: seq<real>): real {
    if xs == [] then 0.0 else Sum(xs[..|xs| - 1]) + xs[|xs| - 1]
  }

  /** Scaling every element scales the sum. */
  lemma {:induction false} SumScaled(xs: seq<real>, ys: seq<real>, c: real)
    requires |xs| == |ys| && forall k :: 0 <= k < |xs| ==> ys[k] == xs[k] * c
    ensures Sum(ys) == Sum(xs) * c
  {
    if xs != [] {
      SumScaled(xs[..|xs| - 1], ys[..|ys| - 1], c);
    }
  }

  /** Indices of the mix in `Object.keys` order. */
  const HYDRO := 0
  const NUCLEAR := 1
  const WIND := 2
  const SOLAR := 3
  const BIOMASS := 4
  const FOSSIL := 5

  /** The mock's total production in MW: 15 to 20 GW (first draw). */
  function TotalProduction(draws: seq<real>): (t: real)
    requires UnitDraws(draws, 7)
    ensures 15000.0 <= t < 20000.0
  {
    15000.0 + draws[0] * 5000.0
  }

  /** The raw shares before normalisation: hydro, nuclear, wind, solar, biomass, fossil (draws 1 to 6). */
  function RawMix(draws: seq<real>): (mix: seq<real>)
    requires UnitDraws(draws, 7)
    ensures |mix| == 6 && forall k :: 0 <= k < 6 ==> 0.0 < mix[k]
    ensures 0.0 < Sum(mix)
  {
    var mix := [0.40 + draws[1] * 0.15, 0.35 + draws[2] * 0.10, 0.10 + draws[3] * 0.15,
                0.01 + draws[4] * 0.04, 0.05 + draws[5] * 0.05, 0.01 + draws[6] * 0.03];
    SumOfSix(mix);
    mix
  }

  /** A six-element sum written out. */
  lemma SumOfSix(xs: seq<real>)
    requires |xs| == 6
    ensures Sum(xs) == xs[0] + xs[1] + xs[2] + xs[3] + xs[4] + xs[5]
  {
    assert xs[..1][..0] == [];
    assert Sum(xs[..1]) == xs[0];
    assert xs[..2][..1] == xs[..1];
    assert Sum(xs[..2]) == xs[0] + xs[1];
    assert xs[..3][..2] == xs[..2];
    assert Sum(xs[..3]) == xs[0] + xs[1] + xs[2];
    assert xs[..4][..3] == xs[..3];
    assert Sum(xs[..4]) == xs[0] + xs[1] + xs[2] + xs[3];
    assert xs[..5][..4] == xs[..4];
    assert Sum(xs[..5]) == xs[0] + xs[1] + xs[2] + xs[3] + xs[4];
  }

  /** Each share divided by the raw total and multiplied by the total production. */
  function Normalised(raw: seq<real>, totalProduction: real): seq<real>
    requires 0.0 < Sum(raw)
  {
    seq(|raw|, k requires 0 <= k < |raw| => (raw[k] / Sum(raw)) * totalProduction)
  }

  /** After normalisation the mix adds up to the total production. */
  lemma NormalisedSum(raw: seq<real>, totalProduction: real)
    requires 0.0 < Sum(raw)
    ensures Sum(Normalised(raw, totalProduction)) == totalProduction
  {
    var c := totalProduction / Sum(raw);
    var ys := Normalised(raw, totalProduction);
    forall k | 0 <= k < |raw| ensures ys[k] == raw[k] * c {
      assert (raw[k] / Sum(raw)) * totalProduction == raw[k] * (totalProduction / Sum(raw));
    }
    SumScaled(raw, ys, c);
  }

  function RenewablePercentage(mix: seq<real>, totalProduction: real): real
    requires |mix| == 6 && totalProduction != 0.0
  {
    ((mix[HYDRO] + mix[WIND] + mix[SOLAR] + mix[BIOMASS]) / totalProduction) * 100.0
  }

  function FossilFreePercentage(mix: seq<real>, totalProduction: real): real
    requires |mix| == 6 && totalProduction != 0.0
  {
    ((totalProduction - mix[FOSSIL]) / totalProduction) * 100.0
  }

  /**
   * Over exact reals, once the mix sums to the total production, the
   * fossil-free share is the renewable share plus the nuclear share, so it
   * is never below the renewable share.
   */
  lemma FossilFreeSplit(mix: seq<real>, totalProduction: real)
    requires |mix| == 6 && 0.0 < totalProduction && Sum(mix) == totalProduction
    requires 0.0 <= mix[NUCLEAR]
    ensures FossilFreePercentage(mix, totalProduction)
            == RenewablePercentage(mix, totalProduction) + (mix[NUCLEAR] / totalProduction) * 100.0
    ensures FossilFreePercentage(mix, totalProduction) >= RenewablePercentage(mix, totalProduction)
  {
    SumOfSix(mix);
    var t := totalProduction;
    assert t - mix[FOSSIL] == (mix[HYDRO] + mix[WIND] + mix[SOLAR] + mix[BIOMASS]) + mix[NUCLEAR];
    DivideSum(mix[HYDRO] + mix[WIND] + mix[SOLAR] + mix[BIOMASS], mix[NUCLEAR], t);
    assert mix[NUCLEAR] / t >= 0.0;
  }

  lemma DivideSum(a: real, b: real, t: real)
    requires t != 0.0
    ensures ((a + b) / t) * 100.0 == (a / t) * 100.0 + (b / t) * 100.0
  {
  }

  /** The per-source table, in the order the source lists it, with coal and gas split 30/70 from fossil. */
  function SourceTable(mix: seq<real>): (t: seq<(string, JsValue)>)
    requires |mix| == 6
    ensures |t| == 7
  {
    [("hydro", Num(Round(mix[HYDRO]) as real)),
     ("nuclear", Num(Round(mix[NUCLEAR]) as real)),
     ("solar", Num(Round(mix[SOLAR]) as real)),
     ("wind", Num(Round(mix[WIND]) as real)),
     ("biomass", Num(Round(mix[BIOMASS]) as real)),
     ("coal", Num(Round(mix[FOSSIL] * 0.3) as real)),
     ("gas", Num(Round(mix[FOSSIL] * 0.7) as real))]
  }

  /** `generateMockPowerBreakdown` as a value. */
  function MockPowerBreakdown(zone: string, draws: seq<real>): Breakdown
    requires UnitDraws(draws, 7)
  {
    var total := TotalProduction(draws);
    var mix := Normalised(RawMix(draws), total);
    MockBreakdown(zone, [("battery discharge", Null)] + SourceTable(mix), SourceTable(mix),
                  Round(RenewablePercentage(mix, total)), Round(FossilFreePercentage(mix, total)))
  }

  /**
   * The structure of the mock breakdown: consumption is the production table
   * with a leading `'battery discharge': null`; coal and gas are the 30/70
   * split of the normalised fossil share; the mix adds up to the total
   * production and the fossil-free share is at least the renewable share.
   */
  lemma MockBreakdownShape(zone: string, draws: seq<real>)
    requires UnitDraws(draws, 7)
    ensures var b := MockPowerBreakdown(zone, draws);
            var mix := Normalised(RawMix(draws), TotalProduction(draws));
            b.MockBreakdown? && b.zone == zone
            && b.consumptionTable == [("battery discharge", Null)] + b.productionTable
            && Lookup(b.consumptionTable, "battery discharge") == Some(Null)
            && Lookup(b.productionTable, "battery discharge").None?
            && b.productionTable[5] == ("coal", Num(Round(mix[FOSSIL] * 0.3) as real))
            && b.productionTable[6] == ("gas", Num(Round(mix[FOSSIL] * 0.7) as real))
            && Sum(mix) == TotalProduction(draws)
            && b.fossilFreeRounded >= b.renewableRounded
  {
    var total := TotalProduction(draws);
    var raw := RawMix(draws);
    var mix := Normalised(raw, total);
    NormalisedSum(raw, total);
    assert 0.0 <= mix[NUCLEAR] by {
      assert mix[NUCLEAR] == (raw[NUCLEAR] / Sum(raw)) * total;
      assert 0.0 <= raw[NUCLEAR] / Sum(raw);
    }
    FossilFreeSplit(mix, total);
  }

  /**
   * The normalisation step of `generateMockPowerBreakdown`: the raw total is
   * taken once, then every share is rescaled in place, key by key.
   */
  method NormaliseInPlace(mix: array<real>, totalProduction: real)
    requires 0.0 < Sum(mix[..])
    modifies mix
    ensures mix[..] == Normalised(old(mix[..]), totalProduction)
  {
    ghost var raw := mix[..];
    ghost var normalised := Normalised(raw, totalProduction);
    var total := Sum(mix[..]);
    var k := 0;
    while k < mix.Length
      invariant 0 <= k <= mix.Length
      invariant forall j :: 0 <= j < k ==> mix[j] == normalised[j]
      invariant forall j :: k <= j < mix.Length ==> mix[j] == raw[j]
    {
      var share := (mix[k] / total) * totalProduction;
      assert share == normalised[k] by {
        assert mix[k] == raw[k] && total == Sum(raw);
      }
      mix[k] := share;
      k := k + 1;
    }
    assert forall j :: 0 <= j < mix.Length ==> mix[..][j] == normalised[j];
  }

  /**
   * `generateMockPowerBreakdown` as the source runs it: the shares are drawn
   * into a mutable record, normalised in place, then tabulated.
   */
  method GenerateMockPowerBreakdown(zone: string, draws: seq<real>) returns (r: Breakdown)
    requires UnitDraws(draws, 7)
    ensures r == MockPowerBreakdown(zone, draws)
  {
    var totalProduction := 15000.0 + draws[0] * 5000.0;
    var mix := new real[6];
    mix[HYDRO] := 0.40 + draws[1] * 0.15;
    mix[NUCLEAR] := 0.35 + draws[2] * 0.10;
    mix[WIND] := 0.10 + draws[3] * 0.15;
    mix[SOLAR] := 0.01 + draws[4] * 0.04;
    mix[BIOMASS] := 0.05 + draws[5] * 0.05;
    mix[FOSSIL] := 0.01 + draws[6] * 0.03;
    assert mix[..] == RawMix(draws);
    NormaliseInPlace(mix, totalProduction);
    var shares := mix[..];
    var table := SourceTable(shares);
    r := MockBreakdown(zone, [("battery discharge", Null)] + table, table,
                       Round(RenewablePercentage(shares, totalProduction)),
                       Round(FossilFreePercentage(shares, totalProduction)));
  }

  /**
   * `fetchPowerBreakdown`: the fields of the payload on a 2xx response
   * whose body is an object, the mock breakdown for the same zone otherwise;
   * it never throws.
   */
  method FetchPowerBreakdown(zone: Option<string>, response: Fetched<JsValue>, draws: seq<real>) returns (r: Breakdown)
    requires UnitDraws(draws, 7)
    ensures r.zone == zone.GetOr("SE")
    ensures r.RealBreakdown? <==> ReceivedJson(response).Some? && !Nullish(ReceivedJson(response).value)
    ensures r.RealBreakdown? ==> Ok(r) == RealBreakdownOf(zone.GetOr("SE"), ReceivedJson(response).value)
    ensures r.MockBreakdown? ==> r == MockPowerBreakdown(zone.GetOr("SE"), draws)
  {
    var z := zone.GetOr("SE");
    var json := ReceivedJson(response);
    if json.Some? {
      var received := RealBreakdownOf(z, json.value);
      if received.Ok? {
        return received.value;
      }
    }
    r := GenerateMockPowerBreakdown(z, draws);
  }

  // ---------------------------------------------------------------------------
  // Carbon-intensity history

  /** A query bound: text the caller passed, or the ISO string of an instant (in epoch ms). */
  datatype TimeArg = Given(text: string) | Instant(ms: int)

  /** `start || <24 hours ago>` and `end || <now>`. */
  function HistoryWindow(start: Option<string>, end: Option<string>, now: int): (w: (TimeArg, TimeArg))
    ensures (start.None? || start == Some("")) ==> w.0 == Instant(now - DAY_MS)
    ensures (end.None? || end == Some("")) ==> w.1 == Instant(now)
    ensures start.Some? && start.value != "" ==> w.0 == Given(start.value)
    ensures end.Some? && end.value != "" ==> w.1 == Given(end.value)
  {
    (if start.Some? && start.value != "" then Given(start.value) else Instant(now - DAY_MS),
     if end.Some? && end.value != "" then Given(end.value) else Instant(now))
  }

  datatype HistoryPoint = HistoryPoint(datetime: int, carbonIntensity: int)

  datatype History =
    | RealHistory(zone: string, history: JsValue, unit: string)
    | MockHistory(zone: string, points: seq<HistoryPoint>, unit: string)

  /** Mock intensity for hour `i`: at least 20 gCO2eq/kWh. */
  function MockIntensityAt(wave: real, draw: real): (c: int)
    ensures c >= 20
  {
    Max(20, Round(50.0 + wave * 20.0 + (draw - 0.5) * 30.0))
  }

  /** `generateMockCarbonHistory`: 24 hourly points, oldest first, the last at `now`. */
  function GenerateMockCarbonHistory(zone: string, now: int, draws: seq<real>, waves: seq<real>): (h: History)
    requires UnitDraws(draws, 24) && Waves(waves, 24)
    ensures h.MockHistory? && h.zone == zone && |h.points| == 24
    ensures forall i :: 0 <= i < 24 ==> h.points[i].datetime == now - (23 - i) * HOUR_MS
    ensures forall i :: 0 <= i < 24 ==> h.points[i].carbonIntensity >= 20
  {
    var points := seq(24, i requires 0 <= i < 24 =>
                        HistoryPoint(now - (23 - i) * HOUR_MS, MockIntensityAt(waves[i], draws[i])));
    MockHistory(zone, points, "gCO2eq/kWh")
  }

  /**
   * The mock history runs oldest first, ends at `now`, and lies inside the
   * default query window [now - 24 h, now].
   */
  lemma MockHistoryInWindow(zone: string, now: int, draws: seq<real>, waves: seq<real>)
    requires UnitDraws(draws, 24) && Waves(waves, 24)
    ensures var h := GenerateMockCarbonHistory(zone, now, draws, waves);
            var w := HistoryWindow(None, None, now);
            h.points[23].datetime == w.1.ms
            && (forall i, j :: 0 <= i < j < 24 ==> h.points[i].datetime < h.points[j].datetime)
            && (forall i :: 0 <= i < 24 ==> w.0.ms <= h.points[i].datetime <= w.1.ms)
  {
  }

  /** `fetchCarbonIntensityHistory`: `data.history` on a 2xx JSON response, the mock history otherwise. */
  function FetchCarbonIntensityHistory(zone: Option<string>, response: Fetched<JsValue>, now: int,
                                       draws: seq<real>, waves: seq<real>): (h: History)
    requires UnitDraws(draws, 24) && Waves(waves, 24)
    ensures h.zone == zone.GetOr("SE") && h.unit == "gCO2eq/kWh"
    ensures h.RealHistory? <==> ReceivedJson(response).Some? && !Nullish(ReceivedJson(response).value)
    ensures h.RealHistory? ==> Member(ReceivedJson(response).value, "history") == Ok(h.history)
    ensures h.MockHistory? ==> h == GenerateMockCarbonHistory(zone.GetOr("SE"), now, draws, waves)
  {
    var z := zone.GetOr("SE");
    match ReceivedJson(response)
    case Some(data) =>
      (match Member(data, "history")
       case Ok(history) => RealHistory(z, history, "gCO2eq/kWh")
       case Err(_) => GenerateMockCarbonHistory(z, now, draws, waves))
    case None => GenerateMockCarbonHistory(z, now, draws, waves)
  }

  // ---------------------------------------------------------------------------
  // Exchanges

  datatype Exchanges =
    | RealExchanges(zone: string, exchanges: JsValue, datetime: JsValue, updatedAt: JsValue)
    | MockExchanges(zone: string, flows: seq<(string, real)>)

  /** The mock interconnectors: key, lowest value and width of the random range, in declaration order. */
  const MOCK_FLOWS: seq<(string, real, real)> := [
    ("SE->NO", 500.0, 1000.0), ("SE->FI", 200.0, 500.0), ("SE->DK", -100.0, 400.0),
    ("SE->DE", -50.0, 200.0), ("SE->PL", 100.0, 300.0)
  ]

  /** `generateMockExchanges`: one flow per interconnector, each in [low, low + width). */
  function GenerateMockExchanges(zone: string, draws: seq<real>): (e: Exchanges)
    requires UnitDraws(draws, 5)
    ensures e.MockExchanges? && e.zone == zone && |e.flows| == 5
    ensures forall i :: 0 <= i < 5 ==>
              e.flows[i].0 == MOCK_FLOWS[i].0
              && MOCK_FLOWS[i].1 <= e.flows[i].1 < MOCK_FLOWS[i].1 + MOCK_FLOWS[i].2
  {
    MockExchanges(zone, seq(5, i requires 0 <= i < 5 => (MOCK_FLOWS[i].0, MOCK_FLOWS[i].1 + draws[i] * MOCK_FLOWS[i].2)))
  }

  /** `fetchExchanges`: the payload's fields on a 2xx JSON response, the mock exchanges otherwise. */
  function FetchExchanges(zone: Option<string>, response: Fetched<JsValue>, draws: seq<real>): (e: Exchanges)
    requires UnitDraws(draws, 5)
    ensures e.zone == zone.GetOr("SE")
    ensures e.RealExchanges? <==> ReceivedJson(response).Some? && !Nullish(ReceivedJson(response).value)
    ensures e.RealExchanges? ==> Member(ReceivedJson(response).value, "exchanges") == Ok(e.exchanges)
    ensures e.MockExchanges? ==> e == GenerateMockExchanges(zone.GetOr("SE"), draws)
  {
    var z := zone.GetOr("SE");
    match ReceivedJson(response)
    case Some(data) =>
      if Nullish(data) then GenerateMockExchanges(z, draws)
      else RealExchanges(z, Member(data, "exchanges").value, Member(data, "datetime").value, Member(data, "updatedAt").value)
    case None => GenerateMockExchanges(z, draws)
  }
}
