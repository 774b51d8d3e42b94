/**
 * FliprMeasure: the survey payload returned by the cloud API, mapped into a
 * measurement whose every field is independently optional, and the getters
 * that convert on read.
 */
module Measures {
  import opened Wrappers
  import opened Deviations
  import opened Enums
  import opened JsText

  /** The result of `new Date(DateTime)`; date parsing is not interpreted. */
  datatype Date = ParsedFrom(raw: string)

  /**
   * The survey payload. For the numbers and the label, `None` stands for a
   * property that is missing or holds `null`, which the constructor treats
   * alike. `DateTime` and `DeviationSector` are `None` only when missing:
   * a `null` there parses to the epoch or throws, and is not represented.
   */
  datatype BatteryBlock = BatteryBlock(deviation: Option<real>)
  datatype DisinfectantBlock = DisinfectantBlock(
    labelText: Option<string>,
    deviation: Option<real>,
    deviationSector: Option<string>)
  datatype PhBlock = PhBlock(
    value: Option<real>,
    deviation: Option<real>,
    deviationSector: Option<string>)
  datatype Payload = Payload(
    dateTime: Option<string>,
    battery: Option<BatteryBlock>,
    cloudCoverage: Option<real>,
    uvIndex: Option<real>,
    temperature: Option<real>,
    desinfectant: Option<DisinfectantBlock>,
    ph: Option<PhBlock>)

  /** The private state of a FliprMeasure; `None` is `null`. */
  datatype Measure = Measure(
    measureDate: Option<Date>,
    batteryLevel: Option<real>,
    uvIndex: Option<real>,
    cloudCoverage: Option<real>,
    temperature: Option<real>,
    disinfectantType: Option<DisinfectantType>,
    disinfectantDeviation: Option<real>,
    disinfectantDeviationSector: Deviation,
    phValue: Option<real>,
    phDeviation: Option<real>,
    phDeviationSector: Deviation)

  /** The field initialisers: every field null, both sectors UNKNOWN. */
  const Blank: Measure :=
    Measure(None, None, None, None, None, None, None, Unknown, None, None, Unknown)

  /** The payload with no property at all. */
  const EmptyPayload: Payload := Payload(None, None, None, None, None, None, None)

  /** The label the API gives each disinfectant. */
  function LabelOf(t: DisinfectantType): string {
    match t
    case Chlorine => "Chlore"
    case Bromine => "Brome"
    case Salt => "Sel"
  }

  /** The exact-match lookup of the constructor's switch on `Desinfectant.Label`. */
  function LabelToType(text: string): (r: Option<DisinfectantType>)
    ensures r.Some? ==> LabelOf(r.value) == text
    ensures r.None? <==> text !in {"Chlore", "Brome", "Sel"}
  {
    if text == "Chlore" then Some(Chlorine)
    else if text == "Brome" then Some(Bromine)
    else if text == "Sel" then Some(Salt)
    else None
  }

  /** Every disinfectant is found again from its label. */
  lemma LabelRoundTrip(t: DisinfectantType)
    ensures LabelToType(LabelOf(t)) == Some(t)
  {
  }

  /** The API's name for a known sector. */
  function SectorName(d: Deviation): string
    requires d != Unknown
  {
    match d
    case TooLow => "TOOLOW"
    case MediumLow => "MEDIUMLOW"
    case Medium => "MEDIUM"
    case MediumHigh => "MEDIUMHIGH"
    case TooHigh => "TOOHIGH"
  }

  /** `stringToDeviation`: the upper-cased input looked up among the sector names. */
  function StringToDeviation(input: string): (d: Deviation)
    ensures d != Unknown ==> SectorName(d) == ToUpper(input)
    ensures d == Unknown <==>
      ToUpper(input) !in {"TOOHIGH", "MEDIUMHIGH", "MEDIUM", "MEDIUMLOW", "TOOLOW"}
  {
    var u := ToUpper(input);
    if u == "TOOHIGH" then TooHigh
    else if u == "MEDIUMHIGH" then MediumHigh
    else if u == "MEDIUM" then Medium
    else if u == "MEDIUMLOW" then MediumLow
    else if u == "TOOLOW" then TooLow
    else Unknown
  }

  /** Every known sector is found again from its name. */
  lemma SectorNameRoundTrip(d: Deviation)
    requires d != Unknown
    ensures StringToDeviation(SectorName(d)) == d
  {
    var u := SectorName(d);
    ToUpperOfAsciiUpper(u);
    match d {
      case TooLow => assert ToUpper(u) == "TOOLOW";
      case MediumLow => assert ToUpper(u) == "MEDIUMLOW";
      case Medium => assert ToUpper(u) == "MEDIUM";
      case MediumHigh => assert ToUpper(u) == "MEDIUMHIGH";
      case TooHigh => assert ToUpper(u) == "TOOHIGH";
    }
  }

  /** The lookup ignores the case of ASCII letters. */
  lemma StringToDeviationIgnoresCase(s: string, t: string)
    requires SameIgnoringAsciiCase(s, t)
    ensures StringToDeviation(s) == StringToDeviation(t)
  {
    ToUpperIgnoresAsciiCase(s, t);
  }

  /** Upper-casing the input beforehand does not change the sector. */
  lemma StringToDeviationOfUpper(s: string)
    ensures StringToDeviation(ToUpper(s)) == StringToDeviation(s)
  {
    ToUpperIdempotent(s);
  }

  /** Lower-case and mixed-case spellings of TOOHIGH find TOO_HIGH. */
  lemma StringToDeviationMixedCase()
    ensures StringToDeviation("toohigh") == TooHigh
    ensures StringToDeviation("ToOhIgH") == TooHigh
  {
    var name := SectorName(TooHigh);
    SectorNameRoundTrip(TooHigh);
    var lower, mixed := "toohigh", "ToOhIgH";
    assert SameIgnoringAsciiCase(lower, name);
    assert SameIgnoringAsciiCase(mixed, name);
    StringToDeviationIgnoresCase(lower, name);
    StringToDeviationIgnoresCase(mixed, name);
  }

  /** Text whose upper case starts with neither T nor M names no sector. */
  lemma UnknownUnlessTOrM(s: string)
    requires s != [] && UpperChar(s[0])[0] !in {'T', 'M'}
    ensures StringToDeviation(s) == Unknown
  {
    assert ToUpper(s) == UpperChar(s[0]) + ToUpper(s[1..]);
    assert ToUpper(s)[0] == UpperChar(s[0])[0];
  }

  /** Text that is no sector name gives UNKNOWN. */
  lemma StringToDeviationNonsense()
    ensures StringToDeviation("nonsense") == Unknown
  {
    var s := "nonsense";
    assert UpperChar(s[0]) == "N";
    UnknownUnlessTOrM(s);
  }

  /**
   * The constructor: starting from the initialisers, each guarded
   * assignment fills its field only when the payload has the property.
   */
  function FromPayload(p: Payload): (m: Measure)
    ensures m.measureDate ==
      (if p.dateTime.Some? then Some(ParsedFrom(p.dateTime.value)) else None)
    ensures m.batteryLevel.Some? <==> p.battery.Some? && p.battery.value.deviation.Some?
    ensures m.batteryLevel.Some? ==> m.batteryLevel == p.battery.value.deviation
    ensures m.cloudCoverage == p.cloudCoverage
    ensures m.uvIndex == p.uvIndex
    ensures m.temperature == p.temperature
    ensures m.disinfectantType.Some? <==>
      p.desinfectant.Some? && p.desinfectant.value.labelText.Some? &&
      p.desinfectant.value.labelText.value in {"Chlore", "Brome", "Sel"}
    ensures m.disinfectantType.Some? ==>
      LabelOf(m.disinfectantType.value) == p.desinfectant.value.labelText.value
    ensures m.disinfectantDeviation ==
      (if p.desinfectant.Some? then p.desinfectant.value.deviation else None)
    ensures m.disinfectantDeviationSector ==
      (if p.desinfectant.Some? && p.desinfectant.value.deviationSector.Some?
       then StringToDeviation(p.desinfectant.value.deviationSector.value)
       else Unknown)
    ensures m.phValue == (if p.ph.Some? then p.ph.value.value else None)
    ensures m.phDeviation == (if p.ph.Some? then p.ph.value.deviation else None)
    ensures m.phDeviationSector ==
      (if p.ph.Some? && p.ph.value.deviationSector.Some?
       then StringToDeviation(p.ph.value.deviationSector.value)
       else Unknown)
  {
    var m := TopLevelFields(p);
    var m := if p.desinfectant.Some? then DisinfectantFields(m, p.desinfectant.value) else m;
    if p.ph.Some? then PhFields(m, p.ph.value) else m
  }

  /**
   * The first five guarded assignments; a property that is missing or
   * null leaves its field null.
   */
  function TopLevelFields(p: Payload): (r: Measure)
    ensures r.(measureDate := None, batteryLevel := None, cloudCoverage := None,
               uvIndex := None, temperature := None) == Blank
  {
    Blank.(
      measureDate := if p.dateTime.Some? then Some(ParsedFrom(p.dateTime.value)) else None,
      batteryLevel := if p.battery.Some? then p.battery.value.deviation else None,
      cloudCoverage := p.cloudCoverage,
      uvIndex := p.uvIndex,
      temperature := p.temperature)
  }

  /** The assignments under `if (hasOwnProperty('Desinfectant'))`. */
  function DisinfectantFields(m: Measure, b: DisinfectantBlock): (r: Measure)
    ensures r.disinfectantType ==
      (if b.labelText.Some? && LabelToType(b.labelText.value).Some?
       then LabelToType(b.labelText.value) else m.disinfectantType)
    ensures r.disinfectantDeviation ==
      (if b.deviation.Some? then b.deviation else m.disinfectantDeviation)
    ensures r.disinfectantDeviationSector ==
      (if b.deviationSector.Some? then StringToDeviation(b.deviationSector.value)
       else m.disinfectantDeviationSector)
    ensures r.(disinfectantType := m.disinfectantType,
               disinfectantDeviation := m.disinfectantDeviation,
               disinfectantDeviationSector := m.disinfectantDeviationSector) == m
  {
    var m := if b.labelText.Some? && LabelToType(b.labelText.value).Some?
      then m.(disinfectantType := LabelToType(b.labelText.value)) else m;
    var m := if b.deviation.Some? then m.(disinfectantDeviation := b.deviation) else m;
    if b.deviationSector.Some?
    then m.(disinfectantDeviationSector := StringToDeviation(b.deviationSector.value))
    else m
  }

  /** The assignments under `if (hasOwnProperty('PH'))`. */
  function PhFields(m: Measure, b: PhBlock): (r: Measure)
    ensures r.phValue == (if b.value.Some? then b.value else m.phValue)
    ensures r.phDeviation == (if b.deviation.Some? then b.deviation else m.phDeviation)
    ensures r.phDeviationSector ==
      (if b.deviationSector.Some? then StringToDeviation(b.deviationSector.value)
       else m.phDeviationSector)
    ensures r.(phValue := m.phValue, phDeviation := m.phDeviation,
               phDeviationSector := m.phDeviationSector) == m
  {
    var m := if b.value.Some? then m.(phValue := b.value) else m;
    var m := if b.deviation.Some? then m.(phDeviation := b.deviation) else m;
    if b.deviationSector.Some?
    then m.(phDeviationSector := StringToDeviation(b.deviationSector.value))
    else m
  }

  /** A payload without any property leaves every field as initialised. */
  lemma EmptyPayloadGivesBlank()
    ensures FromPayload(EmptyPayload) == Blank
  {
  }

  /**
   * `q` is `p` with some properties removed, at the top level or inside
   * the battery, disinfectant and pH blocks.
   */
  predicate Drops(q: Payload, p: Payload) {
    Sub(q.dateTime, p.dateTime) && Sub(q.cloudCoverage, p.cloudCoverage) &&
    Sub(q.uvIndex, p.uvIndex) && Sub(q.temperature, p.temperature) &&
    (q.battery.Some? ==>
       p.battery.Some? &&
       Sub(q.battery.value.deviation, p.battery.value.deviation)) &&
    (q.desinfectant.Some? ==>
       p.desinfectant.Some? &&
       Sub(q.desinfectant.value.labelText, p.desinfectant.value.labelText) &&
       Sub(q.desinfectant.value.deviation, p.desinfectant.value.deviation) &&
       Sub(q.desinfectant.value.deviationSector, p.desinfectant.value.deviationSector)) &&
    (q.ph.Some? ==>
       p.ph.Some? &&
       Sub(q.ph.value.value, p.ph.value.value) &&
       Sub(q.ph.value.deviation, p.ph.value.deviation) &&
       Sub(q.ph.value.deviationSector, p.ph.value.deviationSector))
  }

  predicate Sub<T(==)>(a: Option<T>, b: Option<T>) {
    a.None? || a == b
  }

  /**
   * Removing any subset of the payload's properties leaves every field
   * either as the full payload sets it or as initialised: the mapping
   * never invents a value and never fails.
   */
  lemma DroppingPropertiesOnlyBlanksFields(q: Payload, p: Payload)
    requires Drops(q, p)
    ensures var mq, mp := FromPayload(q), FromPayload(p);
      Sub(mq.measureDate, mp.measureDate) && Sub(mq.batteryLevel, mp.batteryLevel) &&
      Sub(mq.uvIndex, mp.uvIndex) && Sub(mq.cloudCoverage, mp.cloudCoverage) &&
      Sub(mq.temperature, mp.temperature) && Sub(mq.disinfectantType, mp.disinfectantType) &&
      Sub(mq.disinfectantDeviation, mp.disinfectantDeviation) &&
      Sub(mq.phValue, mp.phValue) && Sub(mq.phDeviation, mp.phDeviation) &&
      (mq.disinfectantDeviationSector == Unknown ||
       mq.disinfectantDeviationSector == mp.disinfectantDeviationSector) &&
      (mq.phDeviationSector == Unknown || mq.phDeviationSector == mp.phDeviationSector)
  {
  }

  // ---- getters ----

  function GetDate(m: Measure): Option<Date> { m.measureDate }

  function GetUVIndex(m: Measure): Option<real> { m.uvIndex }

  function GetDisinfectantType(m: Measure): Option<DisinfectantType> { m.disinfectantType }

  function GetPHValue(m: Measure): Option<real> { m.phValue }

  /** The plain getters hand back exactly what the payload carried. */
  lemma PlainGettersReadPayload(p: Payload)
    ensures GetDate(FromPayload(p)) ==
      (if p.dateTime.Some? then Some(ParsedFrom(p.dateTime.value)) else None)
    ensures GetUVIndex(FromPayload(p)) == p.uvIndex
    ensures GetDisinfectantType(FromPayload(p)) ==
      (if p.desinfectant.Some? && p.desinfectant.value.labelText.Some?
       then LabelToType(p.desinfectant.value.labelText.value) else None)
    ensures GetPHValue(FromPayload(p)) == (if p.ph.Some? then p.ph.value.value else None)
  {
  }

  /** A stored fraction as a percentage; null stays null. */
  function Percentage(v: Option<real>): (r: Option<real>)
    ensures r.Some? <==> v.Some?
    ensures r.Some? ==> r.value / 100.0 == v.value
    ensures v.Some? && 0.0 <= v.value <= 1.0 ==> 0.0 <= r.value <= 100.0
  {
    if v.Some? then Some(v.value * 100.0) else None
  }

  /** `getCloudCoverage(expectRawValue)`. */
  function GetCloudCoverage(m: Measure, expectRawValue: bool): (r: Option<real>)
    ensures expectRawValue ==> r == m.cloudCoverage
    ensures !expectRawValue ==> r == Percentage(m.cloudCoverage)
  {
    if expectRawValue then m.cloudCoverage else Percentage(m.cloudCoverage)
  }

  /** `getBatteryLevel(expectRawValue)`. */
  function GetBatteryLevel(m: Measure, expectRawValue: bool): (r: Option<real>)
    ensures expectRawValue ==> r == m.batteryLevel
    ensures !expectRawValue ==> r == Percentage(m.batteryLevel)
  {
    if expectRawValue then m.batteryLevel else Percentage(m.batteryLevel)
  }

  /** A raw 0.5 reads as 50, a raw 0 as 0, and a missing value stays missing rather than 0. */
  lemma PercentageExamples(m: Measure)
    ensures m.batteryLevel == Some(0.5) ==> GetBatteryLevel(m, false) == Some(50.0)
    ensures m.cloudCoverage == Some(0.0) ==> GetCloudCoverage(m, false) == Some(0.0)
    ensures m.cloudCoverage.None? ==> GetCloudCoverage(m, false).None?
    ensures m.batteryLevel.None? ==> GetBatteryLevel(m, false).None?
  {
  }

  /** `getTemperature(unit)`, the unit defaulting to Celsius. */
  function GetTemperature(m: Measure, unit: TemperatureUnit := Celsius): (r: Option<real>)
    ensures r.Some? <==> m.temperature.Some?
    ensures r.Some? && unit == Celsius ==> r.value == m.temperature.value
    ensures r.Some? && unit == Fahrenheit ==> (r.value - 32.0) * 5.0 / 9.0 == m.temperature.value
    ensures r.Some? && unit == Kelvin ==> r.value - 273.15 == m.temperature.value
  {
    if m.temperature.None? then None
    else
      var t := m.temperature.value;
      match unit
      case Fahrenheit => Some(t * (9.0 / 5.0) + 32.0)
      case Kelvin => Some(t + 273.15)
      case Celsius => Some(t)
  }

  /** 20 degrees Celsius reads as 68 Fahrenheit and 293.15 Kelvin; no reading gives nothing in any unit. */
  lemma TemperatureExamples(m: Measure)
    ensures m.temperature == Some(20.0) ==>
      GetTemperature(m) == Some(20.0) && GetTemperature(m, Fahrenheit) == Some(68.0) &&
      GetTemperature(m, Kelvin) == Some(293.15)
    ensures m.temperature.None? ==>
      GetTemperature(m, Celsius).None? && GetTemperature(m, Fahrenheit).None? &&
      GetTemperature(m, Kelvin).None?
  {
  }

  /** Every unit keeps the order of temperatures. */
  lemma TemperatureMonotone(m: Measure, n: Measure, unit: TemperatureUnit)
    requires m.temperature.Some? && n.temperature.Some?
    requires m.temperature.value < n.temperature.value
    ensures GetTemperature(m, unit).value < GetTemperature(n, unit).value
  {
  }

  /** A deviation getter's result: the raw number, or the sector's numeric code. */
  function DeviationReading(raw: Option<real>, sector: Deviation, expectRawValue: bool): (r: Option<real>)
    ensures expectRawValue ==> r == raw
    ensures !expectRawValue ==>
      r.Some? && r.value == r.value.Floor as real && FromCode(r.value.Floor) == Some(sector)
  {
    if expectRawValue then raw else Some(Code(sector) as real)
  }

  /** `getDisinfectantDeviation(expectRawValue)`. */
  function GetDisinfectantDeviation(m: Measure, expectRawValue: bool): (r: Option<real>)
    ensures expectRawValue ==> r == m.disinfectantDeviation
    ensures !expectRawValue ==>
      r.Some? && r.value == r.value.Floor as real &&
      FromCode(r.value.Floor) == Some(m.disinfectantDeviationSector)
  {
    DeviationReading(m.disinfectantDeviation, m.disinfectantDeviationSector, expectRawValue)
  }

  /** `getPHDeviation(expectRawValue)`. */
  function GetPHDeviation(m: Measure, expectRawValue: bool): (r: Option<real>)
    ensures expectRawValue ==> r == m.phDeviation
    ensures !expectRawValue ==>
      r.Some? && r.value == r.value.Floor as real &&
      FromCode(r.value.Floor) == Some(m.phDeviationSector)
  {
    DeviationReading(m.phDeviation, m.phDeviationSector, expectRawValue)
  }

  /** Without the block or its sector the sector reading is UNKNOWN's code, -1. */
  lemma MissingSectorReadsUnknown(p: Payload)
    ensures (p.desinfectant.None? || p.desinfectant.value.deviationSector.None?) ==>
      GetDisinfectantDeviation(FromPayload(p), false) == Some(-1.0)
    ensures (p.ph.None? || p.ph.value.deviationSector.None?) ==>
      GetPHDeviation(FromPayload(p), false) == Some(-1.0)
    ensures p.desinfectant.None? ==> GetDisinfectantDeviation(FromPayload(p), true).None?
    ensures p.ph.None? ==> GetPHDeviation(FromPayload(p), true).None?
  {
  }
}
