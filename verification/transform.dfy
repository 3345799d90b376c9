/** The request transformer: one parsed form reading becomes one ordered
    batch of {path, value} records, delivered as a single update message.

    The batch has three sections, in this order: eleven fixed records that
    are always present; the channel records of the auxiliary sensors 1..3,
    each gated on its raw field being present and its configured path being
    truthy; and the apparent-wind records, each gated on its raw field.
 */
module Transform {
  import opened Units

  /** A parsed form body: field name to raw string value. */
  type Reading = map<string, string>

  /** The plugin's options object, restricted to its string-valued settings. */
  type Options = map<string, string>

  /** parseFloat, which the host supplies: any function from strings to numbers. */
  type Parser = string -> Number

  datatype Option<T> = None | Some(value: T)

  /** One measurement: a dot-separated destination path and its value. */
  datatype Record = Record(path: string, value: Number)

  /** One update of the delta handed to the host, carrying the batch. */
  datatype Update = Update(values: seq<Record>)

  /** The delta handed to the host's message handler. */
  datatype Message = Message(source: string, updates: seq<Update>)

  const PluginId: string := "signalk-ecowitt"

  /** `parseFloat(q.key)`: an absent key reads as undefined, which parses to NaN. */
  function Field(q: Reading, key: string, parse: Parser): (r: Number)
    ensures key !in q ==> r.NaN?
    ensures key in q ==> r == parse(q[key])
  {
    if key in q then parse(q[key]) else NaN
  }

  // ---------------------------------------------------------------------
  // Fixed section

  /** How a fixed field's parsed value is turned into the emitted value. */
  datatype Conversion = Kelvin | Ratio | Pascal | Raw | Millimetre

  function Convert(c: Conversion, n: Number): Number {
    match c
    case Kelvin => Fahrenheit2Kelvin(n)
    case Ratio => DivideBy100(n)
    case Pascal => Inhg2Pascal(n)
    case Raw => n
    case Millimetre => Inch2Mm(n)
  }

  /** Every conversion maps NaN to NaN. */
  lemma ConvertKeepsNaN(c: Conversion)
    ensures Convert(c, NaN) == NaN
  {
  }

  /** A fixed record: the raw field it reads, its conversion and its hard-coded path. */
  datatype FixedField = FixedField(key: string, conversion: Conversion, path: string)

  /** The fixed section as a table, in emission order. The relative
      pressure appears twice, under two paths. */
  const FixedFields: seq<FixedField> := [
    FixedField("tempinf", Kelvin, "environment.ecowitt.inside.temperature"),
    FixedField("humidityin", Ratio, "environment.ecowitt.inside.humidity"),
    FixedField("baromrelin", Pascal, "environment.ecowitt.outside.pressure"),
    FixedField("baromrelin", Pascal, "environment.ecowitt.inside.relpressure"),
    FixedField("baromabsin", Pascal, "environment.ecowitt.inside.abspressure"),
    FixedField("tempf", Kelvin, "environment.ecowitt.outside.temperature"),
    FixedField("humidity", Ratio, "environment.ecowitt.outside.humidity"),
    FixedField("solarradiation", Raw, "environment.ecowitt.outside.solarradiation"),
    FixedField("uv", Raw, "environment.ecowitt.outside.uv"),
    FixedField("rrain_piezo", Millimetre, "environment.ecowitt.outside.rrain_piezo"),
    FixedField("drain_piezo", Millimetre, "environment.ecowitt.outside.drain_piezo")
  ]

  /** The initial `values` array literal, built from the converted fields. */
  function FixedRecords(q: Reading, parse: Parser): (r: seq<Record>)
    ensures |r| == |FixedFields| == 11
    ensures forall k :: 0 <= k < |r| ==>
      r[k] == Record(FixedFields[k].path, Convert(FixedFields[k].conversion, Field(q, FixedFields[k].key, parse)))
  {
    var tempin := Fahrenheit2Kelvin(Field(q, "tempinf", parse));
    var humidityin := DivideBy100(Field(q, "humidityin", parse));
    var baromrelin := Inhg2Pascal(Field(q, "baromrelin", parse));
    var baromabsin := Inhg2Pascal(Field(q, "baromabsin", parse));
    var tempout := Fahrenheit2Kelvin(Field(q, "tempf", parse));
    var humidityout := DivideBy100(Field(q, "humidity", parse));
    var solarradiationout := Field(q, "solarradiation", parse);
    var uvout := Field(q, "uv", parse);
    var rrainPiezoOut := Inch2Mm(Field(q, "rrain_piezo", parse));
    var drainPiezoOut := Inch2Mm(Field(q, "drain_piezo", parse));
    [
      Record("environment.ecowitt.inside.temperature", tempin),
      Record("environment.ecowitt.inside.humidity", humidityin),
      Record("environment.ecowitt.outside.pressure", baromrelin),
      Record("environment.ecowitt.inside.relpressure", baromrelin),
      Record("environment.ecowitt.inside.abspressure", baromabsin),
      Record("environment.ecowitt.outside.temperature", tempout),
      Record("environment.ecowitt.outside.humidity", humidityout),
      Record("environment.ecowitt.outside.solarradiation", solarradiationout),
      Record("environment.ecowitt.outside.uv", uvout),
      Record("environment.ecowitt.outside.rrain_piezo", rrainPiezoOut),
      Record("environment.ecowitt.outside.drain_piezo", drainPiezoOut)
    ]
  }

  // ---------------------------------------------------------------------
  // Channel section

  /** The number of auxiliary sensor channels the handler reads. */
  const ChannelCount: nat := 3

  /** The number of channel readings: a temperature and a humidity per channel. */
  const SlotCount: nat := 6

  /** An auxiliary sensor channel. */
  type Channel = i: int | 1 <= i <= 3 witness 1

  /** The two readings a channel sensor reports. */
  datatype Kind = Temperature | Humidity

  /** Raw form fields of the channel readings, indexed by channel - 1. */
  const TempKeys: seq<string> := ["temp1f", "temp2f", "temp3f"]
  const HumidityKeys: seq<string> := ["humidity1", "humidity2", "humidity3"]

  /** Options that route the channel readings, indexed by channel - 1. */
  const TempOptions: seq<string> := ["temp1", "temp2", "temp3"]
  const HumidityOptions: seq<string> := ["humidity1", "humidity2", "humidity3"]

  /** The raw form field of a channel reading. */
  function RawKey(c: Channel, kind: Kind): string {
    match kind
    case Temperature => TempKeys[c - 1]
    case Humidity => HumidityKeys[c - 1]
  }

  /** The static table that replaces the runtime lookup of `options.temp<i>`
      and `options.humidity<i>`: the option that routes a channel reading. */
  function OptionName(c: Channel, kind: Kind): (r: string)
    ensures kind == Temperature ==> RawKey(c, kind) == r + "f"
    ensures kind == Humidity ==> RawKey(c, kind) == r
  {
    match kind
    case Temperature => TempOptions[c - 1]
    case Humidity => HumidityOptions[c - 1]
  }

  /** `i.toString()` for a channel index. */
  function ChannelDigit(c: Channel): string {
    if c == 1 then "1" else if c == 2 then "2" else "3"
  }

  /** The two tables hold the names the handler builds by concatenation:
      'temp' + i + 'f' and 'humidity' + i for the raw fields, 'temp' + i and
      'humidity' + i for the options. */
  lemma KeyTablesMatchConcatenation(c: Channel)
    ensures RawKey(c, Temperature) == "temp" + ChannelDigit(c) + "f"
    ensures RawKey(c, Humidity) == "humidity" + ChannelDigit(c)
    ensures OptionName(c, Temperature) == "temp" + ChannelDigit(c)
    ensures OptionName(c, Humidity) == "humidity" + ChannelDigit(c)
  {
  }

  /** The configured path of a channel reading, when it is truthy (set and non-empty). */
  function ConfiguredPath(options: Options, c: Channel, kind: Kind): (r: Option<string>)
    ensures r.Some? <==> OptionName(c, kind) in options && options[OptionName(c, kind)] != ""
    ensures r.Some? ==> r.value == options[OptionName(c, kind)] && r.value != ""
  {
    var name := OptionName(c, kind);
    if name in options && options[name] != "" then Some(options[name]) else None
  }

  /** The emitted value of a channel reading. */
  function ChannelValue(kind: Kind, n: Number): Number {
    match kind
    case Temperature => Fahrenheit2Kelvin(n)
    case Humidity => DivideBy100(n)
  }

  /** A channel reading is emitted when its raw field is present and its path is configured. */
  predicate Gated(q: Reading, options: Options, c: Channel, kind: Kind) {
    RawKey(c, kind) in q && ConfiguredPath(options, c, kind).Some?
  }

  /** The record a gated channel reading produces. */
  function SlotRecord(q: Reading, options: Options, parse: Parser, c: Channel, kind: Kind): Record
    requires Gated(q, options, c, kind)
  {
    Record(ConfiguredPath(options, c, kind).value, ChannelValue(kind, parse(q[RawKey(c, kind)])))
  }

  /** The records one push site of the channel loop adds: its record or nothing. */
  function SlotRecords(q: Reading, options: Options, parse: Parser, c: Channel, kind: Kind): seq<Record> {
    if Gated(q, options, c, kind) then [SlotRecord(q, options, parse, c, kind)] else []
  }

  /** The records the channel loop has pushed after its iterations for channels 1..n. */
  function ChannelsThrough(q: Reading, options: Options, parse: Parser, n: nat): (r: seq<Record>)
    requires n <= ChannelCount
    ensures |r| <= 2 * n
    ensures forall k :: 0 <= k < |r| ==> r[k].path != ""
    decreases n
  {
    if n == 0 then []
    else
      ChannelsThrough(q, options, parse, n - 1)
      + SlotRecords(q, options, parse, n, Temperature)
      + SlotRecords(q, options, parse, n, Humidity)
  }

  // The six channel readings numbered in loop order: 0 = temp1, 1 = humidity1, ..., 5 = humidity3.

  type Slot = n: int | 0 <= n < 6

  function SlotChannel(n: Slot): Channel {
    if n < 2 then 1 else if n < 4 then 2 else 3
  }

  function SlotKind(n: Slot): Kind {
    if n == 0 || n == 2 || n == 4 then Temperature else Humidity
  }

  predicate SlotGated(q: Reading, options: Options, n: Slot) {
    Gated(q, options, SlotChannel(n), SlotKind(n))
  }

  function SlotRecordAt(q: Reading, options: Options, parse: Parser, n: Slot): Record
    requires SlotGated(q, options, n)
  {
    SlotRecord(q, options, parse, SlotChannel(n), SlotKind(n))
  }

  /** The number of gated channel readings among slots 0..m-1. */
  function GatedCount(q: Reading, options: Options, m: nat): nat
    requires m <= SlotCount
  {
    if m == 0 then 0 else GatedCount(q, options, m - 1) + if SlotGated(q, options, m - 1) then 1 else 0
  }

  // ---------------------------------------------------------------------
  // Wind section

  const SpeedApparentPath: string := "environment.wind.speedApparent"
  const AngleApparentPath: string := "environment.wind.angleApparent"

  /** The two conditional wind pushes, speed before angle. */
  function WindRecords(q: Reading, parse: Parser): (r: seq<Record>)
    ensures |r| == WindCount(q)
    ensures "windspeedmph" in q ==> r[0] == Record(SpeedApparentPath, Mph2Mps(Field(q, "windspeedmph", parse)))
    ensures "winddir" in q ==> r[|r| - 1] == Record(AngleApparentPath, Degrees2Radians(Field(q, "winddir", parse)))
  {
    (if "windspeedmph" in q then [Record(SpeedApparentPath, Mph2Mps(parse(q["windspeedmph"])))] else [])
    + (if "winddir" in q then [Record(AngleApparentPath, Degrees2Radians(parse(q["winddir"])))] else [])
  }

  /** How many wind fields the reading carries. */
  function WindCount(q: Reading): nat {
    (if "windspeedmph" in q then 1 else 0) + (if "winddir" in q then 1 else 0)
  }

  // ---------------------------------------------------------------------
  // The whole batch

  /** The batch the handler assembles for one reading. */
  function Batch(q: Reading, options: Options, parse: Parser): (r: seq<Record>)
    ensures |r| == 11 + GatedCount(q, options, SlotCount) + WindCount(q)
    ensures 11 <= |r| <= 19
  {
    ChannelsLength(q, options, parse, ChannelCount);
    GatedCountBound(q, options, SlotCount);
    FixedRecords(q, parse) + ChannelsThrough(q, options, parse, ChannelCount) + WindRecords(q, parse)
  }

  /** The `for (let i=1;i<=3;i++)` loop of the handler: for each channel,
      push the temperature record, then the humidity record, each only when
      its raw field is present and its configured path is truthy. */
  method PushChannelRecords(q: Reading, options: Options, parse: Parser, init: seq<Record>)
    returns (values: seq<Record>)
    ensures values == init + ChannelsThrough(q, options, parse, ChannelCount)
  {
    values := init;
    var i := 1;
    while i <= ChannelCount
      invariant 1 <= i <= ChannelCount + 1
      invariant values == init + ChannelsThrough(q, options, parse, i - 1)
    {
      var tempKey := RawKey(i, Temperature);
      var humidityKey := RawKey(i, Humidity);
      if tempKey in q {
        var temp := Fahrenheit2Kelvin(parse(q[tempKey]));
        var key := ConfiguredPath(options, i, Temperature);
        if key.Some? {
          values := values + [Record(key.value, temp)];
        }
      }
      assert values == init + ChannelsThrough(q, options, parse, i - 1) + SlotRecords(q, options, parse, i, Temperature);
      if humidityKey in q {
        var humidity := DivideBy100(parse(q[humidityKey]));
        var key := ConfiguredPath(options, i, Humidity);
        if key.Some? {
          values := values + [Record(key.value, humidity)];
        }
      }
      i := i + 1;
    }
  }

  /** The POST `end` handler after parsing: the `values` array literal, the
      channel loop, the two conditional wind pushes, and the single update
      that wraps the batch for the host. */
  method HandleEnd(q: Reading, options: Options, parse: Parser) returns (msg: Message)
    ensures msg == Message(PluginId, [Update(Batch(q, options, parse))])
  {
    var values := FixedRecords(q, parse);
    values := PushChannelRecords(q, options, parse, values);
    ghost var fixedAndChannels := values;
    if "windspeedmph" in q {
      var windSpeed := Mph2Mps(parse(q["windspeedmph"]));
      values := values + [Record(SpeedApparentPath, windSpeed)];
    }
    if "winddir" in q {
      var windDirection := Degrees2Radians(parse(q["winddir"]));
      values := values + [Record(AngleApparentPath, windDirection)];
    }
    assert values == fixedAndChannels + WindRecords(q, parse);
    msg := Message(PluginId, [Update(values)]);
  }

  // ---------------------------------------------------------------------
  // Lemmas about the channel section

  lemma {:induction false} GatedCountBound(q: Reading, options: Options, m: nat)
    requires m <= SlotCount
    ensures GatedCount(q, options, m) <= m
  {
    if m > 0 {
      GatedCountBound(q, options, m - 1);
    }
  }

  /** The channel loop pushes exactly one record per gated reading. */
  lemma {:induction false} ChannelsLength(q: Reading, options: Options, parse: Parser, n: nat)
    requires n <= ChannelCount
    ensures |ChannelsThrough(q, options, parse, n)| == GatedCount(q, options, 2 * n)
  {
    if n > 0 {
      ChannelsLength(q, options, parse, n - 1);
      var t: Slot, h: Slot := 2 * n - 2, 2 * n - 1;
      assert SlotChannel(t) == n && SlotKind(t) == Temperature;
      assert SlotChannel(h) == n && SlotKind(h) == Humidity;
    }
  }

  /** Ranks of gated readings grow with the loop order. */
  lemma {:induction false} GatedCountStrict(q: Reading, options: Options, n: Slot, m: nat)
    requires n < m <= SlotCount && SlotGated(q, options, n)
    ensures GatedCount(q, options, n) < GatedCount(q, options, m)
  {
    if m > n + 1 {
      GatedCountStrict(q, options, n, m - 1);
    }
  }

  /** A gated reading of channel i sits at its rank in the records pushed through channel i. */
  lemma LastChannelAt(q: Reading, options: Options, parse: Parser, i: Channel, n: Slot)
    requires 2 * i - 2 <= n < 2 * i && SlotGated(q, options, n)
    requires |ChannelsThrough(q, options, parse, i - 1)| == GatedCount(q, options, 2 * i - 2)
    ensures GatedCount(q, options, n) < |ChannelsThrough(q, options, parse, i)|
    ensures ChannelsThrough(q, options, parse, i)[GatedCount(q, options, n)] == SlotRecordAt(q, options, parse, n)
  {
    if n == 2 * i - 2 {
      assert SlotChannel(n) == i && SlotKind(n) == Temperature;
    } else {
      assert SlotChannel(n) == i && SlotKind(n) == Humidity;
      assert SlotChannel(n - 1) == i && SlotKind(n - 1) == Temperature;
    }
  }

  /** A gated reading of channels 1..i sits at its rank among the pushed records. */
  lemma {:induction false} ChannelsAt(q: Reading, options: Options, parse: Parser, i: nat, n: Slot)
    requires i <= ChannelCount && n < 2 * i && SlotGated(q, options, n)
    ensures GatedCount(q, options, n) < |ChannelsThrough(q, options, parse, i)|
    ensures ChannelsThrough(q, options, parse, i)[GatedCount(q, options, n)] == SlotRecordAt(q, options, parse, n)
  {
    ChannelsLength(q, options, parse, i - 1);
    if n < 2 * i - 2 {
      ChannelsAt(q, options, parse, i - 1, n);
      ChannelsExtend(q, options, parse, i, GatedCount(q, options, n));
    } else {
      LastChannelAt(q, options, parse, i, n);
    }
  }

  /** Iteration i only appends: what was pushed before it stays in place. */
  lemma ChannelsExtend(q: Reading, options: Options, parse: Parser, i: Channel, k: nat)
    requires k < |ChannelsThrough(q, options, parse, i - 1)|
    ensures k < |ChannelsThrough(q, options, parse, i)|
    ensures ChannelsThrough(q, options, parse, i)[k] == ChannelsThrough(q, options, parse, i - 1)[k]
  {
  }

  /** Every rank below the count belongs to some gated reading. */
  lemma {:induction false} RankSurjective(q: Reading, options: Options, m: nat, k: nat)
    requires m <= SlotCount && k < GatedCount(q, options, m)
    ensures exists n: Slot :: n < m && SlotGated(q, options, n) && GatedCount(q, options, n) == k
  {
    if k < GatedCount(q, options, m - 1) {
      RankSurjective(q, options, m - 1, k);
    } else {
      assert SlotGated(q, options, m - 1) && GatedCount(q, options, m - 1) == k;
    }
  }

  // ---------------------------------------------------------------------
  // Lemmas about the whole batch

  /** The batch opens with the eleven fixed records of the table, whatever
      the reading and the configuration. */
  lemma FixedSection(q: Reading, options: Options, parse: Parser, k: nat)
    requires k < |FixedFields|
    ensures Batch(q, options, parse)[k]
         == Record(FixedFields[k].path, Convert(FixedFields[k].conversion, Field(q, FixedFields[k].key, parse)))
  {
    var fixed := FixedRecords(q, parse);
    assert Batch(q, options, parse)[k] == fixed[k];
  }

  /** The paths of the first eleven records depend on nothing. */
  lemma FixedPathsIgnoreInput(q1: Reading, options1: Options, parse1: Parser,
                              q2: Reading, options2: Options, parse2: Parser, k: nat)
    requires k < 11
    ensures Batch(q1, options1, parse1)[k].path == Batch(q2, options2, parse2)[k].path == FixedFields[k].path
  {
    FixedSection(q1, options1, parse1, k);
    FixedSection(q2, options2, parse2, k);
  }

  /** Records 2 and 3 carry the same converted relative pressure. */
  lemma RelativePressureTwice(q: Reading, options: Options, parse: Parser)
    ensures Batch(q, options, parse)[2] == Record("environment.ecowitt.outside.pressure", Inhg2Pascal(Field(q, "baromrelin", parse)))
    ensures Batch(q, options, parse)[3] == Record("environment.ecowitt.inside.relpressure", Inhg2Pascal(Field(q, "baromrelin", parse)))
  {
    FixedSection(q, options, parse, 2);
    FixedSection(q, options, parse, 3);
  }

  /** A fixed field missing from the reading still yields its record, valued NaN. */
  lemma MissingFixedFieldIsNaN(q: Reading, options: Options, parse: Parser, k: nat)
    requires k < |FixedFields| && FixedFields[k].key !in q
    ensures Batch(q, options, parse)[k] == Record(FixedFields[k].path, NaN)
  {
    FixedSection(q, options, parse, k);
    ConvertKeepsNaN(FixedFields[k].conversion);
  }

  /** Solar radiation and UV pass through unconverted; the two humidities
      are the parsed percentages divided by 100, with no rounding. */
  lemma UnconvertedAndRatioFields(q: Reading, options: Options, parse: Parser)
    ensures Batch(q, options, parse)[7].value == Field(q, "solarradiation", parse)
    ensures Batch(q, options, parse)[8].value == Field(q, "uv", parse)
    ensures var h := Field(q, "humidityin", parse); var r := Batch(q, options, parse)[1].value;
      (r.NaN? <==> h.NaN?) && (h.Num? ==> r.Num? && r.x * 100.0 == h.x)
    ensures var h := Field(q, "humidity", parse); var r := Batch(q, options, parse)[6].value;
      (r.NaN? <==> h.NaN?) && (h.Num? ==> r.Num? && r.x * 100.0 == h.x)
  {
    FixedSection(q, options, parse, 1);
    FixedSection(q, options, parse, 6);
    FixedSection(q, options, parse, 7);
    FixedSection(q, options, parse, 8);
  }

  /** Each gated channel reading is emitted: its record, at its configured
      path with its converted value, follows the fixed section at the rank
      the loop order gives it. */
  lemma ChannelRecordPlaced(q: Reading, options: Options, parse: Parser, n: Slot)
    requires SlotGated(q, options, n)
    ensures 11 + GatedCount(q, options, n) < 11 + GatedCount(q, options, SlotCount)
    ensures Batch(q, options, parse)[11 + GatedCount(q, options, n)] == SlotRecordAt(q, options, parse, n)
  {
    ChannelsAt(q, options, parse, ChannelCount, n);
    ChannelsLength(q, options, parse, ChannelCount);
    var channels := ChannelsThrough(q, options, parse, ChannelCount);
    assert Batch(q, options, parse)[11 + GatedCount(q, options, n)] == channels[GatedCount(q, options, n)];
  }

  /** Only gated channel readings are emitted: every record between the
      fixed section and the wind section is the record of a gated reading,
      the one of that rank. */
  lemma ChannelRecordOrigin(q: Reading, options: Options, parse: Parser, k: int)
    requires 11 <= k < 11 + GatedCount(q, options, SlotCount)
    ensures exists n: Slot :: SlotGated(q, options, n) && GatedCount(q, options, n) == k - 11
                              && Batch(q, options, parse)[k] == SlotRecordAt(q, options, parse, n)
  {
    RankSurjective(q, options, SlotCount, k - 11);
    var n: Slot :| SlotGated(q, options, n) && GatedCount(q, options, n) == k - 11;
    ChannelRecordPlaced(q, options, parse, n);
  }

  /** The wind section closes the batch: apparent speed, then apparent angle,
      each present exactly when its raw field is. */
  lemma WindSection(q: Reading, options: Options, parse: Parser)
    ensures var r := Batch(q, options, parse); var w := 11 + GatedCount(q, options, SlotCount);
      |r| == w + WindCount(q)
      && ("windspeedmph" in q ==> r[w] == Record(SpeedApparentPath, Mph2Mps(parse(q["windspeedmph"]))))
      && ("winddir" in q ==> r[|r| - 1] == Record(AngleApparentPath, Degrees2Radians(parse(q["winddir"]))))
  {
    ChannelsLength(q, options, parse, ChannelCount);
    var front := FixedRecords(q, parse) + ChannelsThrough(q, options, parse, ChannelCount);
    var wind := WindRecords(q, parse);
    assert Batch(q, options, parse) == front + wind;
  }
}
