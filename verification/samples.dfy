/** Worked examples: concrete gateway posts and the batches they produce.
    parseFloat is left abstract, so each example assumes only that it reads
    the decimal strings of the post as their decimal values. */
module Samples {
  import opened Units
  import opened Transform

  /** The converters on single sample values. */
  lemma ConverterSamples()
    ensures Fahrenheit2Kelvin(Num(50.0)) == Num(283.0)
    ensures Fahrenheit2Kelvin(Num(68.0)) == Num(293.0)
    ensures Fahrenheit2Kelvin(Num(75.0)) == Num(297.0)
    ensures Inhg2Pascal(Num(29.92)) == Num(101309.0)
    ensures Inhg2Pascal(Num(29.80)) == Num(100903.0)
    ensures Inch2Mm(Num(0.1)) == Num(0.0)
    ensures Inch2Mm(Num(0.2)) == Num(1.0)
    ensures Mph2Mps(Num(10.0)) == Num(4.47)
    ensures Degrees2Radians(Num(180.0)) == Num(3.14)
  {
    RoundUnique((50.0 - 32.0) * 5.0 / 9.0 + 273.15, 283);
    RoundUnique((68.0 - 32.0) * 5.0 / 9.0 + 273.15, 293);
    RoundUnique((75.0 - 32.0) * 5.0 / 9.0 + 273.15, 297);
    RoundUnique(29.92 * 3386.0, 101309);
    RoundUnique(29.80 * 3386.0, 100903);
    RoundUnique(0.1 * 2.54, 0);
    RoundUnique(0.2 * 2.54, 1);
    RoundUnique(10.0 * 0.44704 * 100.0, 447);
    RoundUnique(180.0 * 0.01745 * 100.0, 314);
  }

  /** A post carrying every fixed field and no channel or wind field. */
  const Sample: Reading := map[
    "tempinf" := "68", "humidityin" := "45", "baromrelin" := "29.92", "baromabsin" := "29.80",
    "tempf" := "75", "humidity" := "50", "solarradiation" := "120", "uv" := "3",
    "rrain_piezo" := "0.1", "drain_piezo" := "0.2"]

  /** parseFloat reads the strings of Sample as their decimal values. */
  predicate ParsesSample(parse: Parser) {
    parse("68") == Num(68.0) && parse("45") == Num(45.0) && parse("29.92") == Num(29.92)
    && parse("29.80") == Num(29.80) && parse("75") == Num(75.0) && parse("50") == Num(50.0)
    && parse("120") == Num(120.0) && parse("3") == Num(3.0) && parse("0.1") == Num(0.1)
    && parse("0.2") == Num(0.2)
  }

  /** The batch of Sample, whatever the configuration. */
  const SampleBatch: seq<Record> := [
    Record("environment.ecowitt.inside.temperature", Num(293.0)),
    Record("environment.ecowitt.inside.humidity", Num(0.45)),
    Record("environment.ecowitt.outside.pressure", Num(101309.0)),
    Record("environment.ecowitt.inside.relpressure", Num(101309.0)),
    Record("environment.ecowitt.inside.abspressure", Num(100903.0)),
    Record("environment.ecowitt.outside.temperature", Num(297.0)),
    Record("environment.ecowitt.outside.humidity", Num(0.5)),
    Record("environment.ecowitt.outside.solarradiation", Num(120.0)),
    Record("environment.ecowitt.outside.uv", Num(3.0)),
    Record("environment.ecowitt.outside.rrain_piezo", Num(0.0)),
    Record("environment.ecowitt.outside.drain_piezo", Num(1.0))
  ]

  /** The parsed fields of Sample. */
  lemma SampleFields(parse: Parser)
    requires ParsesSample(parse)
    ensures Field(Sample, "tempinf", parse) == Num(68.0) && Field(Sample, "humidityin", parse) == Num(45.0)
    ensures Field(Sample, "baromrelin", parse) == Num(29.92) && Field(Sample, "baromabsin", parse) == Num(29.80)
    ensures Field(Sample, "tempf", parse) == Num(75.0) && Field(Sample, "humidity", parse) == Num(50.0)
    ensures Field(Sample, "solarradiation", parse) == Num(120.0) && Field(Sample, "uv", parse) == Num(3.0)
    ensures Field(Sample, "rrain_piezo", parse) == Num(0.1) && Field(Sample, "drain_piezo", parse) == Num(0.2)
  {
  }

  /** The fixed section of Sample. */
  lemma SampleFixedRecords(parse: Parser)
    requires ParsesSample(parse)
    ensures FixedRecords(Sample, parse) == SampleBatch
  {
    SampleFields(parse);
    ConverterSamples();
  }

  /** A reading with no channel field makes the channel loop push nothing. */
  lemma NoChannelRecords(q: Reading, options: Options, parse: Parser)
    requires forall c: Channel, kind: Kind :: RawKey(c, kind) !in q
    ensures ChannelsThrough(q, options, parse, ChannelCount) == []
  {
    assert ChannelsThrough(q, options, parse, 1) == [];
    assert ChannelsThrough(q, options, parse, 2) == [];
  }

  /** A reading with no channel field and no wind field yields exactly the
      fixed section. */
  lemma OnlyFixedFields(q: Reading, options: Options, parse: Parser)
    requires forall c: Channel, kind: Kind :: RawKey(c, kind) !in q
    requires "windspeedmph" !in q && "winddir" !in q
    ensures Batch(q, options, parse) == FixedRecords(q, parse)
  {
    NoChannelRecords(q, options, parse);
  }

  /** Sample carries no channel field, and no channel field is a wind field. */
  lemma SampleChannelKeys(c: Channel, kind: Kind)
    ensures RawKey(c, kind) !in Sample
    ensures RawKey(c, kind) != "windspeedmph" && RawKey(c, kind) != "winddir"
    ensures RawKey(c, kind) == "temp1f" <==> c == 1 && kind == Temperature
  {
  }

  /** Sample produces its eleven fixed records and nothing else. */
  lemma SampleProducesSampleBatch(options: Options, parse: Parser)
    requires ParsesSample(parse)
    ensures Batch(Sample, options, parse) == SampleBatch
  {
    forall c: Channel, kind: Kind ensures RawKey(c, kind) !in Sample {
      SampleChannelKeys(c, kind);
    }
    OnlyFixedFields(Sample, options, parse);
    SampleFixedRecords(parse);
  }

  /** An empty body: eleven records, all NaN, and nothing more. */
  lemma EmptyReading(options: Options, parse: Parser)
    ensures |Batch(map[], options, parse)| == 11
    ensures forall k :: 0 <= k < 11 ==> Batch(map[], options, parse)[k] == Record(FixedFields[k].path, NaN)
  {
    OnlyFixedFields(map[], options, parse);
    forall k | 0 <= k < 11 ensures Batch(map[], options, parse)[k] == Record(FixedFields[k].path, NaN) {
      MissingFixedFieldIsNaN(map[], options, parse, k);
    }
  }

  /** Adding a field the fixed section does not read leaves the fixed section unchanged. */
  lemma FixedRecordsIgnoreOtherFields(q: Reading, key: string, raw: string, parse: Parser)
    requires forall k :: 0 <= k < |FixedFields| ==> FixedFields[k].key != key
    ensures FixedRecords(q[key := raw], parse) == FixedRecords(q, parse)
  {
    var a, b := FixedRecords(q[key := raw], parse), FixedRecords(q, parse);
    forall k | 0 <= k < 11 ensures a[k] == b[k] {
      assert Field(q[key := raw], FixedFields[k].key, parse) == Field(q, FixedFields[k].key, parse);
    }
  }

  /** With temp1f added to Sample, the channel loop pushes at most the channel-1 temperature. */
  lemma ChannelOneSampleChannels(options: Options, parse: Parser)
    ensures var q := Sample["temp1f" := "50"];
      ChannelsThrough(q, options, parse, ChannelCount) == SlotRecords(q, options, parse, 1, Temperature)
  {
    var q := Sample["temp1f" := "50"];
    SampleChannelKeys(1, Humidity);
    SampleChannelKeys(2, Temperature);
    SampleChannelKeys(2, Humidity);
    SampleChannelKeys(3, Temperature);
    SampleChannelKeys(3, Humidity);
    assert ChannelsThrough(q, options, parse, 1) == SlotRecords(q, options, parse, 1, Temperature);
    assert ChannelsThrough(q, options, parse, 2) == ChannelsThrough(q, options, parse, 1);
  }

  /** Adding a channel-1 temperature field to Sample adds one record at the
      configured path when that path is truthy, and none otherwise. */
  lemma ChannelOneSample(options: Options, parse: Parser)
    requires ParsesSample(parse)
    ensures var q := Sample["temp1f" := "50"];
      if "temp1" in options && options["temp1"] != ""
      then Batch(q, options, parse) == SampleBatch + [Record(options["temp1"], Num(283.0))]
      else Batch(q, options, parse) == SampleBatch
  {
    ChannelOneSampleLayout(options, parse);
    ConverterSamples();
  }

  /** With temp1f added to Sample, the batch is Sample's batch and then the
      channel-1 temperature push site's records. */
  lemma ChannelOneSampleLayout(options: Options, parse: Parser)
    requires ParsesSample(parse)
    ensures var q := Sample["temp1f" := "50"];
      Batch(q, options, parse) == SampleBatch + SlotRecords(q, options, parse, 1, Temperature)
  {
    var q := Sample["temp1f" := "50"];
    SampleFixedRecords(parse);
    FixedRecordsIgnoreOtherFields(Sample, "temp1f", "50", parse);
    ChannelOneSampleChannels(options, parse);
    SampleHasNoWind();
    assert WindRecords(q, parse) == [];
  }

  /** Sample carries no wind field. */
  lemma SampleHasNoWind()
    ensures "windspeedmph" !in Sample && "winddir" !in Sample
  {
  }

  /** Adding wind fields to Sample appends apparent speed and apparent angle. */
  lemma WindSample(options: Options, parse: Parser)
    requires ParsesSample(parse) && parse("10") == Num(10.0) && parse("180") == Num(180.0)
    ensures Batch(Sample["windspeedmph" := "10"]["winddir" := "180"], options, parse)
         == SampleBatch + [Record(SpeedApparentPath, Num(4.47)), Record(AngleApparentPath, Num(3.14))]
  {
    WindSampleLayout(options, parse);
    ConverterSamples();
    var q := Sample["windspeedmph" := "10"]["winddir" := "180"];
    assert WindRecords(q, parse) == [Record(SpeedApparentPath, Num(4.47)), Record(AngleApparentPath, Num(3.14))];
  }

  /** With wind fields added to Sample, the batch is Sample's batch and then the wind section. */
  lemma WindSampleLayout(options: Options, parse: Parser)
    requires ParsesSample(parse)
    ensures var q := Sample["windspeedmph" := "10"]["winddir" := "180"];
      Batch(q, options, parse) == SampleBatch + WindRecords(q, parse)
  {
    var q1 := Sample["windspeedmph" := "10"];
    var q := q1["winddir" := "180"];
    SampleFixedRecords(parse);
    FixedRecordsIgnoreOtherFields(Sample, "windspeedmph", "10", parse);
    FixedRecordsIgnoreOtherFields(q1, "winddir", "180", parse);
    forall c: Channel, kind: Kind ensures RawKey(c, kind) !in q {
      SampleChannelKeys(c, kind);
    }
    NoChannelRecords(q, options, parse);
  }
}
