# Ecowitt gateway ingestion, modelled in Dafny

The Signal K plugin for Ecowitt GW1000/GW2000 weather-station gateways
receives form-encoded HTTP POSTs from the gateway, converts each reading
from imperial units to SI units, and hands the host one delta per request:
a single update whose `values` are an ordered batch of `{path, value}`
records. This project models the part of `index.js` that does the work:

- `units.dfy` (module `Units`): the five unit converters `inhg2pascal`,
  `fahrenheit2kelvin`, `degrees2radians`, `mph2mps` and `inch2mm`, plus the
  `/100` applied to humidity percentages. Numbers are `NaN | Num(real)`;
  `Math.round` is `Floor(x + 0.5)`.
- `transform.dfy` (module `Transform`): the body of the POST `end` handler
  after the form body is parsed. `Batch` is the specification of the batch:
  the eleven fixed records, then the channel records for channels 1..3
  (temperature before humidity, each gated on its raw field being present
  and its configured path being truthy), then apparent wind speed and
  apparent wind angle (each gated on its raw field). `HandleEnd` builds the
  batch as the handler does, array literal first and then pushes, with the
  `for` loop in `PushChannelRecords`, and returns the delta. The runtime
  `eval` that reads `options.temp<i>` / `options.humidity<i>` is a static
  table, `OptionName`.
- `samples.dfy` (module `Samples`): concrete posts and the batches they
  produce.

Inputs the model takes as parameters: the parsed form body as
`map<string, string>`, the plugin options as `map<string, string>` (a
setting is truthy when present and non-empty), and `parseFloat` as an
arbitrary function `string -> Number`. A field absent from the body is
`undefined` in the handler, and `parseFloat(undefined)` is NaN; `Field`
models that.

Two consequences of the code that the model makes explicit:

- The pressure factor is 3386, so 29.92 inHg gives 101309 Pa and 29.80 inHg
  gives 100903 Pa (`Samples.ConverterSamples`, `Samples.SampleFixedRecords`).
- The eleven fixed records are emitted even when their fields are missing,
  with NaN values (`Transform.MissingFixedFieldIsNaN`), so not every emitted
  value is a finite number.

## Model

| member | source | states |
|---|---|---|
| `Units.Round` | index.js:31 | `Math.round` gives the integer r with r - 1/2 <= x < r + 1/2: the nearest integer, halves rounded up |
| `Units.RoundUnique` | index.js:31 | that integer is the only one in that half-open window, so rounding has one answer |
| `Units.Inhg2Pascal` | index.js:30-32 | NaN in iff NaN out; otherwise a whole number of pascals within (-1/2, 1/2] of inches × 3386 |
| `Units.Fahrenheit2Kelvin` | index.js:34-36 | NaN in iff NaN out; otherwise a whole number of kelvins within (-1/2, 1/2] of (f - 32) × 5/9 + 273.15 |
| `Units.Degrees2Radians` | index.js:38-40 | NaN in iff NaN out; otherwise a multiple of 0.01 within (-0.005, 0.005] of degrees × 0.01745 |
| `Units.Mph2Mps` | index.js:42-44 | NaN in iff NaN out; otherwise a multiple of 0.01 within (-0.005, 0.005] of mph × 0.44704 |
| `Units.Inch2Mm` | index.js:46-48 | NaN in iff NaN out; otherwise a whole number of millimetres within (-1/2, 1/2] of inches × 2.54 |
| `Units.DivideBy100` | index.js:66 | NaN in iff NaN out; otherwise the ratio times 100 gives back the percentage exactly (no rounding) |
| `Transform.Field` | index.js:65-74 | a field absent from the body is `undefined`, which parses to NaN; a present field is `parseFloat` of its string |
| `Transform.OptionName` | index.js:126-143 | the option read by `eval` for a channel reading is named after its raw field: the temperature option is the raw field without its trailing `f`, the humidity option is the raw field itself |
| `Transform.ConfiguredPath` | index.js:133-144 | the `eval` lookups and the `if (key)` tests (lines 133-134 and 143-144): a path is returned exactly when the option is set and non-empty, and it is that option's value, never empty |
| `Transform.ConvertKeepsNaN` | index.js:65-74 | every conversion applied to a fixed field maps NaN to NaN |
| `Transform.FixedRecords` | index.js:65-122 | the array literal holds exactly the eleven entries of the fixed-field table, in order: each is the table's hard-coded path with the table's conversion of the table's raw field |
| `Transform.KeyTablesMatchConcatenation` | index.js:126-143 | the static key and option tables hold exactly the names the handler builds: `temp`+i+`f`, `humidity`+i, `temp`+i, `humidity`+i |
| `Transform.ChannelsThrough` | index.js:125-151 | the records the loop has pushed after channels 1..n: at most two per channel, and none with an empty path |
| `Transform.WindRecords` | index.js:153-169 | one record per wind field present; the apparent speed, if `windspeedmph` is present, comes first and the apparent angle, if `winddir` is present, comes last |
| `Transform.Batch` | index.js:63-169 | the batch has 11 + (gated channel readings) + (wind fields present) records, hence between 11 and 19 |
| `Transform.PushChannelRecords` | index.js:125-151 | the channel loop appends, to whatever precedes it, exactly the channel section of `Batch`, channel by channel, temperature before humidity |
| `Transform.HandleEnd` | index.js:63-177 | the handler's literal-then-push construction yields exactly `Batch`, wrapped as one update from source `signalk-ecowitt` |
| `Transform.GatedCountBound` | index.js:125-151 | at most one record per channel reading: at most six channel records |
| `Transform.ChannelsLength` | index.js:125-151 | the loop over channels 1..n pushes one record per gated reading among the first 2n readings |
| `Transform.GatedCountStrict` | index.js:125-151 | records of gated readings appear in loop order: a reading earlier in the order gets a strictly smaller position |
| `Transform.LastChannelAt` | index.js:130-150 | in iteration i, the temperature record (if gated) is pushed first and the humidity record (if gated) right after it |
| `Transform.ChannelsAt` | index.js:125-151 | after the loop over channels 1..i, each gated reading of those channels sits at its rank among the pushed records |
| `Transform.ChannelsExtend` | index.js:125-151 | an iteration of the channel loop only appends: records pushed earlier keep their positions |
| `Transform.RankSurjective` | index.js:125-151 | every position of the channel section is the rank of some gated reading |
| `Transform.FixedSection` | index.js:77-122 | whatever the reading and configuration, the batch opens with the eleven fixed-table records |
| `Transform.FixedPathsIgnoreInput` | index.js:77-122 | the paths of the first eleven records are the hard-coded ones, independent of reading, configuration and parser |
| `Transform.RelativePressureTwice` | index.js:86-93 | records 2 and 3 are `outside.pressure` and `inside.relpressure`, both carrying inhg2pascal of `baromrelin` |
| `Transform.MissingFixedFieldIsNaN` | index.js:65-74 | a fixed field missing from the body still yields its record, valued NaN |
| `Transform.UnconvertedAndRatioFields` | index.js:66-72 | solar radiation and UV pass through unconverted; both humidities are the parsed percentage over 100, unrounded |
| `Transform.ChannelRecordPlaced` | index.js:125-151 | if a channel reading's raw field is present and its configured path truthy, its record (configured path, converted value) follows the fixed section at its rank |
| `Transform.ChannelRecordOrigin` | index.js:125-151 | conversely, every record between the fixed and wind sections is the record of a reading whose raw field is present and whose configured path is truthy |
| `Transform.WindSection` | index.js:153-169 | the batch ends with apparent wind speed (iff `windspeedmph` is present) and then apparent wind angle (iff `winddir` is present), at their fixed paths |
| `Samples.ConverterSamples` | index.js:30-48 | 50 °F is 283 K, 68 °F is 293 K, 75 °F is 297 K, 29.92 inHg is 101309 Pa, 29.80 inHg is 100903 Pa, 0.1 in is 0 mm, 0.2 in is 1 mm, 10 mph is 4.47 m/s, 180° is 3.14 rad |
| `Samples.SampleFixedRecords` | index.js:65-122 | the fixed section for a full sample post, value by value |
| `Samples.NoChannelRecords` | index.js:125-151 | a body without channel fields gets no channel records, whatever the configuration |
| `Samples.OnlyFixedFields` | index.js:63-169 | a body without channel and wind fields yields exactly the fixed section |
| `Samples.SampleProducesSampleBatch` | index.js:63-169 | the full sample post yields exactly its eleven records |
| `Samples.EmptyReading` | index.js:63-122 | an empty body yields exactly eleven records, all NaN, at the fixed paths |
| `Samples.FixedRecordsIgnoreOtherFields` | index.js:65-74 | fields the fixed section does not read do not change it |
| `Samples.ChannelOneSampleChannels` | index.js:125-151 | with only `temp1f` among the channel fields, the loop pushes at most the channel-1 temperature |
| `Samples.ChannelOneSampleLayout` | index.js:63-169 | with `temp1f` added to the sample post, the batch is the sample's eleven records followed by the channel-1 temperature push site's records |
| `Samples.ChannelOneSample` | index.js:125-140 | adding `temp1f=50` adds one record, 283 K at the configured `temp1` path, when that path is truthy, and nothing otherwise |
| `Samples.WindSampleLayout` | index.js:63-169 | with wind fields added to the sample post, the batch is the sample's eleven records followed by the wind section |
| `Samples.WindSample` | index.js:153-169 | adding `windspeedmph=10` and `winddir=180` appends 4.47 m/s then 3.14 rad at the apparent-wind paths |

## Left out

- The HTTP server, the method dispatch, the chunked body accumulation and `res.end()` (index.js:55-64, 179-183): transport I/O. The acknowledgement being sent before the batch is built does not affect the batch.
- `qs.parse` (index.js:63): a library call whose code is not part of this model. The model starts from the parsed body as a map from field name to string; repeated fields, which `qs.parse` turns into arrays, are not modelled.
- `parseFloat`: a library call, taken as an arbitrary parameter. The examples in `Samples` state the values they assume it returns.
- Floating point: values are reals, so the model does not reproduce IEEE-754 rounding error, infinities or negative zero; `Number` has no infinity case, so a `parseFloat` result of `Infinity` is not representable.
- `app.debug` tracing (index.js:127-132) and the `app.handleMessage` call (index.js:171-177): calls into the host. `HandleEnd` returns the delta instead of sending it.
- `plugin.start` / `plugin.stop` and the module-level `server` handle (index.js:24, 51-52, 183-188): lifecycle.
- `plugin.schema` (index.js:190-260): configuration metadata. Its path settings for the six fixed gateway fields are never read by the handler, whose fixed paths are hard-coded.
- Options whose values are not strings (numbers, booleans, objects), and JavaScript truthiness for them: only string settings are modelled, truthy when non-empty.
