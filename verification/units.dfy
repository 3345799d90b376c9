/** The unit converters of the Ecowitt gateway plugin.

    Each converter scales (and for temperature, offsets) its input and then
    applies Math.round, either to a whole number or to two decimal places.
    Numbers are modelled over the reals: the value is either NaN, what
    parseFloat yields for a missing or unparsable field, or a finite value.
 */
module Units {

  /** A JavaScript number as the ingestion handler sees it. */
  datatype Number = NaN | Num(x: real)

  /** True when y has no fractional part. */
  predicate IsWhole(y: real) {
    y.Floor as real == y
  }

  /** Math.round on a finite value: the nearest integer, halves rounded up. */
  function Round(x: real): (r: int)
    ensures r as real - 0.5 <= x < r as real + 0.5
  {
    (x + 0.5).Floor
  }

  /** Math.round has exactly one possible answer. */
  lemma RoundUnique(x: real, k: int)
    requires k as real - 0.5 <= x < k as real + 0.5
    ensures Round(x) == k
  {
  }

  /** inhg2pascal: inches of mercury to whole pascals. */
  function Inhg2Pascal(inhg: Number): (r: Number)
    ensures r.NaN? <==> inhg.NaN?
    ensures inhg.Num? ==> r.Num? && IsWhole(r.x) && -0.5 < r.x - inhg.x * 3386.0 <= 0.5
  {
    match inhg
    case NaN => NaN
    case Num(v) => Num(Round(v * 3386.0) as real)
  }

  /** fahrenheit2kelvin: degrees Fahrenheit to whole kelvins. */
  function Fahrenheit2Kelvin(f: Number): (r: Number)
    ensures r.NaN? <==> f.NaN?
    ensures f.Num? ==> r.Num? && IsWhole(r.x) && -0.5 < r.x - ((f.x - 32.0) * 5.0 / 9.0 + 273.15) <= 0.5
  {
    match f
    case NaN => NaN
    case Num(v) => Num(Round((v - 32.0) * 5.0 / 9.0 + 273.15) as real)
  }

  /** degrees2radians: degrees to radians, kept to two decimals, with 0.01745 rad per degree. */
  function Degrees2Radians(d: Number): (r: Number)
    ensures r.NaN? <==> d.NaN?
    ensures d.Num? ==> r.Num? && IsWhole(r.x * 100.0) && -0.005 < r.x - d.x * 0.01745 <= 0.005
  {
    match d
    case NaN => NaN
    case Num(v) => Num(Round(v * 0.01745 * 100.0) as real / 100.0)
  }

  /** mph2mps: miles per hour to metres per second, kept to two decimals. */
  function Mph2Mps(s: Number): (r: Number)
    ensures r.NaN? <==> s.NaN?
    ensures s.Num? ==> r.Num? && IsWhole(r.x * 100.0) && -0.005 < r.x - s.x * 0.44704 <= 0.005
  {
    match s
    case NaN => NaN
    case Num(v) => Num(Round(v * 0.44704 * 100.0) as real / 100.0)
  }

  /** inch2mm: inches to whole millimetres. */
  function Inch2Mm(i: Number): (r: Number)
    ensures r.NaN? <==> i.NaN?
    ensures i.Num? ==> r.Num? && IsWhole(r.x) && -0.5 < r.x - i.x * 2.54 <= 0.5
  {
    match i
    case NaN => NaN
    case Num(v) => Num(Round(v * 2.54) as real)
  }

  /** The handler's `/100` on a humidity percentage: a ratio, not rounded. */
  function DivideBy100(p: Number): (r: Number)
    ensures r.NaN? <==> p.NaN?
    ensures p.Num? ==> r.Num? && r.x * 100.0 == p.x
  {
    match p
    case NaN => NaN
    case Num(v) => Num(v / 100.0)
  }
}
