// Model of the colour classifier node (cturtle/color_classifier): the hue
// wrap helper, the hue ranges written by the reconfigure callback, the
// per-channel colour filter and the arg-max / switch that turns the neural
// network's output vector into an output colour. Doubles are modelled as
// `real`; the network itself and the OpenCV image loops are not modelled.
module ColorClassification {

  // ---------------------------------------------------------------------------
  // wrapValue
  // ---------------------------------------------------------------------------

  /** `r` differs from `v` by exactly `k` whole periods of length `hi - lo`. */
  ghost predicate IsMultiple(r: real, v: real, k: int, lo: real, hi: real) {
    r - v == k as real * (hi - lo)
  }

  /**
   * `r` is what wrapValue(v, lo, hi) returns: `r` lies in [lo, hi], differs
   * from `v` by a whole number of periods (hi - lo), is `v` itself when `v` is
   * already in range, lands below `hi` when `v` was below `lo` (the upward loop
   * stops at the first value >= lo) and above `lo` when `v` was above `hi`.
   */
  ghost predicate IsWrapOf(v: real, lo: real, hi: real, r: real) {
    && lo <= r <= hi
    && (exists k: int :: IsMultiple(r, v, k, lo, hi))
    && (lo <= v <= hi ==> r == v)
    && (v < lo ==> r < hi)
    && (v > hi ==> lo < r)
  }

  lemma FloorStep(x: real)
    ensures (x - 1.0).Floor == x.Floor - 1
  {
  }

  lemma QuotientStep(a: real, d: real)
    requires d > 0.0
    ensures (a - d) / d == a / d - 1.0
  {
    calc {
      (a - d) / d;
      a / d - d / d;
      a / d - 1.0;
    }
  }

  /** One more period shifts the measure of the loops below down by one. */
  lemma MeasureStep(a: real, d: real)
    requires d > 0.0
    ensures ((a - d) / d).Floor == (a / d).Floor - 1
  {
    QuotientStep(a, d);
    FloorStep(a / d);
  }

  /**
   * wrapValue: adds the period while the value is below `lo`, then subtracts
   * it while the value is above `hi`. The source only calls it with
   * lo = 0 and hi = 360; with hi <= lo the first loop would not terminate.
   */
  method WrapValue(v: real, lo: real, hi: real) returns (r: real)
    requires lo < hi
    ensures IsWrapOf(v, lo, hi, r)
  {
    var d := hi - lo;
    r := v;
    ghost var k: int := 0;
    while r < lo
      invariant IsMultiple(r, v, k, lo, hi)
      invariant v < lo ==> r < hi
      invariant lo <= v ==> r == v
      decreases ((lo - r) / d).Floor
    {
      MeasureStep(lo - r, d);
      r := r + d;
      k := k + 1;
    }
    ghost var raised := r;
    while r > hi
      invariant IsMultiple(r, v, k, lo, hi)
      invariant lo <= r
      invariant raised > hi ==> lo < r
      invariant raised <= hi ==> r == raised
      decreases ((r - hi) / d).Floor
    {
      MeasureStep(r - hi, d);
      r := r - d;
      k := k - 1;
    }
    assert IsMultiple(r, v, k, lo, hi);
  }

  /** Shifts by at least one whole period move by at least one period length. */
  lemma MultipleBounds(k: int, d: real)
    requires d > 0.0
    ensures k >= 1 ==> k as real * d >= d
    ensures k <= -1 ==> k as real * d <= -d
  {
    if k >= 1 {
      assert (k - 1) as real * d >= 0.0;
    } else if k <= -1 {
      assert (-k - 1) as real * d >= 0.0;
    }
  }

  /** A shift by whole periods that is shorter than one period is no shift. */
  lemma SmallMultipleIsZero(m: real, k: int, d: real)
    requires d > 0.0 && m == k as real * d && -d < m < d
    ensures k == 0
  {
    MultipleBounds(k, d);
  }

  /**
   * The contract of WrapValue pins its result down: two results for the same
   * input are equal.
   */
  lemma WrapIsUnique(v: real, lo: real, hi: real, r1: real, r2: real)
    requires lo < hi
    requires IsWrapOf(v, lo, hi, r1) && IsWrapOf(v, lo, hi, r2)
    ensures r1 == r2
  {
    if v < lo || v > hi {
      var d := hi - lo;
      var k1: int :| IsMultiple(r1, v, k1, lo, hi);
      var k2: int :| IsMultiple(r2, v, k2, lo, hi);
      var m := r1 - r2;
      assert -d < m < d;
      calc {
        m;
        (r1 - v) - (r2 - v);
        k1 as real * d - k2 as real * d;
        (k1 - k2) as real * d;
      }
      SmallMultipleIsZero(m, k1 - k2, d);
    }
  }

  /** wrapValue is the identity on [lo, hi], endpoints included. */
  lemma WrapFixesInRange(v: real, lo: real, hi: real, r: real)
    requires lo < hi && lo <= v <= hi
    requires IsWrapOf(v, lo, hi, r)
    ensures r == v
  {
  }

  /** Wrapping an already wrapped value changes nothing. */
  lemma {:induction false} WrapIsIdempotent(v: real, lo: real, hi: real, r: real, r': real)
    requires lo < hi
    requires IsWrapOf(v, lo, hi, r) && IsWrapOf(r, lo, hi, r')
    ensures r' == r
  {
  }

  // ---------------------------------------------------------------------------
  // reconfigureCB
  // ---------------------------------------------------------------------------

  /** A hue interval in degrees (ColorSpectrumHSV's per-colour range). */
  datatype HueRange = HueRange(min: real, max: real)

  /** The fields of the dynamic-reconfigure message the callback reads. */
  datatype ColorClassifierConfig = ColorClassifierConfig(
    redHC: real, redHR: real,
    orangeHC: real, orangeHR: real,
    yellowHC: real, yellowHR: real,
    greenHC: real, greenHR: real,
    blueHC: real, blueHR: real,
    msSpatialRadius: real, msColorRatius: real,
    msMaxLevel: int, msMaxIter: int, msMinEpsilon: real,
    enableColorFilter: bool, enableMeanshift: bool, enableThresholding: bool,
    blackLThreshold: real, whiteLThreshold: real, unknownSThreshold: real)

  /** The range centred on hue `c` with radius `r`, both bounds wrapped into [0, 360]. */
  ghost predicate IsHueRangeFor(c: real, r: real, range: HueRange) {
    IsWrapOf(c - r, 0.0, 360.0, range.min) && IsWrapOf(c + r, 0.0, 360.0, range.max)
  }

  /** The hue range that the callback computes always lies within [0, 360]. */
  lemma HueRangeWithinCircle(c: real, r: real, range: HueRange)
    requires IsHueRangeFor(c, r, range)
    ensures 0.0 <= range.min <= 360.0 && 0.0 <= range.max <= 360.0
  {
  }

  /** One colour's range in reconfigureCB: wrap(c - r, 0, 360) to wrap(c + r, 0, 360). */
  method HueRangeAround(c: real, r: real) returns (range: HueRange)
    ensures IsHueRangeFor(c, r, range)
  {
    var lo := WrapValue(c - r, 0.0, 360.0);
    var hi := WrapValue(c + r, 0.0, 360.0);
    range := HueRange(lo, hi);
  }

  /** ColorSpectrumHSV: the five hue ranges and the lightness/saturation thresholds. */
  datatype ColorSpectrumHSV = ColorSpectrumHSV(
    red: HueRange, orange: HueRange, yellow: HueRange, green: HueRange, blue: HueRange,
    blackLThreshold: real, whiteLThreshold: real, unknownSThreshold: real)

  /** The spectrum that reconfigureCB derives from `config`. */
  ghost predicate IsSpectrumFor(config: ColorClassifierConfig, s: ColorSpectrumHSV) {
    && IsHueRangeFor(config.redHC, config.redHR, s.red)
    && IsHueRangeFor(config.orangeHC, config.orangeHR, s.orange)
    && IsHueRangeFor(config.yellowHC, config.yellowHR, s.yellow)
    && IsHueRangeFor(config.greenHC, config.greenHR, s.green)
    && IsHueRangeFor(config.blueHC, config.blueHR, s.blue)
    && s.blackLThreshold == config.blackLThreshold
    && s.whiteLThreshold == config.whiteLThreshold
    && s.unknownSThreshold == config.unknownSThreshold
  }

  /** The spectrum part of reconfigureCB. */
  method SpectrumFor(config: ColorClassifierConfig) returns (s: ColorSpectrumHSV)
    ensures IsSpectrumFor(config, s)
  {
    var red := HueRangeAround(config.redHC, config.redHR);
    var orange := HueRangeAround(config.orangeHC, config.orangeHR);
    var yellow := HueRangeAround(config.yellowHC, config.yellowHR);
    var green := HueRangeAround(config.greenHC, config.greenHR);
    var blue := HueRangeAround(config.blueHC, config.blueHR);
    s := ColorSpectrumHSV(red, orange, yellow, green, blue,
                          config.blackLThreshold, config.whiteLThreshold, config.unknownSThreshold);
  }

  class ColorClassifier {
    var spectrum: ColorSpectrumHSV
    var msSpatialRadius: real
    var msColorRatius: real
    var msMaxLevel: int
    var msMaxIter: int
    var msMinEpsilon: real
    var enableThresholding: bool
    var enableMeanshift: bool
    var enableColorFilter: bool
    var reconfigureInitialized: bool

    /**
     * The constructor's initCfgParams() sets up the reconfigure server, whose
     * first callback is taken to arrive synchronously with the server's
     * initial configuration. Loading the network from its file is outside
     * this model.
     */
    constructor (initialConfig: ColorClassifierConfig)
      ensures IsSpectrumFor(initialConfig, spectrum)
      ensures msSpatialRadius == initialConfig.msSpatialRadius && msColorRatius == initialConfig.msColorRatius
      ensures msMaxLevel == initialConfig.msMaxLevel && msMaxIter == initialConfig.msMaxIter
      ensures msMinEpsilon == initialConfig.msMinEpsilon
      ensures enableColorFilter == initialConfig.enableColorFilter && enableMeanshift == initialConfig.enableMeanshift
      ensures enableThresholding == initialConfig.enableThresholding
      ensures reconfigureInitialized
    {
      new;
      ReconfigureCB(initialConfig);
    }

    /** reconfigureCB: recomputes the spectrum and copies the other settings. */
    method ReconfigureCB(config: ColorClassifierConfig)
      modifies this
      ensures IsSpectrumFor(config, spectrum)
      ensures msSpatialRadius == config.msSpatialRadius && msColorRatius == config.msColorRatius
      ensures msMaxLevel == config.msMaxLevel && msMaxIter == config.msMaxIter
      ensures msMinEpsilon == config.msMinEpsilon
      ensures enableColorFilter == config.enableColorFilter && enableMeanshift == config.enableMeanshift
      ensures enableThresholding == config.enableThresholding
      ensures reconfigureInitialized
    {
      spectrum := SpectrumFor(config);

      msSpatialRadius := config.msSpatialRadius;
      msColorRatius := config.msColorRatius;
      msMaxLevel := config.msMaxLevel;
      msMaxIter := config.msMaxIter;
      msMinEpsilon := config.msMinEpsilon;

      enableColorFilter := config.enableColorFilter;
      enableMeanshift := config.enableMeanshift;
      enableThresholding := config.enableThresholding;

      reconfigureInitialized := true;
    }
  }

  // ---------------------------------------------------------------------------
  // filterColor
  // ---------------------------------------------------------------------------

  type Byte = x: int | 0 <= x < 256

  /** An 8-bit, three-channel pixel (cv::Vec3b); channel 0 first. */
  datatype Pixel = Pixel(c0: Byte, c1: Byte, c2: Byte)

  /** Subtracts `offset` from a channel, stopping at zero. */
  function SaturatingSub(x: Byte, offset: nat): (r: Byte)
    ensures r <= x
    ensures r + offset >= x
    ensures r == 0 || r + offset == x
  {
    if x - offset > 0 then x - offset else 0
  }

  /** filterColor: per-channel saturating subtraction of 122, 93 and 16. */
  function FilterColor(p: Pixel): (r: Pixel)
    ensures r.c0 <= p.c0 && r.c1 <= p.c1 && r.c2 <= p.c2
    ensures r.c0 == (if p.c0 > 122 then p.c0 - 122 else 0)
    ensures r.c1 == (if p.c1 > 93 then p.c1 - 93 else 0)
    ensures r.c2 == (if p.c2 > 16 then p.c2 - 16 else 0)
  {
    Pixel(SaturatingSub(p.c0, 122), SaturatingSub(p.c1, 93), SaturatingSub(p.c2, 16))
  }

  /** Brighter input channels never give darker output channels. */
  lemma FilterColorMonotone(p: Pixel, q: Pixel)
    requires p.c0 <= q.c0 && p.c1 <= q.c1 && p.c2 <= q.c2
    ensures FilterColor(p).c0 <= FilterColor(q).c0
    ensures FilterColor(p).c1 <= FilterColor(q).c1
    ensures FilterColor(p).c2 <= FilterColor(q).c2
  {
  }

  // ---------------------------------------------------------------------------
  // classifyPixel: arg-max over the network output, then the colour switch
  // ---------------------------------------------------------------------------

  /**
   * `idx` is the arg-max the loop computes: starting from (-1.0, 0), the
   * first index whose output is strictly greater than -1.0 and than every
   * earlier output, and at least every later output; 0 when no output
   * exceeds -1.0.
   */
  ghost predicate IsFirstMax(output: seq<real>, idx: int) {
    if exists i :: 0 <= i < |output| && output[i] > -1.0 then
      && 0 <= idx < |output|
      && output[idx] > -1.0
      && (forall j :: 0 <= j < |output| ==> output[j] <= output[idx])
      && (forall j :: 0 <= j < idx ==> output[j] < output[idx])
    else
      idx == 0
  }

  method ArgMax(output: seq<real>) returns (maxIndex: int)
    ensures IsFirstMax(output, maxIndex)
  {
    var maxOutput := -1.0;
    maxIndex := 0;
    var found := false;
    for i := 0 to |output|
      invariant 0 <= maxIndex < |output| || (maxIndex == 0 && !found)
      invariant found <==> exists j :: 0 <= j < i && output[j] > -1.0
      invariant found ==> maxIndex < i && maxOutput == output[maxIndex] && maxOutput > -1.0
      invariant !found ==> maxOutput == -1.0 && maxIndex == 0
      invariant forall j :: 0 <= j < i ==> output[j] <= maxOutput
      invariant forall j :: 0 <= j < maxIndex ==> output[j] < maxOutput
    {
      if output[i] > maxOutput {
        maxOutput := output[i];
        maxIndex := i;
        found := true;
      }
    }
  }

  /** Two arg-max results for the same output vector are the same index. */
  lemma ArgMaxIsUnique(output: seq<real>, a: int, b: int)
    requires IsFirstMax(output, a) && IsFirstMax(output, b)
    ensures a == b
  {
  }

  /** The colours of the classifier output (OutputColorRGB). */
  datatype Color = Red | Orange | Yellow | Green | Blue | Black | White | Unknown

  /** The ColorIds enumerator of each colour, in declaration order. */
  function ColorId(c: Color): int {
    match c
    case Red => 0
    case Orange => 1
    case Yellow => 2
    case Green => 3
    case Blue => 4
    case Black => 5
    case White => 6
    case Unknown => 7
  }

  /** The switch of classifyPixel: a ColorIds value to its output colour, anything else to unknown. */
  function ColorForIndex(i: int): (c: Color)
    ensures c != Unknown ==> ColorId(c) == i
    ensures 0 <= i < 8 ==> ColorId(c) == i
    ensures !(0 <= i < 8) ==> c == Unknown
  {
    if i == ColorId(Red) then Red
    else if i == ColorId(Orange) then Orange
    else if i == ColorId(Yellow) then Yellow
    else if i == ColorId(Green) then Green
    else if i == ColorId(Blue) then Blue
    else if i == ColorId(Black) then Black
    else if i == ColorId(White) then White
    else Unknown
  }

  /** Every colour's identifier is mapped back to that colour. */
  lemma ColorForIndexRoundTrip(c: Color)
    ensures ColorForIndex(ColorId(c)) == c
  {
  }

  /** An index that is no colour's identifier yields unknown. */
  lemma ColorForOtherIndex(i: int)
    requires forall c: Color :: ColorId(c) != i
    ensures ColorForIndex(i) == Unknown
  {
  }

  /** classifyPixel after the network has produced `output`. */
  method ClassifyOutput(output: seq<real>) returns (color: Color)
    ensures exists i :: IsFirstMax(output, i) && color == ColorForIndex(i)
    ensures forall i :: IsFirstMax(output, i) ==> color == ColorForIndex(i)
  {
    var maxIndex := ArgMax(output);
    color := ColorForIndex(maxIndex);
    assert IsFirstMax(output, maxIndex) && color == ColorForIndex(maxIndex);
    forall i | IsFirstMax(output, i)
      ensures color == ColorForIndex(i)
    {
      ArgMaxIsUnique(output, i, maxIndex);
    }
  }
}
