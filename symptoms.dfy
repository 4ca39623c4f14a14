/**
 * The verdicts of one analysis window as pure functions of the six input
 * axes: the reference that SymptomDetector.Analyze is proved against.
 */
module Symptoms {
  import opened Numerics
  import opened Statistics
  import opened Bands
  import opened Gait

  datatype SymptomResults = SymptomResults(
    tremorDetected: bool,
    tremorIntensity: real,
    dyskinesiaDetected: bool,
    dyskinesiaIntensity: real,
    fogDetected: bool,
    fogIntensity: real)

  /** An intensity must exceed this absolute level to count as detected. */
  const DetectionLevel: real := 0.25
  /** ... and must exceed the 0-2 Hz background by this factor. */
  const BackgroundMargin: real := 1.2
  /** Steps per second above which the wearer counts as walking. */
  const WalkingCadence: real := 0.3
  /** Magnitude variance below which the last third counts as frozen. */
  const FrozenVariance: real := 0.01
  /** The last third must have less than this fraction of the first third's variance. */
  const SuddenStopRatio: real := 0.5
  /** The half-window variance at and above which the freezing intensity is 0. */
  const FogVarianceScale: real := 0.005

  /** The tremor and dyskinesia rule: an absolute level and a margin over the background. */
  predicate Detected(intensity: real, background: real) {
    intensity > DetectionLevel && intensity > background * BackgroundMargin
  }

  /** The freezing rule of detectFOG: walking, then frozen, and a sudden drop in variance. */
  predicate FogRule(cadence: real, firstAccelVariance: real, lastAccelVariance: real, lastGyroVariance: real) {
    && cadence > WalkingCadence
    && lastAccelVariance < FrozenVariance && lastGyroVariance < FrozenVariance
    && lastAccelVariance < firstAccelVariance * SuddenStopRatio
  }

  predicate SameLength(ax: seq<real>, ay: seq<real>, az: seq<real>, gx: seq<real>, gy: seq<real>, gz: seq<real>) {
    |ax| == |ay| == |az| == |gx| == |gy| == |gz|
  }

  /**
   * detectFOG for a window: the first third is [0, t) and the last third is
   * [2t, 3t) with t = |window| / 3; the samples past 3t are never read.
   */
  function FogVerdict(cadence: real, ax: seq<real>, ay: seq<real>, az: seq<real>,
                      gx: seq<real>, gy: seq<real>, gz: seq<real>, sqrt: real -> real): bool
    requires SameLength(ax, ay, az, gx, gy, gz) && |ax| >= 3
  {
    var t := |ax| / 3;
    FogRule(cadence,
            CombinedVariance(ax[..t], ay[..t], az[..t], sqrt),
            CombinedVariance(ax[2 * t..3 * t], ay[2 * t..3 * t], az[2 * t..3 * t], sqrt),
            CombinedVariance(gx[2 * t..3 * t], gy[2 * t..3 * t], gz[2 * t..3 * t], sqrt))
  }

  /** The freezing score: 1 for no variance, falling linearly to 0 at FogVarianceScale. */
  function FogScore(variance: real): (r: real)
    ensures 0.0 <= r <= 1.0
    ensures r == 0.0 <==> variance >= FogVarianceScale
    ensures r == 1.0 <==> variance <= 0.0
  {
    Min(1.0, Max(0.0, (FogVarianceScale - variance) / FogVarianceScale))
  }

  /** calculateFOGIntensity: the score of the variance of the second half of the magnitudes. */
  function FogIntensity(mag: seq<real>): real
    requires |mag| > 0
  {
    FogScore(Variance(mag[|mag| / 2..]))
  }

  /** The 0-2 Hz background both movement rules compare against. */
  function Background(px: seq<real>, py: seq<real>, pz: seq<real>, ops: MathOps): real {
    Intensity3(px, py, pz, 0.0, 2.0, ops)
  }

  /** The results analyze returns for a window, and the cadence it leaves behind. */
  function Verdicts(ax: seq<real>, ay: seq<real>, az: seq<real>,
                    gx: seq<real>, gy: seq<real>, gz: seq<real>, ops: MathOps): SymptomResults
    requires SameLength(ax, ay, az, gx, gy, gz) && |ax| >= 3
  {
    var px, py, pz := Demean(ax), Demean(ay), Demean(az);
    var tremor := Intensity3(px, py, pz, 3.0, 5.0, ops);
    var dyskinesia := Intensity3(px, py, pz, 5.0, 7.0, ops);
    var background := Background(px, py, pz, ops);
    var mag := MagnitudeSeries(ax, ay, az, ops.sqrt);
    var cadence := WindowCadence(mag, ops.sqrt);
    SymptomResults(
      Detected(tremor, background), tremor,
      Detected(dyskinesia, background), dyskinesia,
      FogVerdict(cadence, ax, ay, az, gx, gy, gz, ops.sqrt), FogIntensity(mag))
  }

  // ---------------------------------------------------------------------
  // Properties of the verdicts
  // ---------------------------------------------------------------------

  /** Every intensity lies in [0, 1], and a detection implies an intensity above 0.25. */
  lemma VerdictsInRange(ax: seq<real>, ay: seq<real>, az: seq<real>,
                        gx: seq<real>, gy: seq<real>, gz: seq<real>, ops: MathOps)
    requires SameLength(ax, ay, az, gx, gy, gz) && |ax| >= 3
    requires ModulusNonNegative(ops.modulus)
    ensures var r := Verdicts(ax, ay, az, gx, gy, gz, ops);
      && 0.0 <= r.tremorIntensity <= 1.0
      && 0.0 <= r.dyskinesiaIntensity <= 1.0
      && 0.0 <= r.fogIntensity <= 1.0
      && (r.tremorDetected ==> r.tremorIntensity > DetectionLevel)
      && (r.dyskinesiaDetected ==> r.dyskinesiaIntensity > DetectionLevel)
  {
    var px, py, pz := Demean(ax), Demean(ay), Demean(az);
    Intensity3Bounds(px, py, pz, 3.0, 5.0, ops);
    Intensity3Bounds(px, py, pz, 5.0, 7.0, ops);
  }

  /**
   * A background of at least 1/1.2 masks both movement rules: no intensity
   * in [0, 1] can exceed it by the margin.
   */
  lemma SaturatedBackgroundMasks(ax: seq<real>, ay: seq<real>, az: seq<real>,
                                 gx: seq<real>, gy: seq<real>, gz: seq<real>, ops: MathOps)
    requires SameLength(ax, ay, az, gx, gy, gz) && |ax| >= 3
    requires ModulusNonNegative(ops.modulus)
    requires Background(Demean(ax), Demean(ay), Demean(az), ops) * BackgroundMargin >= 1.0
    ensures !Verdicts(ax, ay, az, gx, gy, gz, ops).tremorDetected
    ensures !Verdicts(ax, ay, az, gx, gy, gz, ops).dyskinesiaDetected
  {
    VerdictsInRange(ax, ay, az, gx, gy, gz, ops);
  }

  /** A magnitude window without variance in its second half has freezing intensity 1. */
  lemma StillSecondHalf(mag: seq<real>, c: real)
    requires |mag| > 0 && Constant(mag[|mag| / 2..], c)
    ensures FogIntensity(mag) == 1.0
  {
    ConstantStatistics(mag[|mag| / 2..], c);
  }

  /**
   * A motionless window (every acceleration axis constant, whatever the
   * gyroscope reads): no tremor or dyskinesia at all, no freezing verdict
   * because no step was counted, and full freezing intensity.
   */
  lemma MotionlessWindow(ax: seq<real>, ay: seq<real>, az: seq<real>,
                         gx: seq<real>, gy: seq<real>, gz: seq<real>,
                         cx: real, cy: real, cz: real, ops: MathOps)
    requires SameLength(ax, ay, az, gx, gy, gz) && |ax| >= 3
    requires Constant(ax, cx) && Constant(ay, cy) && Constant(az, cz)
    requires ModulusOfZero(ops.modulus) && SqrtOfZero(ops.sqrt)
    ensures Verdicts(ax, ay, az, gx, gy, gz, ops)
         == SymptomResults(false, 0.0, false, 0.0, false, 1.0)
  {
    var px, py, pz := Demean(ax), Demean(ay), Demean(az);
    DemeanOfConstant(ax, cx);
    DemeanOfConstant(ay, cy);
    DemeanOfConstant(az, cz);
    SilentAxis(px, 3.0, 5.0, ops);
    SilentAxis(py, 3.0, 5.0, ops);
    SilentAxis(pz, 3.0, 5.0, ops);
    SilentAxis(px, 5.0, 7.0, ops);
    SilentAxis(py, 5.0, 7.0, ops);
    SilentAxis(pz, 5.0, 7.0, ops);
    SilentAxis(px, 0.0, 2.0, ops);
    SilentAxis(py, 0.0, 2.0, ops);
    SilentAxis(pz, 0.0, 2.0, ops);
    var mag := MagnitudeSeries(ax, ay, az, ops.sqrt);
    var c := Magnitude(cx, cy, cz, ops.sqrt);
    MagnitudeOfConstant(ax, ay, az, cx, cy, cz, ops.sqrt);
    ConstantWindowHasNoSteps(mag, c, ops.sqrt);
    StillSecondHalf(mag, c);
  }
}
