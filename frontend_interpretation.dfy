/**
 * What the results card of the prediction page derives from the stored
 * `result` and the current `parameters` (frontend/src/App.js:238-305):
 * the progress bar, the maintenance suggestion, the debug panel and the
 * "outside typical ranges" note.
 */
module Interpretation {
  import opened Wrappers
  import opened AppParameters

  /** The debug object the service may return; the page only shows it. */
  datatype DebugDetails = DebugDetails(json: string)

  /** `response.data` of a successful prediction. */
  datatype Payload = Payload(
    lifespanKm: real,
    lifespanMiles: real,
    classification: string,
    debugInfo: Option<DebugDetails>)

  const FULL_SCALE_KM: real := 150000.0
  const SHORT_BELOW_KM: real := 30000.0
  const AVERAGE_BELOW_KM: real := 60000.0

  /** Width of the progress fill, in percent: `Math.min(km / 150000 * 100, 100)`. */
  function ProgressPercent(km: real): (pct: real)
    ensures pct <= 100.0
    ensures pct == 100.0 <==> km >= FULL_SCALE_KM
    ensures km < FULL_SCALE_KM ==> pct * FULL_SCALE_KM == km * 100.0
    ensures km >= 0.0 ==> pct >= 0.0
  {
    var raw := km / FULL_SCALE_KM * 100.0;
    if raw < 100.0 then raw else 100.0
  }

  /** The three suggestion boxes. */
  datatype Bucket = ShortLifespan | AverageLifespan | GoodLifespan

  /** The nested conditional that picks the suggestion box. */
  function MaintenanceBucket(km: real): (b: Bucket)
  {
    if km < SHORT_BELOW_KM then ShortLifespan
    else if km < AVERAGE_BELOW_KM then AverageLifespan
    else GoodLifespan
  }

  /** Exactly one box applies, with inclusive-exclusive boundaries. */
  lemma BucketCharacterisation(km: real)
    ensures MaintenanceBucket(km) == ShortLifespan <==> km < 30000.0
    ensures MaintenanceBucket(km) == AverageLifespan <==> 30000.0 <= km < 60000.0
    ensures MaintenanceBucket(km) == GoodLifespan <==> km >= 60000.0
  {
  }

  function Rank(b: Bucket): nat
  {
    match b
    case ShortLifespan => 0
    case AverageLifespan => 1
    case GoodLifespan => 2
  }

  /** A longer predicted lifespan never gets a worse suggestion box. */
  lemma BucketMonotone(km1: real, km2: real)
    requires km1 <= km2
    ensures Rank(MaintenanceBucket(km1)) <= Rank(MaintenanceBucket(km2))
  {
  }

  /** The box agrees with the progress bar: Short below a fifth of full
      scale, Good from two fifths on. */
  lemma BucketAgreesWithProgress(km: real)
    ensures MaintenanceBucket(km) == ShortLifespan <==> ProgressPercent(km) < 20.0
    ensures MaintenanceBucket(km) == GoodLifespan <==> ProgressPercent(km) >= 40.0
  {
  }

  /** The "outside typical ranges" note, as written on the page. */
  function OutsideTypicalRanges(p: Parameters): bool
  {
    p.pressure > 50.0 || p.load > 5000.0 || p.temp > 50.0 || p.speed > 120.0
  }

  /** The typical upper limit of each key that has one. */
  function TypicalLimit(f: Field): Option<real>
  {
    match f
    case Pressure => Some(50.0)
    case Load => Some(5000.0)
    case Temp => Some(50.0)
    case Speed => Some(120.0)
    case _ => None
  }

  predicate Exceeds(p: Parameters, f: Field)
  {
    TypicalLimit(f).Some? && Get(p, f).Num? && Get(p, f).x > TypicalLimit(f).value
  }

  /** The note shows iff some key with a typical limit holds a number above it. */
  lemma WarningIffSomeKeyExceeds(p: Parameters)
    ensures OutsideTypicalRanges(p) <==> exists f :: Exceeds(p, f)
  {
    if OutsideTypicalRanges(p) {
      if p.pressure > 50.0 { assert Exceeds(p, Pressure); }
      else if p.load > 5000.0 { assert Exceeds(p, Load); }
      else if p.temp > 50.0 { assert Exceeds(p, Temp); }
      else { assert Exceeds(p, Speed); }
    }
  }

  /** The tkph rating, the road surface and the debug flag never affect the note. */
  lemma WarningIgnoresOtherKeys(p: Parameters, c: Change)
    requires c.Target() in {Tkph, RoadCondition, DebugMode}
    ensures OutsideTypicalRanges(Apply(p, c)) == OutsideTypicalRanges(p)
  {
  }

  /** The page's starting inputs are all typical. */
  lemma InitialIsTypical()
    ensures !OutsideTypicalRanges(INITIAL)
  {
  }

  /** The debug panel: shown only when the checkbox is ticked now and the
      payload carries debug information. */
  function DebugPanel(p: Parameters, r: Payload): (shown: Option<DebugDetails>)
    ensures shown.Some? <==> p.debugMode && r.debugInfo.Some?
    ensures shown.Some? ==> shown == r.debugInfo
  {
    if p.debugMode && r.debugInfo.Some? then r.debugInfo else None
  }

  /** Everything the results card derives. */
  datatype Interpreted = Interpreted(
    progressPercent: real,
    bucket: Bucket,
    debug: Option<DebugDetails>,
    warning: bool)

  /** The card, rendered from the stored result and the LIVE parameters. */
  function Interpret(r: Payload, p: Parameters): (v: Interpreted)
    ensures v.progressPercent <= 100.0
    ensures v.bucket == MaintenanceBucket(r.lifespanKm)
    ensures v.debug.Some? ==> p.debugMode
  {
    Interpreted(ProgressPercent(r.lifespanKm), MaintenanceBucket(r.lifespanKm),
                DebugPanel(p, r), OutsideTypicalRanges(p))
  }

  /** The card reads the parameters at render time: editing an input after
      a result arrived changes the note without a new prediction. */
  lemma InterpretationFollowsLiveParameters(r: Payload, p: Parameters, x: real)
    requires !OutsideTypicalRanges(p)
    requires x > 50.0
    ensures !Interpret(r, p).warning
    ensures Interpret(r, Apply(p, SetPressure(x))).warning
  {
  }

  /** Unticking the checkbox hides the debug panel of a result already shown. */
  lemma UntickingHidesDebug(r: Payload, p: Parameters)
    ensures Interpret(r, Apply(p, SetDebugMode(false))).debug.None?
  {
  }

  /** Worked boundary values. */
  lemma BoundaryExamples()
    ensures MaintenanceBucket(29999.999) == ShortLifespan
    ensures MaintenanceBucket(30000.0) == AverageLifespan
    ensures MaintenanceBucket(59999.999) == AverageLifespan
    ensures MaintenanceBucket(60000.0) == GoodLifespan
    ensures ProgressPercent(225000.0) == 100.0
    ensures ProgressPercent(75000.0) == 50.0
    ensures OutsideTypicalRanges(INITIAL.(pressure := 50.1))
    ensures !OutsideTypicalRanges(INITIAL.(pressure := 50.0))
  {
  }
}
