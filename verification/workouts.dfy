/** The workout domain model of script.js:11-48: the `Workout` base class and
    its `Running` and `Cycling` subclasses, as one tagged datatype. */
module Workouts {
  import opened Digits

  /** The `[lat, lng]` pair of a map click. */
  datatype Coords = Coords(lat: real, lng: real)

  /** Zero-based calendar month, as `Date.getMonth` returns it. */
  type MonthIndex = m: int | 0 <= m < 12

  /** Day of the month, as `Date.getDate` returns it. */
  type DayOfMonth = d: int | 1 <= d <= 31 witness 1

  /** A `Date` object: its millisecond timestamp and the local calendar view of it. */
  datatype Date = Date(stamp: int, month: MonthIndex, day: DayOfMonth)

  /** One reading of the browser clock: `Date.now()` for the id and `new Date()` for the date. */
  datatype Clock = Clock(now: nat, today: Date)

  /** The subclass-specific part: the input field and the derived metric. */
  datatype Detail =
    | Running(cadence: real, pace: real)
    | Cycling(elevation: real, speed: real)

  datatype Workout = Workout(date: Date, id: string, coords: Coords,
                             distance: real, duration: real, detail: Detail)

  /** The `type` class field of each subclass. */
  const RunningType: string := "running"
  const CyclingType: string := "cycling"

  function TypeName(d: Detail): (t: string)
    ensures |t| == 7
    ensures t == RunningType <==> d.Running?
    ensures t == CyclingType <==> d.Cycling?
  {
    if d.Running? then RunningType else CyclingType
  }

  /** Number of trailing timestamp digits kept in an id. */
  const IdLength: nat := 10

  /** `(Date.now() + '').slice(-10)`: the last ten digits of the timestamp,
      or all of them when it has fewer. */
  function WorkoutId(now: nat): (id: string)
    ensures IsSuffix(id, Decimal(now))
    ensures |id| <= IdLength
    ensures |id| < IdLength ==> id == Decimal(now)
  {
    var s := Decimal(now);
    if |s| <= IdLength then s else s[|s| - IdLength..]
  }

  /** From the tenth digit on, an id is the timestamp modulo 10^10 ... */
  lemma IdIsLowDigits(now: nat)
    requires now >= Pow10(IdLength - 1)
    ensures WorkoutId(now) == Fixed(now, IdLength)
  {
    DecimalSuffix(now, IdLength);
  }

  /** ... so two clock readings 10^10 ms (about 116 days) apart give the same id:
      ids are not unique keys. */
  lemma IdRepeats(now: nat)
    requires now >= Pow10(IdLength - 1)
    ensures WorkoutId(now + Pow10(IdLength)) == WorkoutId(now)
  {
    var later := now + Pow10(IdLength);
    IdIsLowDigits(now);
    IdIsLowDigits(later);
    FixedPeriodic(now, IdLength);
    assert Fixed(later, IdLength) == Fixed(now, IdLength);
  }

  /** `duration / distance`: minutes per kilometre. */
  function Pace(distance: real, duration: real): (pace: real)
    requires distance != 0.0
    ensures pace * distance == duration
  {
    duration / distance
  }

  /** `distance / duration / 60`, kept exactly as written. */
  function Speed(distance: real, duration: real): (speed: real)
    requires duration != 0.0
    ensures speed * duration * 60.0 == distance
  {
    distance / duration / 60.0
  }

  /** The metric a workout would get from its constructor: the divisor is
      nonzero and the stored metric is the one computed from distance and duration. */
  predicate WellFormed(w: Workout) {
    match w.detail
    case Running(_, pace) => w.distance != 0.0 && pace == Pace(w.distance, w.duration)
    case Cycling(_, speed) => w.duration != 0.0 && speed == Speed(w.distance, w.duration)
  }

  /** `new Running(coords, distance, duration, cadence)`: the base fields, a
      fresh id and date from the clock, and the pace computed eagerly. */
  function NewRunning(coords: Coords, distance: real, duration: real, cadence: real, clock: Clock): (w: Workout)
    requires distance != 0.0
    ensures WellFormed(w)
    ensures w.coords == coords && w.distance == distance && w.duration == duration
    ensures w.detail.Running? && w.detail.cadence == cadence
    ensures w.detail.pace == Pace(distance, duration)
    ensures w.id == WorkoutId(clock.now) && w.date == clock.today
  {
    Workout(clock.today, WorkoutId(clock.now), coords, distance, duration,
            Running(cadence, Pace(distance, duration)))
  }

  /** `new Cycling(coords, distance, duration, elevation)`, computing the speed. */
  function NewCycling(coords: Coords, distance: real, duration: real, elevation: real, clock: Clock): (w: Workout)
    requires duration != 0.0
    ensures WellFormed(w)
    ensures w.coords == coords && w.distance == distance && w.duration == duration
    ensures w.detail.Cycling? && w.detail.elevation == elevation
    ensures w.detail.speed == Speed(distance, duration)
    ensures w.id == WorkoutId(clock.now) && w.date == clock.today
  {
    Workout(clock.today, WorkoutId(clock.now), coords, distance, duration,
            Cycling(elevation, Speed(distance, duration)))
  }

  /** `calcPace()`: stores the recomputed pace and returns it. Only the pace
      can change, and on a constructed running workout nothing changes. */
  function CalcPace(w: Workout): (result: (Workout, real))
    requires w.detail.Running? && w.distance != 0.0
    ensures result.1 * w.distance == w.duration
    ensures result.0.detail == Running(w.detail.cadence, result.1)
    ensures result.0.(detail := w.detail) == w
    ensures WellFormed(result.0)
    ensures WellFormed(w) ==> result == (w, w.detail.pace)
  {
    var pace := Pace(w.distance, w.duration);
    (w.(detail := w.detail.(pace := pace)), pace)
  }

  /** `calcSpeed()`: stores the recomputed speed and returns it. */
  function CalcSpeed(w: Workout): (result: (Workout, real))
    requires w.detail.Cycling? && w.duration != 0.0
    ensures result.1 * w.duration * 60.0 == w.distance
    ensures result.0.detail == Cycling(w.detail.elevation, result.1)
    ensures result.0.(detail := w.detail) == w
    ensures WellFormed(result.0)
    ensures WellFormed(w) ==> result == (w, w.detail.speed)
  {
    var speed := Speed(w.distance, w.duration);
    (w.(detail := w.detail.(speed := speed)), speed)
  }

  /** Recomputing the metric is idempotent: a second call sees the first call's result. */
  lemma CalcPaceIdempotent(w: Workout)
    requires w.detail.Running? && w.distance != 0.0
    ensures CalcPace(CalcPace(w).0) == CalcPace(w)
  {
  }

  lemma CalcSpeedIdempotent(w: Workout)
    requires w.detail.Cycling? && w.duration != 0.0
    ensures CalcSpeed(CalcSpeed(w).0) == CalcSpeed(w)
  {
  }

  /** Distance 5 km in 25 minutes is a pace of 5 min/km; 10 km in 30 minutes
      is a "speed" of 10/30/60 = 1/180. */
  lemma MetricExamples(coords: Coords, clock: Clock)
    ensures NewRunning(coords, 5.0, 25.0, 170.0, clock).detail.pace == 5.0
    ensures NewCycling(coords, 10.0, 30.0, 200.0, clock).detail.speed == 1.0 / 180.0
  {
  }
}
