/** `#setLocalStorage` and `#getLocalStorage` (script.js:220-241): the whole
    collection is written as one snapshot of flat records, and read back by
    dispatching on each record's `type`. */
module Persistence {
  import opened Wrappers
  import opened Workouts

  /** One serialised workout: the object `JSON.stringify` makes of a `Running`
      (with `cadence` and `pace`) or a `Cycling` (with `elevation` and `speed`).
      The fields the other subclass lacks are absent. */
  datatype Record = Record(date: Date, id: string, coords: Coords,
                           distance: real, duration: real, workoutType: string,
                           cadence: Option<real>, pace: Option<real>,
                           elevation: Option<real>, speed: Option<real>)

  /** The value stored under the `workouts` key, or None when nothing is stored. */
  type Snapshot = Option<seq<Record>>

  function ToRecord(w: Workout): (r: Record)
    ensures r.workoutType == TypeName(w.detail)
    ensures r.date == w.date && r.id == w.id && r.coords == w.coords
    ensures r.distance == w.distance && r.duration == w.duration
    ensures w.detail.Running? ==>
      r.cadence == Some(w.detail.cadence) && r.pace == Some(w.detail.pace) && r.elevation.None? && r.speed.None?
    ensures w.detail.Cycling? ==>
      r.elevation == Some(w.detail.elevation) && r.speed == Some(w.detail.speed) && r.cadence.None? && r.pace.None?
  {
    match w.detail
    case Running(cadence, pace) =>
      Record(w.date, w.id, w.coords, w.distance, w.duration, RunningType,
             Some(cadence), Some(pace), None, None)
    case Cycling(elevation, speed) =>
      Record(w.date, w.id, w.coords, w.distance, w.duration, CyclingType,
             None, None, Some(elevation), Some(speed))
  }

  /** `#setLocalStorage`: the snapshot is replaced by the whole collection, in order. */
  function Save(workouts: seq<Workout>): (snapshot: Snapshot)
    ensures snapshot.Some? && |snapshot.value| == |workouts|
    ensures forall i :: 0 <= i < |workouts| ==> snapshot.value[i] == ToRecord(workouts[i])
  {
    Some(seq(|workouts|, i requires 0 <= i < |workouts| => ToRecord(workouts[i])))
  }

  /** A record `#getLocalStorage` can rebuild: a known type, the type's own
      field present, and a nonzero divisor for the recomputed metric. */
  predicate Loadable(r: Record) {
    || (r.workoutType == RunningType && r.cadence.Some? && r.distance != 0.0)
    || (r.workoutType == CyclingType && r.elevation.Some? && r.duration != 0.0)
  }

  predicate LoadableSnapshot(snapshot: Snapshot) {
    snapshot.Some? ==> forall i :: 0 <= i < |snapshot.value| ==> Loadable(snapshot.value[i])
  }

  /** Rebuilds one record through its subclass constructor, which reads the
      clock and recomputes the metric, then overwrites `id` and `date` with the
      stored ones. */
  function Rebuild(r: Record, clock: Clock): (w: Workout)
    requires Loadable(r)
    ensures WellFormed(w)
    ensures TypeName(w.detail) == r.workoutType
    ensures w.id == r.id && w.date == r.date && w.coords == r.coords
    ensures w.distance == r.distance && w.duration == r.duration
    ensures w.detail.Running? ==> Some(w.detail.cadence) == r.cadence
    ensures w.detail.Cycling? ==> Some(w.detail.elevation) == r.elevation
  {
    var built :=
      if r.workoutType == RunningType then NewRunning(r.coords, r.distance, r.duration, r.cadence.value, clock)
      else NewCycling(r.coords, r.distance, r.duration, r.elevation.value, clock);
    built.(id := r.id, date := r.date)
  }

  /** `#getLocalStorage`: an absent snapshot leaves the (empty) collection as
      it is; otherwise every record is rebuilt, in stored order. */
  function Load(snapshot: Snapshot, clock: Clock): (workouts: seq<Workout>)
    requires LoadableSnapshot(snapshot)
    ensures snapshot.None? ==> workouts == []
    ensures snapshot.Some? ==> |workouts| == |snapshot.value|
    ensures snapshot.Some? ==> forall i :: 0 <= i < |workouts| ==> workouts[i] == Rebuild(snapshot.value[i], clock)
    ensures forall i :: 0 <= i < |workouts| ==> WellFormed(workouts[i])
  {
    match snapshot
    case None => []
    case Some(records) =>
      seq(|records|, i requires 0 <= i < |records| => Rebuild(records[i], clock))
  }

  predicate AllWellFormed(workouts: seq<Workout>) {
    forall i :: 0 <= i < |workouts| ==> WellFormed(workouts[i])
  }

  /** Saving produces only records that can be loaded. */
  lemma SaveIsLoadable(workouts: seq<Workout>)
    requires AllWellFormed(workouts)
    ensures LoadableSnapshot(Save(workouts))
  {
  }

  /** A record rebuilds to the workout it was made from. */
  lemma RebuildToRecord(w: Workout, clock: Clock)
    requires WellFormed(w)
    ensures Loadable(ToRecord(w))
    ensures Rebuild(ToRecord(w), clock) == w
  {
  }

  /** Loading a saved collection gives back the same workouts, in the same
      order, field for field, with the metric recomputed to the same value. */
  lemma LoadSave(workouts: seq<Workout>, clock: Clock)
    requires AllWellFormed(workouts)
    ensures LoadableSnapshot(Save(workouts))
    ensures Load(Save(workouts), clock) == workouts
  {
    SaveIsLoadable(workouts);
    var loaded := Load(Save(workouts), clock);
    forall i | 0 <= i < |workouts|
      ensures loaded[i] == workouts[i]
    {
      RebuildToRecord(workouts[i], clock);
    }
  }

  /** The clock the constructors read is irrelevant: id and date are overwritten. */
  lemma LoadIgnoresClock(snapshot: Snapshot, c: Clock, d: Clock)
    requires LoadableSnapshot(snapshot)
    ensures Load(snapshot, c) == Load(snapshot, d)
  {
    if snapshot.Some? {
      var records := snapshot.value;
      forall i | 0 <= i < |records|
        ensures Load(snapshot, c)[i] == Load(snapshot, d)[i]
      {
        assert Rebuild(records[i], c) == Rebuild(records[i], d);
      }
    }
  }

  /** The stored metric is never read back: a record without `pace`/`speed`
      loads to the same workout. */
  lemma RebuildIgnoresStoredMetric(r: Record, clock: Clock)
    requires Loadable(r)
    ensures Rebuild(r, clock) == Rebuild(r.(pace := None, speed := None), clock)
  {
  }
}
