/** The `App` class of script.js:50-247 as an immutable state and one
    transition function per event it handles. Map drawing, markers, popups,
    geolocation and focus changes have no state here. */
module App {
  import opened Wrappers
  import opened JsNumber
  import opened Workouts
  import opened Persistence

  /** An input field, as the unary `+` of `#newWorkout` converts it: a blank
      field is the empty string, which converts to 0. */
  datatype Field = Blank | Entered(number: Num)

  function ToNumber(f: Field): (n: Num)
    ensures f.Blank? ==> n == Finite(0.0)
    ensures ValidNumber(n) ==> f.Entered?
    ensures f.Entered? ==> n == f.number
  {
    match f
    case Blank => Finite(0.0)
    case Entered(n) => n
  }

  /** The four numeric inputs of the form. */
  datatype Form = Form(distance: Field, duration: Field, cadence: Field, elevation: Field)

  const BlankForm: Form := Form(Blank, Blank, Blank, Blank)

  /** The value of the workout-type select. */
  datatype Kind = RunningKind | CyclingKind

  datatype AppState = AppState(
    workouts: seq<Workout>,      // #workouts
    storage: Snapshot,           // localStorage 'workouts'
    formHidden: bool,            // form has class 'hidden'
    form: Form,                  // the four input values
    kind: Kind,                  // inputType.value
    mapEvent: Option<Coords>,    // #mapEvent.latlng, None before the first click
    displayed: seq<string>,      // ids of the list entries, top to bottom
    listeners: nat,              // registered keydown listeners
    cadenceRowHidden: bool,
    elevationRowHidden: bool)

  const EscapeKey: string := "Escape"

  /** The expected list order, independent of how it is built: the most
      recent workout first, the oldest last. */
  function NewestFirst(workouts: seq<Workout>): (ids: seq<string>)
    ensures |ids| == |workouts|
  {
    seq(|workouts|, i requires 0 <= i < |workouts| => workouts[|workouts| - 1 - i].id)
  }

  /** `#renderWorkout`: the new entry is inserted right after the form, that
      is, at the top of the list. */
  function RenderWorkout(displayed: seq<string>, w: Workout): (r: seq<string>)
    ensures |r| == |displayed| + 1 && r[0] == w.id && r[1..] == displayed
  {
    [w.id] + displayed
  }

  /** Rendering a collection entry by entry, in collection order, as
      `#getLocalStorage` does, lists it newest first above what was there. */
  function RenderAll(displayed: seq<string>, workouts: seq<Workout>): (r: seq<string>)
    ensures r == NewestFirst(workouts) + displayed
    decreases |workouts|
  {
    if |workouts| == 0 then displayed
    else RenderAll(RenderWorkout(displayed, workouts[0]), workouts[1..])
  }

  /** `new App()`: load the snapshot and render every loaded workout. The form
      starts hidden and blank with "running" selected, so only the cadence
      row shows. */
  function Init(snapshot: Snapshot, clock: Clock): (s: AppState)
    requires LoadableSnapshot(snapshot)
    ensures s.storage == snapshot
    ensures s.workouts == Load(snapshot, clock)
    ensures snapshot.None? ==> s.workouts == [] && s.displayed == []
    ensures s.displayed == NewestFirst(s.workouts)
    ensures s.formHidden && s.form == BlankForm && s.mapEvent.None? && s.listeners == 0
    ensures s.kind == RunningKind && !s.cadenceRowHidden && s.elevationRowHidden
  {
    var workouts := Load(snapshot, clock);
    AppState(workouts, snapshot, true, BlankForm, RunningKind, None,
             RenderAll([], workouts), 0, false, true)
  }

  /** `#hideForm`: blanks the four inputs and hides the form. It leaves the
      keydown listeners registered. */
  function HideForm(s: AppState): (r: AppState)
    ensures r.formHidden && r.form == BlankForm
    ensures r.listeners == s.listeners
    ensures r.(formHidden := s.formHidden, form := s.form) == s
  {
    s.(formHidden := true, form := BlankForm)
  }

  /** `#showForm`: records the click, shows the form and registers one more
      `{ once: true }` keydown listener. */
  function ShowForm(s: AppState, at: Coords): (r: AppState)
    ensures r.mapEvent == Some(at) && !r.formHidden
    ensures r.listeners == s.listeners + 1
    ensures r.(mapEvent := s.mapEvent, formHidden := s.formHidden, listeners := s.listeners) == s
  {
    s.(mapEvent := Some(at), formHidden := false, listeners := s.listeners + 1)
  }

  /** `#toggleElevationField`: flips the hidden class of both rows. */
  function ToggleElevationField(s: AppState): (r: AppState)
    ensures r.cadenceRowHidden == !s.cadenceRowHidden
    ensures r.elevationRowHidden == !s.elevationRowHidden
    ensures r.(cadenceRowHidden := s.cadenceRowHidden, elevationRowHidden := s.elevationRowHidden) == s
  {
    s.(cadenceRowHidden := !s.cadenceRowHidden, elevationRowHidden := !s.elevationRowHidden)
  }

  /** A 'change' of the type select: with two options the value flips, and
      the handler toggles the rows. */
  function ChangeType(s: AppState): (r: AppState)
    ensures r.kind != s.kind
    ensures r.cadenceRowHidden != s.cadenceRowHidden && r.elevationRowHidden != s.elevationRowHidden
    ensures r.(kind := s.kind, cadenceRowHidden := s.cadenceRowHidden,
               elevationRowHidden := s.elevationRowHidden) == s
  {
    var flipped := if s.kind == RunningKind then CyclingKind else RunningKind;
    ToggleElevationField(s.(kind := flipped))
  }

  /** The user typing into the form; no handler of the app runs. */
  function EditForm(s: AppState, form: Form): (r: AppState)
    ensures r.form == form && r.(form := s.form) == s
  {
    s.(form := form)
  }

  /** `#cancelWorkout`: only Escape hides the form. */
  function CancelWorkout(s: AppState, key: string): (r: AppState)
    ensures key == EscapeKey ==> r == HideForm(s)
    ensures key != EscapeKey ==> r == s
  {
    if key == EscapeKey then HideForm(s) else s
  }

  /** Runs `n` registered listeners one after another. */
  function Fire(s: AppState, key: string, n: nat): (r: AppState)
    ensures r == if key == EscapeKey && n > 0 then HideForm(s) else s
    decreases n
  {
    if n == 0 then s else Fire(CancelWorkout(s, key), key, n - 1)
  }

  /** A keydown on the document: every registered listener is a `once`
      listener, so all are removed, and each runs `#cancelWorkout`. */
  function KeyDown(s: AppState, key: string): (r: AppState)
    ensures r.listeners == 0
    ensures key == EscapeKey && s.listeners > 0 ==> r == HideForm(s).(listeners := 0)
    ensures !(key == EscapeKey && s.listeners > 0) ==> r == s.(listeners := 0)
  {
    Fire(s.(listeners := 0), key, s.listeners)
  }

  /** The three numbers `validInput` sees: distance, duration and the
      selected type's own field. */
  function Inputs(s: AppState): seq<Num> {
    [ToNumber(s.form.distance), ToNumber(s.form.duration),
     if s.kind == RunningKind then ToNumber(s.form.cadence) else ToNumber(s.form.elevation)]
  }

  /** The successful tail of `#newWorkout`: push, render, hide, persist. */
  function Accept(s: AppState, w: Workout): (r: AppState)
    ensures r.workouts == s.workouts + [w]
    ensures |r.displayed| > 0 && r.displayed[0] == w.id && r.displayed[1..] == s.displayed
    ensures r.formHidden && r.form == BlankForm
    ensures r.storage == Save(r.workouts)
    ensures r.(workouts := s.workouts, displayed := s.displayed, formHidden := s.formHidden,
               form := s.form, storage := s.storage) == s
  {
    var workouts := s.workouts + [w];
    HideForm(s.(workouts := workouts, displayed := RenderWorkout(s.displayed, w)))
      .(storage := Save(workouts))
  }

  /** `#newWorkout`. Reading `#mapEvent.latlng` throws before any click, so a
      pending click is required. Invalid input returns before any change. */
  function NewWorkout(s: AppState, clock: Clock): (r: AppState)
    requires s.mapEvent.Some?
    ensures !ValidInput(Inputs(s)) ==> r == s
    ensures ValidInput(Inputs(s)) ==>
      && |r.workouts| == |s.workouts| + 1
      && r.workouts[..|s.workouts|] == s.workouts
      && var w := r.workouts[|s.workouts|];
      && w.coords == s.mapEvent.value
      && Finite(w.distance) == ToNumber(s.form.distance)
      && Finite(w.duration) == ToNumber(s.form.duration)
      && (w.detail.Running? <==> s.kind == RunningKind)
      && (w.detail.Running? ==> Finite(w.detail.cadence) == ToNumber(s.form.cadence))
      && (w.detail.Cycling? ==> Finite(w.detail.elevation) == ToNumber(s.form.elevation))
      && WellFormed(w)
      && w.id == WorkoutId(clock.now) && w.date == clock.today
      && r.displayed == [w.id] + s.displayed
      && r.formHidden && r.form == BlankForm
      && r.storage == Save(r.workouts)
      && r.mapEvent == s.mapEvent && r.listeners == s.listeners && r.kind == s.kind
      && r.cadenceRowHidden == s.cadenceRowHidden && r.elevationRowHidden == s.elevationRowHidden
  {
    var distance := ToNumber(s.form.distance);
    var duration := ToNumber(s.form.duration);
    var at := s.mapEvent.value;
    if s.kind == RunningKind then
      var cadence := ToNumber(s.form.cadence);
      var inputs := [distance, duration, cadence];
      if !ValidInput(inputs) then s
      else
        assert inputs[1] == duration && inputs[2] == cadence;
        Accept(s, NewRunning(at, distance.value, duration.value, cadence.value, clock))
    else
      var elevation := ToNumber(s.form.elevation);
      var inputs := [distance, duration, elevation];
      if !ValidInput(inputs) then s
      else
        assert inputs[1] == duration && inputs[2] == elevation;
        Accept(s, NewCycling(at, distance.value, duration.value, elevation.value, clock))
  }

  /** The `Array.prototype.find` of `#moveToPopup`: the first workout with the id. */
  function FindById(workouts: seq<Workout>, id: string): (found: Option<nat>)
    ensures found.Some? ==> found.value < |workouts| && workouts[found.value].id == id
    ensures found.Some? ==> forall j :: 0 <= j < found.value ==> workouts[j].id != id
    ensures found.None? ==> forall j :: 0 <= j < |workouts| ==> workouts[j].id != id
    decreases |workouts|
  {
    if |workouts| == 0 then None
    else if workouts[0].id == id then Some(0)
    else match FindById(workouts[1..], id)
      case None => None
      case Some(k) => Some(k + 1)
  }

  predicate HasId(workouts: seq<Workout>, id: string) {
    exists i :: 0 <= i < |workouts| && workouts[i].id == id
  }

  /** `#moveToPopup`: a click outside any entry returns at once; otherwise the
      map pans to the first workout carrying the entry's id. An id with no
      workout makes the source throw, so it is excluded. The state never changes. */
  function MoveToPopup(s: AppState, entry: Option<string>): (pan: Option<Coords>)
    requires entry.Some? ==> HasId(s.workouts, entry.value)
    ensures entry.None? ==> pan.None?
    ensures entry.Some? ==>
      exists i :: (&& 0 <= i < |s.workouts| && s.workouts[i].id == entry.value
                   && pan == Some(s.workouts[i].coords)
                   && forall j :: 0 <= j < i ==> s.workouts[j].id != entry.value)
  {
    match entry
    case None => None
    case Some(id) =>
      var i := FindById(s.workouts, id);
      if i.None? then None else Some(s.workouts[i.value].coords)
  }

  /** `reset()`: clear the storage and reload, which starts a fresh app on an
      absent snapshot. */
  function Reset(clock: Clock): (r: AppState)
    ensures r.workouts == [] && r.storage.None? && r.displayed == []
    ensures r.formHidden && r.form == BlankForm && r.mapEvent.None? && r.listeners == 0
  {
    Init(None, clock)
  }
}
