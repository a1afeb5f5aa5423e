/** The app driven one event at a time, the invariant every event keeps, and
    the listener and ordering behaviour of script.js:69-75, 108-156 and 188. */
module Events {
  import opened Wrappers
  import opened JsNumber
  import opened Workouts
  import opened Persistence
  import opened App

  datatype Event =
    | MapClick(at: Coords)              // map 'click' -> #showForm
    | Key(key: string)                  // document 'keydown'
    | TypeChange                        // inputType 'change' -> #toggleElevationField
    | Edit(form: Form)                  // the user types into the form
    | Submit(clock: Clock)              // form 'submit' -> #newWorkout
    | EntryClick(entry: Option<string>) // list 'click' -> #moveToPopup
    | ResetCommand(clock: Clock)        // reset()

  /** The events the source handles without throwing. */
  predicate Enabled(s: AppState, e: Event) {
    match e
    case Submit(_) => s.mapEvent.Some?
    case EntryClick(entry) => entry.Some? ==> HasId(s.workouts, entry.value)
    case _ => true
  }

  function Step(s: AppState, e: Event): (r: AppState)
    requires Enabled(s, e)
    ensures e.EntryClick? ==> r == s
    ensures e.ResetCommand? ==> r.workouts == [] && r.storage.None?
  {
    match e
    case MapClick(at) => ShowForm(s, at)
    case Key(key) => KeyDown(s, key)
    case TypeChange => ChangeType(s)
    case Edit(form) => EditForm(s, form)
    case Submit(clock) => NewWorkout(s, clock)
    case EntryClick(_) => s
    case ResetCommand(clock) => Reset(clock)
  }

  /** Every prefix of the run is enabled. */
  predicate Runnable(s: AppState, events: seq<Event>)
    decreases |events|
  {
    |events| == 0 || (Enabled(s, events[0]) && Runnable(Step(s, events[0]), events[1..]))
  }

  function Run(s: AppState, events: seq<Event>): AppState
    requires Runnable(s, events)
    decreases |events|
  {
    if |events| == 0 then s else Run(Step(s, events[0]), events[1..])
  }

  /** What holds between events: the list shows the collection newest first,
      the visible row is the selected type's, and the stored snapshot loads
      back to exactly the in-memory collection. */
  ghost predicate Inv(s: AppState) {
    && AllWellFormed(s.workouts)
    && s.displayed == NewestFirst(s.workouts)
    && s.cadenceRowHidden == (s.kind == CyclingKind)
    && s.elevationRowHidden == (s.kind == RunningKind)
    && LoadableSnapshot(s.storage)
    && forall c: Clock :: Load(s.storage, c) == s.workouts
  }

  lemma InitEstablishesInv(snapshot: Snapshot, clock: Clock)
    requires LoadableSnapshot(snapshot)
    ensures Inv(Init(snapshot, clock))
  {
    forall c: Clock
      ensures Load(snapshot, c) == Init(snapshot, clock).workouts
    {
      LoadIgnoresClock(snapshot, c, clock);
    }
  }

  lemma NewestFirstAppend(workouts: seq<Workout>, w: Workout)
    ensures NewestFirst(workouts + [w]) == [w.id] + NewestFirst(workouts)
  {
    var all := workouts + [w];
    assert NewestFirst(all)[0] == w.id;
    assert NewestFirst(all)[1..] == NewestFirst(workouts);
  }

  /** Accepting a well-formed workout keeps the invariant. */
  lemma AcceptKeepsInv(s: AppState, w: Workout)
    requires Inv(s) && WellFormed(w)
    ensures Inv(Accept(s, w))
  {
    var r := Accept(s, w);
    assert r.workouts == s.workouts + [w];
    NewestFirstAppend(s.workouts, w);
    forall c: Clock
      ensures Load(r.storage, c) == r.workouts
    {
      LoadSave(r.workouts, c);
    }
  }

  lemma NewWorkoutKeepsInv(s: AppState, clock: Clock)
    requires Inv(s) && s.mapEvent.Some?
    ensures Inv(NewWorkout(s, clock))
  {
    if ValidInput(Inputs(s)) {
      var r := NewWorkout(s, clock);
      var w := r.workouts[|s.workouts|];
      assert r == Accept(s, w);
      AcceptKeepsInv(s, w);
    }
  }

  /** Every enabled event keeps the invariant. */
  lemma StepKeepsInv(s: AppState, e: Event)
    requires Inv(s) && Enabled(s, e)
    ensures Inv(Step(s, e))
  {
    match e
    case Submit(clock) => NewWorkoutKeepsInv(s, clock);
    case ResetCommand(clock) => InitEstablishesInv(None, clock);
    case _ =>
  }

  lemma {:induction false} RunKeepsInv(s: AppState, events: seq<Event>)
    requires Inv(s) && Runnable(s, events)
    ensures Inv(Run(s, events))
    decreases |events|
  {
    if |events| > 0 {
      StepKeepsInv(s, events[0]);
      RunKeepsInv(Step(s, events[0]), events[1..]);
    }
  }

  /** From any loadable snapshot, after any sequence of events, the most
      recently added workout heads the list and a reload restores the
      in-memory collection. */
  lemma SessionGuarantees(snapshot: Snapshot, boot: Clock, events: seq<Event>, reload: Clock)
    requires LoadableSnapshot(snapshot) && Runnable(Init(snapshot, boot), events)
    ensures var s := Run(Init(snapshot, boot), events);
      && |s.displayed| == |s.workouts|
      && (|s.workouts| > 0 ==> s.displayed[0] == s.workouts[|s.workouts| - 1].id)
      && LoadableSnapshot(s.storage) && Init(s.storage, reload).workouts == s.workouts
      && s.cadenceRowHidden != s.elevationRowHidden
  {
    InitEstablishesInv(snapshot, boot);
    RunKeepsInv(Init(snapshot, boot), events);
  }

  /** Toggling twice restores the rows. */
  lemma ToggleInvolution(s: AppState)
    ensures ToggleElevationField(ToggleElevationField(s)) == s
  {
  }

  /** Toggling keeps exactly one of the two rows visible. */
  lemma ToggleKeepsOneRow(s: AppState)
    requires s.cadenceRowHidden != s.elevationRowHidden
    ensures ToggleElevationField(s).cadenceRowHidden != ToggleElevationField(s).elevationRowHidden
  {
  }

  /** Hiding the form twice is hiding it once, which is why several
      accumulated listeners behave like one. */
  lemma HideFormIdempotent(s: AppState)
    ensures HideForm(HideForm(s)) == HideForm(s)
  {
  }

  /** Opening the form, pressing Escape and opening it twice more leaves two
      listeners registered: `#showForm` does not check for an existing one. */
  lemma ListenersAccumulate(s: AppState, a: Coords, b: Coords, c: Coords)
    ensures var t := ShowForm(ShowForm(KeyDown(ShowForm(s, a), EscapeKey), b), c);
      t.listeners == 2 && !t.formHidden
  {
  }

  /** The extra listeners are harmless: after the next key press the state is
      the same as if the form had been opened once. */
  lemma ExtraListenersHarmless(s: AppState, a: Coords, b: Coords, key: string)
    ensures KeyDown(ShowForm(ShowForm(s, a), b), key) == KeyDown(ShowForm(s, b), key)
  {
  }

  /** A key other than Escape removes the listeners but leaves the form open. */
  lemma OtherKeyKeepsForm(s: AppState, at: Coords, key: string)
    requires key != EscapeKey
    ensures var t := KeyDown(ShowForm(s, at), key);
      !t.formHidden && t.form == s.form && t.listeners == 0
  {
  }

  /** Two accepted submissions in a row: the second is listed above the first. */
  lemma LaterSubmissionListedFirst(s: AppState, first: Clock, form: Form, second: Clock)
    requires s.mapEvent.Some? && ValidInput(Inputs(s))
    requires ValidInput(Inputs(EditForm(NewWorkout(s, first), form)))
    ensures var t := NewWorkout(EditForm(NewWorkout(s, first), form), second);
      var n := |s.workouts|;
      && |t.workouts| == n + 2
      && t.displayed[0] == t.workouts[n + 1].id
      && t.displayed[1] == t.workouts[n].id
      && t.displayed[2..] == s.displayed
  {
    var t1 := NewWorkout(s, first);
    var t := NewWorkout(EditForm(t1, form), second);
    var n := |s.workouts|;
    assert |t1.workouts| == n + 1 && t1.displayed[0] == t1.workouts[n].id;
    assert t1.displayed[1..] == s.displayed;
    assert t.workouts[..n + 1] == t1.workouts;
    assert t.displayed[1..] == t1.displayed;
  }

  /** After `reset()` and the reload it triggers, nothing is stored and the
      collection and list are empty. */
  lemma ResetEmpties(s: AppState, clock: Clock, reload: Clock)
    ensures var r := Step(s, ResetCommand(clock));
      && r.workouts == [] && r.displayed == []
      && Load(r.storage, reload) == []
  {
  }
}
