# Mapty workout log: a Dafny model

Mapty is a browser app for logging running and cycling workouts at points
clicked on a map. This project models its core, `script.js`:

- the `Workout` / `Running` / `Cycling` classes with their derived pace and
  speed;
- the `validInput` check and `#newWorkout` submission;
- the workout description ("Running on January 1");
- saving the collection to `localStorage` and rebuilding it on start-up;
- the `App` controller as a state machine driven one event at a time.

Modules:

- `Wrappers`: `Option`.
- `JsNumber`: JavaScript numbers (`Finite(real) | NaN | PosInf | NegInf`) and `validInput`.
- `Digits`: decimal strings of timestamps and days.
- `Workouts`: the tagged workout datatype, its constructors, `calcPace`/`calcSpeed` and the id.
- `Descriptions`: `#workoutDescription`.
- `Persistence`: the snapshot as a list of flat records, with `Save` and `Load`.
- `App`: the controller state and one transition function per handler.
- `Events`: the event loop, the invariant every event keeps, and the listener and ordering properties.

Numbers are Dafny `real`, an idealisation of IEEE doubles. A form field is
`Blank` or holds the number its text converts to: the unary `+` turns an empty
field into 0. The browser clock is a parameter `Clock(now, today)`. `now` is
what `Date.now()` returns and `today` is what `new Date()` returns.

## Behaviour of the code worth knowing

- Each map click registers another `{ once: true }` keydown listener
  (script.js:112), and `#hideForm` removes none (script.js:99-106). Opening
  the form, pressing Escape and opening it twice more leaves two listeners
  (`Events.ListenersAccumulate`). The extra listeners change nothing
  observable: one key press removes them all, and hiding the form twice is
  the same as hiding it once (`Events.ExtraListenersHarmless`).
- `#mapEvent` is never cleared (script.js:109, 127). After a submission the
  previous click stays pending, and `App.NewWorkout` keeps it.
- Among the inputs that make the code throw rather than degrade:
  - a submission before the first map click, which reads `#mapEvent.latlng`
    of `undefined` (script.js:127);
  - an unparsable snapshot (script.js:225);
  - a snapshot that parses to a truthy non-array, which has no `map`
    (script.js:228);
  - a `null` stored record (script.js:230);
  - a stored record of unknown type (script.js:230-235);
  - a click on a list entry whose id matches no workout (script.js:211-212);
  - a click on a listed entry before the map exists. `#map` is set only
    when geolocation succeeds (script.js:78, 87), but stored entries are
    listed regardless (script.js:60, 238), so `this.#map.setView` reads
    `undefined` (script.js:212).

  The model excludes the first, the unknown type and the unknown id by
  preconditions. The `Snapshot` type cannot express the unparsable snapshot,
  the non-array or the `null` record. The missing map is not modelled (see
  "## Left out").

## Model

| member | source | states |
|---|---|---|
| `JsNumber.ValidNumber` | script.js:121 | one input passes exactly when it is a finite number strictly above 0; the truthiness test adds nothing |
| `JsNumber.ValidInput` | script.js:121 | `validInput(...inputs)` holds exactly when every input is finite and strictly positive |
| `JsNumber.ValidInputExamples` | script.js:121 | (1,2,3) passes; a 0, a -1, a NaN or an Infinity in first position fails |
| `Digits.Decimal` | script.js:13 | a number's decimal string is a non-empty digit string with no leading zero; the only string starting with '0' is "0" itself |
| `Digits.ParseDecimal` | script.js:13 | reading a printed number back gives the number |
| `Digits.DecimalInjective` | script.js:159 | distinct days print as distinct strings |
| `Workouts.WorkoutId` | script.js:13 | the id is a trailing part of the timestamp's decimal string, at most ten characters long, and the whole string when that is shorter than ten |
| `Workouts.IdIsLowDigits` | script.js:13 | for a timestamp of at least ten digits, the id is its value modulo 10^10, zero-padded |
| `Workouts.IdRepeats` | script.js:13 | timestamps 10^10 ms apart give the same id, so ids are not unique |
| `Workouts.Pace` | script.js:31 | pace times distance is duration |
| `Workouts.Speed` | script.js:45 | speed times duration times 60 is distance (the `/60` is kept as written) |
| `Workouts.NewRunning` | script.js:11-28 | a new running workout keeps its inputs, takes its id and date from the clock, and has pace = duration / distance |
| `Workouts.NewCycling` | script.js:36-42 | a new cycling workout keeps its inputs, takes its id and date from the clock, and has speed = distance / duration / 60 |
| `Workouts.CalcPace` | script.js:30-33 | `calcPace` returns duration / distance and changes no field but the pace; on a constructed workout it changes nothing |
| `Workouts.CalcSpeed` | script.js:44-47 | `calcSpeed` returns the recomputed speed and changes no field but the speed; on a constructed workout it changes nothing |
| `Workouts.CalcPaceIdempotent` | script.js:30-33 | calling `calcPace` twice gives what calling it once gives |
| `Workouts.CalcSpeedIdempotent` | script.js:44-47 | calling `calcSpeed` twice gives what calling it once gives |
| `Workouts.MetricExamples` | script.js:22-47 | 5 km in 25 min is a pace of 5; 10 km in 30 min is a speed of 1/180 |
| `Workouts.TypeName` | script.js:23-37 | the `type` class field: "running" exactly for a running workout and "cycling" exactly for a cycling one, both seven letters |
| `Descriptions.UpperChar` | script.js:159 | `toUpperCase` on a lower-case ASCII letter gives its upper-case letter, and leaves any other character unchanged |
| `Descriptions.Describe` | script.js:158-160 | the title is the capitalised type, " on ", the month name and the day; `Descriptions.DescribeDetermines` states what it determines |
| `Descriptions.Capitalize` | script.js:159 | the first letter is upper-cased and the rest is kept |
| `Descriptions.DescribeExample` | script.js:158-160 | a running workout dated month 0, day 1 is described as "Running on January 1" |
| `Descriptions.DescribeDetermines` | script.js:158-160 | two equal descriptions have the same type, month and day, so the month table and day digits are read back unambiguously |
| `Descriptions.MonthsDistinct` | script.js:2 | the twelve month names are pairwise distinct |
| `Persistence.ToRecord` | script.js:221 | a stored record carries the workout's type string, id, date, coords, distance and duration, plus cadence and pace for a running workout or elevation and speed for a cycling one, and not the other subclass's fields |
| `Persistence.Save` | script.js:220-222 | the snapshot is replaced by one record per workout, in collection order |
| `Persistence.Rebuild` | script.js:229-237 | a record is rebuilt as the variant its `type` names, with the metric recomputed and the stored id and date restored |
| `Persistence.Load` | script.js:224-241 | an absent snapshot leaves the collection empty; otherwise the i-th workout is the i-th stored record rebuilt, so the order and the stored fields are kept |
| `Persistence.LoadSave` | script.js:220-241 | loading what was saved gives the same collection, field for field and in order, with the same metric |
| `Persistence.LoadIgnoresClock` | script.js:228-236 | loading does not depend on the clock the constructors read, because id and date are overwritten |
| `Persistence.RebuildIgnoresStoredMetric` | script.js:230-233 | the stored pace or speed is never read back |
| `Persistence.SaveIsLoadable` | script.js:220-233 | every record written by a save can be rebuilt |
| `App.ToNumber` | script.js:125-126 | the unary `+`: a blank field converts to 0, so it never passes `validInput`; an entered value is its number |
| `App.Accept` | script.js:136-154 | the success tail pushes the workout at the end, lists it at the top, hides and blanks the form and saves the whole collection |
| `App.RenderWorkout` | script.js:188 | a rendered entry goes to the top of the list, above the earlier entries |
| `App.RenderAll` | script.js:228-240 | rendering a collection in order lists it newest first above what was shown |
| `App.Init` | script.js:57-67 | start-up keeps the snapshot, sets the collection to what loading it gives, and lists the workouts newest first; the form is hidden and blank with "running" selected and only the cadence row shown, with no pending click and no listener |
| `App.HideForm` | script.js:99-106 | the form is hidden and all four inputs are blanked; nothing else changes, including the listeners |
| `App.ShowForm` | script.js:108-113 | the click becomes the pending event, the form is shown and one more keydown listener is registered; nothing else changes |
| `App.ToggleElevationField` | script.js:115-118 | both row-hidden flags flip; nothing else changes |
| `App.ChangeType` | script.js:64 | a change of the type select flips the selected type and both row flags; nothing else changes |
| `App.CancelWorkout` | script.js:69-75 | Escape hides and blanks the form; any other key changes nothing |
| `App.Fire` | script.js:69-75 | running any positive number of listeners on Escape is one hide; otherwise it is nothing |
| `App.KeyDown` | script.js:112 | any key removes every listener; the form is hidden only on Escape with at least one listener registered |
| `App.NewWorkout` | script.js:120-156 | invalid input changes nothing; valid input appends one workout at the pending click's coords and adds it to the top of the list; the earlier workouts are kept, the form is hidden and blanked, the whole collection is saved, and the pending click, listeners, type and rows are kept |
| `App.FindById` | script.js:211 | the index returned is the first workout with the id; none is returned only when no workout has it |
| `App.MoveToPopup` | script.js:207-212 | a click outside any entry does nothing; otherwise the pan target is the first workout with the entry's id |
| `App.Reset` | script.js:243-246 | after a reset and reload nothing is stored, the collection and list are empty, and the in-memory state is discarded: form hidden and blank, no pending click, no listener |
| `Events.Step` | script.js:62-66 | a list click changes no state; a reset empties the collection and the storage |
| `Events.InitEstablishesInv` | script.js:57-67 | start-up from any loadable snapshot satisfies the invariant |
| `Events.AcceptKeepsInv` | script.js:136-154 | appending, rendering, hiding and saving a workout keeps the invariant |
| `Events.NewWorkoutKeepsInv` | script.js:120-156 | a submission, valid or not, keeps the invariant |
| `Events.StepKeepsInv` | script.js:57-246 | every event the code handles without throwing keeps the invariant |
| `Events.RunKeepsInv` | script.js:57-246 | any sequence of such events keeps the invariant |
| `Events.SessionGuarantees` | script.js:150-154 | in any session, the newest workout heads the list, a reload restores the collection, and exactly one type row is visible |
| `Events.NewestFirstAppend` | script.js:188 | adding a workout at the end of the collection adds its id at the top of the list |
| `Events.ToggleInvolution` | script.js:115-118 | toggling twice restores the state |
| `Events.ToggleKeepsOneRow` | script.js:115-118 | toggling keeps exactly one of the cadence and elevation rows visible |
| `Events.HideFormIdempotent` | script.js:99-106 | hiding the form twice is hiding it once |
| `Events.ListenersAccumulate` | script.js:108-113 | open, Escape, open, open leaves two listeners registered and the form shown |
| `Events.ExtraListenersHarmless` | script.js:69-75 | after the next key press, opening the form twice gives the same state as opening it once |
| `Events.OtherKeyKeepsForm` | script.js:69-75 | a non-Escape key removes the listeners but leaves the form open with its inputs |
| `Events.LaterSubmissionListedFirst` | script.js:150 | after two accepted submissions the second is listed first, then the first, then the earlier entries |
| `Events.ResetEmpties` | script.js:243-246 | after a reset a reload loads nothing |

## Left out

- Leaflet is left out because it is an external library: map creation, the tile layer, markers, popups and the animated `setView` (script.js:87-97, 191-205, 212-217). `MoveToPopup` returns the pan target instead.
- Geolocation and its `alert` (script.js:77-81) are left out because they are browser I/O. Map clicks may therefore arrive at any time, not only after the map is ready. This allows more event sequences than the browser does, so the invariant still holds for the real ones.
- The `alert("Invalid input")` on a rejected submission is output and has no state.
- The list entry's HTML, icons, units and the `toFixed(2)` formatting (script.js:163-187) are presentation. Only the insertion position of an entry is kept.
- `localStorage`, `JSON.stringify`/`JSON.parse`, ISO date strings and `location.reload` are library and browser I/O. The snapshot is an abstract list of records, and a `Date` survives the round trip exactly. The stored calendar view (month and day) is assumed to be read in the same time zone on load as on save; `getMonth()`/`getDate()` re-derive it from the timestamp in the loading browser's time zone.
- `document.activeElement.blur()` and `focus()` change only DOM focus.
- IEEE-754 rounding is not modelled: pace and speed are exact real quotients.
- The initial page state comes from the HTML markup, which is not part of this model. `App.Init` assumes a hidden blank form with "running" selected and only the cadence row visible.
- `Workouts.NewRunning` requires a nonzero distance and `Workouts.NewCycling` a nonzero duration, because real division needs it. JavaScript would produce Infinity or NaN instead. Every call in the model is on validated input or on a record `Persistence.Loadable` admits.
- `Persistence.Load`: snapshots with a record of unknown type are excluded because the source throws on them. Records missing the type's own field, or with a zero divisor, are also excluded. On those the source would produce `undefined` or a non-finite metric, and no save ever writes one.
- `App.NewWorkout` requires a pending map click, because reading `#mapEvent.latlng` throws before the first click. A type-select value other than the two options cannot be expressed.
- `App.MoveToPopup` requires the clicked entry's id to belong to a workout, because the source dereferences `undefined` otherwise.
- `App.MoveToPopup`: the model has no map-ready state, so it returns the pan target even when the source throws for lack of a map, that is, before geolocation has succeeded.
- `App.Reset`: `localStorage.clear()` clears every key. Only the `workouts` key exists in the model.
- `Descriptions.UpperChar`: `toUpperCase` is modelled only for ASCII letters. The type names contain nothing else.
