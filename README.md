# metrognome in Dafny

A model of the core of **metrognome**, a terminal metronome with a garden-gnome theme.
The model covers two parts:

- **The timing engine** (`metronome.dfy`, module `Metronome`). It holds the tempo in beats
  per minute (BPM), the time signature, whether the engine plays, and the beat counter. It
  also holds a ticker that fires every `60000 / BPM` milliseconds and a beat channel with
  room for one beat. Each firing offers the current beat to the channel and then advances
  the counter. The beat is dropped when the channel is full. `SetBPM` ignores tempos
  outside [20, 300]. `SetBPM` and `SetTimeSignature` stop a playing engine, make the change
  and start it again. The catalogs of six time signatures and six presets are constants.
  `GetBPMDescription` maps a tempo to one of ten descriptions.
- **The UI reducer** (`ui.dfy`, module `Ui`). `Update` handles four messages:
  - a window resize, which rebuilds the background stars;
  - a beat delivered by the engine, which flashes the gnome of that beat and plays a
    click;
  - an animation tick, which fades the flash and advances the gnome frame;
  - a key press: quit, start/stop, tempo up/down by 5, Tab to the next catalog signature,
    the preset picker with its cursor and Enter, sound toggle, help toggle.

  The UI part also models `View`'s choice of screen, the gnome row drawn for the beats of
  the signature, and the star count and positions.

The engine object is a `class Metronome` whose methods update its fields in place. Its
observable state is `State()`, a `Snapshot`. Two fields stand for the Go runtime objects:

- `ticker` is the period of the running ticker (`None` when none runs);
- `beatChan` is the content of the one-slot channel.

Each method is proved to leave `State()` equal to a pure function of the old state:

| method | pure function |
|---|---|
| `Start` | `Started` |
| `Stop` | `Stopped` |
| `SetBPM` | `WithBPM` |
| `SetTimeSignature` | `WithTimeSignature` |
| `Tick` (one ticker firing) | `Ticked` |
| `ReceiveBeat` | `Received` |

Every method requires and keeps `Valid()`, which says the object's state satisfies the
engine invariant `Coherent`. The engine's properties are lemmas about those functions. `Coherent` is the engine
invariant:

- the beat counter is within the measure;
- a stopped engine is at beat 1 with no ticker;
- a playing engine has the ticker period of its tempo.

The UI `Model` is a value that `Update` copies and returns. It holds a reference to the
shared engine. `Update` is proved equal to the pure `Step`:

- `Step` takes the display model, the engine snapshot and the message;
- it returns the new model, the new engine snapshot, the command for the event loop
  (listen for beats, schedule the next tick, quit, or nothing) and the click requested
  (`Some(true)` for the accented downbeat).

The star positions that `rand.Intn` draws are an extra argument of `Step`.
`InitializeStars` picks each one as an arbitrary in-bounds cell.

Go's `%` truncates toward zero, so it is modelled by `Rem`. Dafny's `%` differs for
negative operands.

Preconditions are the program's own panics:

- `Start` divides 60000 by the tempo, and a ticker period must be positive, so `Start`
  requires a stopped engine to have `1 <= bpm <= 60000`;
- Enter with the preset picker open indexes the preset catalog;
- `getBeatGnomes` allocates `beats` slots.

`CanHandle` collects the first two for `Update`. `NewModel` starts in a consistent
state. `StepKeepsConsistent` shows that every message keeps it consistent, and
`EngineStepsKeepConsistent` shows the same for the ticker firings and beat receives in
between. So every state the UI reaches satisfies `CanHandle` for every message.

Three behaviours of the code a reader might not expect:

- **Stop keeps a pending beat.** `Stop` halts the ticker but does not drain the beat
  channel. A beat already waiting is still delivered to the UI after the engine stopped.
  See `StopKeepsPendingBeat`. The restart that Up, Down, Tab and Enter perform does not
  drain the channel either. A pending beat is delivered after the restart, and it may lie
  beyond the new measure's last beat. Because the slot is still full, the first firing of
  the restarted ticker drops the new downbeat. See `RestartDeliversStaleBeat`.
- **Tempo keys at the bounds.** Up at 300 BPM and Down at 20 BPM leave the engine
  untouched (it is not restarted). The display is still reset to beat 1, and listening
  is re-armed when the engine plays.
- **Left and Right move only the preset cursor.** The key help (`internal/ui/model.go`
  lines 84-91) and the commands table describe Left/Right as "previous/next time
  signature". `Update` moves the preset cursor with them, and only while the preset
  picker is open; otherwise they change nothing. See `PresetCursorClamped`.

## Model

| member | source | states |
|---|---|---|
| Metronome.CatalogMetersDistinct | internal/metronome/metronome.go:33-71 | no two catalog signatures have the same beats and beat value |
| Metronome.PresetsAreValid | internal/metronome/metronome.go:73-111 | every preset's tempo lies in [20, 300] and its signature is a catalog entry |
| Metronome.BeatIntervalMs | internal/metronome/metronome.go:133-135 | the beat interval is the largest whole number of milliseconds `ms` with `ms * bpm <= 60000`; on tempos 1..60000, where Go creates the ticker without a panic, it is at least 1 |
| Metronome.IntervalWithinTempoBounds | internal/metronome/metronome.go:169-172 | every tempo that `SetBPM` accepts gives an interval between 200 ms and 3 s |
| Metronome.FreshIsStoppedAtDownbeat | internal/metronome/metronome.go:114-122 | a new engine is stopped, at beat 1, has an empty channel, and satisfies the engine invariant |
| Metronome.Metronome.New | internal/metronome/metronome.go:114-122 | the constructed engine has the given tempo and signature, is stopped at beat 1 with no ticker and an empty channel |
| Metronome.StartContract | internal/metronome/metronome.go:125-135 | Start keeps the engine invariant and is a no-op when already playing; otherwise the engine plays from beat 1 with a ticker of the tempo's interval; Start is idempotent and keeps tempo and signature |
| Metronome.Metronome.Start | internal/metronome/metronome.go:125-135 | the new engine state is `Started` of the old one, and the engine invariant `Valid()` is kept; requires the tempo range in which the Go code does not panic |
| Metronome.StopContract | internal/metronome/metronome.go:156-166 | Stop keeps the engine invariant, leaves a stopped engine unchanged, always ends stopped at beat 1 with no ticker, is idempotent and keeps tempo and signature |
| Metronome.Metronome.Stop | internal/metronome/metronome.go:156-166 | the new engine state is `Stopped` of the old one, and the engine invariant `Valid()` is kept |
| Metronome.StopThenStartFromDownbeat | internal/metronome/metronome.go:125-166 | stopping and starting again always plays from beat 1, wherever the counter was |
| Metronome.StopKeepsPendingBeat | internal/metronome/metronome.go:156-166 | after Stop a beat already in the channel is still received |
| Metronome.RestartDeliversStaleBeat | internal/metronome/metronome.go:137-199 | when a signature change restarts a playing engine with beat `b` pending, the first two drained firings deliver `b` and then 2: the stale beat first, and the new downbeat dropped |
| Metronome.SetBPMContract | internal/metronome/metronome.go:169-184 | a tempo outside [20, 300] changes nothing; an accepted one is set, keeps the running state, signature and pending beat, resets the counter to 1 and re-times a running ticker; the invariant is kept either way |
| Metronome.Metronome.SetBPM | internal/metronome/metronome.go:169-184 | the new engine state is `WithBPM` of the old one, and the engine invariant `Valid()` is kept |
| Metronome.SetTimeSignatureContract | internal/metronome/metronome.go:187-199 | the signature is replaced, the counter goes to 1, running state, tempo and pending beat are kept, and the invariant is kept |
| Metronome.Metronome.SetTimeSignature | internal/metronome/metronome.go:187-199 | the new engine state is `WithTimeSignature` of the old one, and the engine invariant `Valid()` is kept |
| Metronome.PresetTempoApplies | internal/ui/model.go:307-308 | applying any preset's tempo always takes effect and stays within [20, 300] |
| Metronome.TickContract | internal/metronome/metronome.go:138-150 | a firing keeps the invariant, does nothing while stopped, fills an empty channel with the current beat, never overwrites a pending beat, and advances the counter cyclically within the measure |
| Metronome.Metronome.Tick | internal/metronome/metronome.go:138-150 | the new engine state is `Ticked` of the old one, and the engine invariant `Valid()` is kept |
| Metronome.Metronome.ReceiveBeat | internal/metronome/metronome.go:201-204 | a receive returns the pending beat, if any, and empties the channel, keeping `Valid()` |
| Metronome.DrainedBeatsInOrder | internal/metronome/metronome.go:137-152 | with the channel emptied after each firing, `n` firings deliver exactly `n` beats, in order from the current beat and wrapping after the last beat of the measure |
| Metronome.StartedBeatsFromOne | internal/metronome/metronome.go:125-152 | after Start, a drained engine delivers 1, 2, ..., beats, 1, 2, ... |
| Metronome.RunDrained | internal/metronome/metronome.go:137-152 | driving the ticker loop `n` times with a receive after each firing returns exactly the beats `Drained` predicts and leaves the state `RunState` predicts, keeping the engine invariant `Valid()` |
| Metronome.GetBPMDescription | internal/metronome/metronome.go:207-229 | the description is always one of the ten tempo texts; its band behaviour is stated by `DescriptionIsBandText`, `TempoBandMonotone` and `DescriptionDeterminesBand` |
| Metronome.DescriptionIsBandText | internal/metronome/metronome.go:207-229 | the description of a tempo is the text of its 20-BPM band: below 40, [40, 60), ..., [180, 200), and 200 or more |
| Metronome.TempoBandMonotone | internal/metronome/metronome.go:207-229 | a faster tempo never falls in a slower band |
| Metronome.DescriptionDeterminesBand | internal/metronome/metronome.go:207-229 | two tempos get the same description if and only if they are in the same band |
| Ui.Abs | internal/ui/model.go:894-899 | the result is non-negative and is `x` or `-x` |
| Ui.Min | internal/ui/model.go:902-907 | the result is at most both arguments and is one of them |
| Ui.Max | internal/ui/model.go:910-915 | the result is at least both arguments and is one of them |
| Ui.Rem | internal/ui/model.go:274 | the remainder of Go's truncating `%`: below the divisor in absolute value, equal to the mathematical remainder for a non-negative dividend, and non-positive for a non-positive one; the dividend minus the result is always a multiple of the divisor, so the result is the truncated remainder |
| Ui.MeterIndexFrom | internal/ui/model.go:266-273 | the search from position `from` returns the first entry with the same meter when there is one, and 0 when there is none |
| Ui.MeterIndex | internal/ui/model.go:266-273 | the index of the first catalog entry with the same beats and beat value, or 0 when no entry matches |
| Ui.FindMeterIndex | internal/ui/model.go:266-273 | the search loop with its early exit returns `MeterIndex` of the engine's signature |
| Ui.MeterIndexOfEntry | internal/ui/model.go:266-273 | in a catalog of distinct meters every entry is found at its own index |
| Ui.TabPressesAdvance | internal/ui/model.go:264-282 | from catalog entry `k`, `n` Tab presses land on entry `(k + n) mod` the catalog size |
| Ui.TabCycleReturns | internal/ui/model.go:264-282 | pressing Tab once per catalog entry returns to the signature started from |
| Ui.ProgramTabCycle | internal/ui/model.go:264-282 | in the program's six-entry catalog, six Tab presses from any signature return to that signature |
| Ui.Update | internal/ui/model.go:191-323 | the new model, the engine's new state, the command and the click are exactly those of `Step` on the old engine state; a resize to a positive size leaves a star field that fits it |
| Ui.HandleKey | internal/ui/model.go:230-319 | the key-press branch results in exactly `KeyStep` of the old engine state |
| Ui.ChangeTempo | internal/ui/model.go:244-262 | Up and Down result in exactly `KeyStep` of the old engine state |
| Ui.CycleSignature | internal/ui/model.go:264-282 | Tab results in exactly `KeyStep` of the old engine state |
| Ui.ApplyPreset | internal/ui/model.go:305-318 | Enter on an open preset picker results in exactly `KeyStep` of the old engine state |
| Ui.StepKeepsConsistent | internal/ui/model.go:191-323 | from a consistent display and engine, every message can be handled without a panic and leads to a consistent state: engine invariant, tempo in [20, 300], cursor on a preset, at most one overlay, flash in [0, 5], frame in [0, 3] |
| Ui.EngineStepsKeepConsistent | internal/ui/model.go:339-344 | a ticker firing and a beat receive each keep the display invariant |
| Ui.KeyStepKeepsConsistent | internal/ui/model.go:230-319 | every key press keeps that invariant |
| Ui.BeatShowsDeliveredBeat | internal/ui/model.go:200-212 | a beat is shown with a full flash of 5 ticks, listening continues, the engine is untouched, and a click is played if and only if sound is on, accented if and only if it is beat 1 |
| Ui.AnimationTickContract | internal/ui/model.go:214-228 | a tick lowers the flash by one down to 0, keeps the frame in [0, 3], schedules the next tick and leaves the engine alone |
| Ui.FlashFadesAndFramesCycle | internal/ui/model.go:214-219 | after `n` ticks the flash is `max(0, flash - n)` and the frame is `(frame + n) mod 4` |
| Ui.PresetCursorClamped | internal/ui/model.go:295-303 | Left and Right move the preset cursor by one only while the picker is open, clamp it at both ends, and leave the engine alone |
| Ui.OverlaysExclusive | internal/ui/model.go:284-293 | the preset and help toggles each close the other overlay, so no message ever shows both |
| Ui.RetimingKeysResetDisplay | internal/ui/model.go:244-318 | Up, Down, Tab and a confirmed preset clear the flash, show beat 1, keep the running state, and listen again if and only if the engine plays; Tab and Enter also put the engine at beat 1 |
| Ui.TempoKeysStep | internal/ui/model.go:244-262 | Up and Down change the tempo by exactly 5 when the result stays in [20, 300] and leave it unchanged otherwise, keeping the signature |
| Ui.TabSelectsNextSignature | internal/ui/model.go:264-282 | Tab sets the engine to the catalog entry after the current signature's match, always a catalog entry, and keeps the tempo |
| Ui.EnterAppliesPreset | internal/ui/model.go:305-318 | with the picker open, Enter gives the engine the selected preset's tempo and signature, keeps its running state and closes the picker; with it closed, Enter changes nothing |
| Ui.PlayAndQuitKeys | internal/ui/model.go:232-242 | Space toggles playing, leaves the engine at beat 1 and listens for beats; Quit stops the engine and ends the program |
| Ui.StarCount | internal/ui/model.go:533-540 | one star per 8 cells, clamped to [50, 300] |
| Ui.StarCountMonotone | internal/ui/model.go:533-540 | a terminal with more cells never gets fewer stars |
| Ui.InitializeStars | internal/ui/model.go:528-550 | an empty size changes nothing; otherwise only the stars change, and their number is `StarCount` with every star inside the terminal |
| Ui.NewModel | internal/ui/model.go:164-180 | the initial model has a fresh, stopped engine at 120 BPM in 4/4, sound on, no overlay, no stars, and is consistent |
| Ui.View | internal/ui/model.go:326-336 | help is shown if and only if it is toggled on; the presets only when they are on and help is off; the main view otherwise |
| Ui.OverlayKeysSelectScreen | internal/ui/model.go:284-293 | the preset key shows the picker unless it was open (then the main view); the help key does the same for help |
| Ui.GnomeLines | internal/ui/model.go:447-456 | every gnome is four lines of five characters with no line break |
| Ui.GetBeatGnomes | internal/ui/model.go:482-525 | the nested loops build exactly `BlockPrefix(4, beats)`: four gnome lines joined by line breaks |
| Ui.BuildGnomeLine | internal/ui/model.go:501-516 | the inner loop builds exactly one row of the gnome block |
| Ui.SegmentShape | internal/ui/model.go:504-515 | each gnome contributes its five-character line, followed by a two-space gap unless it is the last |
| Ui.RowPrefixLayout | internal/ui/model.go:501-516 | in a row, gnome `g` occupies columns [7g, 7g + 5) and is followed by a gap at [7g + 5, 7g + 7) unless it is last; a full row is `7n - 2` wide and has no line break |
| Ui.GnomeBlockShape | internal/ui/model.go:498-524 | the gnome block is four rows joined by three line breaks, each row laid out as above |

## Left out

- The ticker goroutine and its timing are not modelled. A firing is the explicit step
  `Tick`, and the UI receive is `ReceiveBeat`. Wall-clock intervals are not modelled, and
  neither are the data race on `IsPlaying`/`CurrentBeat` between the goroutine and the UI.
  The goroutine kept alive after `Stop` (its ticker channel is never closed) is also not
  modelled.
- `listenForBeats` and `tickAnimation` become the `ListenForBeats` and `TickAnimation`
  commands. The Bubble Tea event loop that runs them, and the number of pending
  listeners, are not modelled.
- `playSound` is not modelled. It runs OS commands. The model records only the requested
  click (`Some(isDownbeat)`).
- `lastBeatTime` (the clock) and the pendulum angle are not modelled. The pendulum is
  floating point and is used only by `getSwingArm`.
- Rendering is not modelled: the lipgloss styles and colours, `getGnome`'s highlight
  colour, `renderMainWithBorder`, `renderMainContent`, `renderPresets`, `renderHelp`,
  `generateStarBackground`, `getSwingArm`, `addGardenDecorations`, the help widget, the
  commands table and the star colours. `View` is modelled as the choice of screen only.
- Ui.GetBeatGnomes: models the gnome text without the lipgloss styling that `getGnome`
  wraps around it. Widths count characters, not bytes. The branch that pads a gnome
  with fewer than four lines cannot be reached, because every gnome has four lines.
- Ui.InitializeStars: the positions are arbitrary in-bounds cells. The uniform
  distribution of `rand.Intn` is not modelled.
- Key bindings are abstracted to the `Key` datatype. The mapping from key strings
  ("up"/"k", "q"/"ctrl+c", ...) to bindings is Bubble Tea's.
- `Init`, `main.go` and the command-line entry point are not modelled.
- Go's 64-bit `int` is modelled as unbounded. Only `BPM ± 5` and `width * height` could
  overflow, and neither can within the values the program reaches.
