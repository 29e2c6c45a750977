# SAG spatial acoustic guide — a Dafny model of its core

SAG (Spatial Acoustic Guide) is a browser simulator. Sound sources sit on a
normalised plane around a listener at (0.5, 0.5), and their audio follows where
they are. This project models the part of it that turns user actions into new
simulator state, and the numeric maps from position or distance to audio
parameters. It then proves what that code promises.

The source identifiers are Spanish. The model uses English names:

| source | model |
|---|---|
| `Pipeline`, `agregarTarea`, `ejecutar` | `Pipelines.Pipeline`, `AddStage`, `Run` / `RunStages` |
| `ProcesadorArrastreFuentes`, `EventoArrastre` | `Drag.ApplyDrag`, `Drag.DragEvent` |
| `AccionSimulador`, `ContextoSimulador` | `SimTasks.Action`, `SimTasks.Context` |
| `TareaAgregarFuente`, `TareaEliminarUltimaFuente`, `TareaMoverFuente` | `AddSourceTask`, `RemoveLastSourceTask`, `MoveSourceTask` |
| `FuenteSonido`, `EstadoSimulador`, `SonificacionParams` | `Source`, `SimState`, `NearbyObject` |
| `useSimuladorAudioEspacial` and its hooks `iniciarAudio`, `despachar`, `agregarFuente`, `eliminarUltimaFuente`, `moverFuente`, `iniciarArrastreFuente` | `Controller.SimulatorController` with `StartAudio`, `Dispatch`, `AddSource`, `RemoveLastSource`, `MoveSource`, `StartDrag` |
| `FuenteAudioControls` | `Controller.AudioHandle` |
| `useSonificacionAvanzada`, `OpcionesSonificacion` | `NearestObject.NearestObjectChannel`, `NearestObject.Options` |
| `useBeepProximidad`, `detenerBeep` | `ProximityBeep.ProximityBeeper`, `Stop` |
| `getContrastYIQ` | `Contrast.ContrastYIQ` |

Modules follow the source files:
- `Wrappers`: `Option`.
- `SimTypes`: src/types/simulador.ts.
- `Pipelines`: src/pipelines/Pipeline.ts.
- `Drag`: src/utils/ArrastreFuentesProcessor.ts.
- `SimTasks`: src/pipelines/TareasSimulador.ts.
- `Mapping` and `Controller`: src/hooks/useSimuladorAudioEspacial.ts. `Mapping` holds the pure position and gain formulas; `Controller` holds the imperative controller.
- `NearestObject`: src/hooks/useSonificacionAvanzada.ts.
- `ProximityBeep`: src/hooks/useProximityBeep.ts.
- `Contrast`: `getContrastYIQ` in src/components/SimuladorAudioEspacial.tsx.

Pure code became functions and lemmas. Code that mutates became classes:
- the pipeline's task list;
- the controller's state and handle list;
- the nearest-object audio source and its interval;
- the proximity beep's interval.

Their methods state the new state in full.

Where the code and its own comments disagree, the model follows the code, with one exception. `NearestObject.NearestObjectChannel.Update` installs the corrected volume and tempo, not the written ones (see Findings). The written formulas are kept beside them as `VolumeAsWritten` and `TempoAsWritten`, with lemmas that show where they go wrong. The other disagreements:
- `FuenteSonido.distanciaNormalizada` is documented as the distance to the centre. Nothing ever recomputes it: a move keeps the old value (`Drag.MovedElement`).
- Positions are documented as lying in [0, 1], but the drag processor stores whatever it is given (`Drag.OutOfRangeStored`).
- The id field is documented as unique, but it is `fuente-` followed by the millisecond clock. Two adds in the same millisecond give two sources with one id, and a drag then moves both (`SimTasks.SameMillisecondCollision`).
- Handles are matched to sources by index, not by id. `Controller.SimulatorController.Valid` records the id agreement the controller maintains.

## Model

| member | source | states |
|---|---|---|
| `Pipelines.RunStages` | src/pipelines/Pipeline.ts:17 | a one-stage pipeline returns that stage's output; when every stage passes a value through unchanged, so does the pipeline |
| `Pipelines.RunNoStages` | src/pipelines/Pipeline.ts:17 | running no stages returns the input unchanged (the fold starts from the input) |
| `Pipelines.RunConcat` | src/pipelines/Pipeline.ts:17 | running a concatenation of stage lists runs the first list, then feeds its output to the second |
| `Pipelines.RunAppend` | src/pipelines/Pipeline.ts:10-17 | after appending stage t, running on x equals t applied to the old pipeline's result on x |
| `Pipelines.RunThrough` | src/pipelines/Pipeline.ts:17 | strict left-to-right fold: stage i receives exactly the output of stages 0..i-1, and its output goes to the rest |
| `Pipelines.Pipeline.constructor` | src/pipelines/Pipeline.ts:8 | a new pipeline has no stages |
| `Pipelines.Pipeline.AddStage` | src/pipelines/Pipeline.ts:10-14 | appends exactly one stage at the end, keeps the earlier stages in order, and returns the same object, not a copy |
| `Pipelines.Pipeline.Run` | src/pipelines/Pipeline.ts:16-18 | with no stages the result is the input |
| `Drag.MoveIfMatching` | src/utils/ArrastreFuentesProcessor.ts:18-20 | only the position may change; a source with the dragged id gets the event's position; the source is returned unchanged exactly when its id differs or it already sits there |
| `Drag.ApplyDrag` | src/utils/ArrastreFuentesProcessor.ts:16-22 | same length as the input; element i is the i-th source, moved exactly when its id matches the event |
| `Drag.IdsPreserved` | src/utils/ArrastreFuentesProcessor.ts:17-21 | the ids come out in the same order as they went in |
| `Drag.MovedElement` | src/utils/ArrastreFuentesProcessor.ts:18-20 | a source with another id is unchanged; a matching one gets exactly the event's position and keeps id, colour, frequency, timbre and its stale normalised distance |
| `Drag.UnknownIdIsNoOp` | src/utils/ArrastreFuentesProcessor.ts:17-21 | an event whose id no source carries returns the list unchanged |
| `Drag.NoOpIff` | src/utils/ArrastreFuentesProcessor.ts:17-21 | the result equals the input exactly when every source with the id already sits at the event's position |
| `Drag.Idempotent` | src/utils/ArrastreFuentesProcessor.ts:17-21 | applying the same event twice gives the same list as applying it once |
| `Drag.AllMatchesMove` | src/utils/ArrastreFuentesProcessor.ts:17-19 | every source with the id moves, not just the first |
| `Drag.OutOfRangeStored` | src/utils/ArrastreFuentesProcessor.ts:19 | a position outside the unit square is stored as given, with no clamping |
| `SimTasks.Decimal` | src/pipelines/TareasSimulador.ts:45 | the clock reading is printed as a non-empty string of decimal digits |
| `SimTasks.DecimalRoundTrip` | src/pipelines/TareasSimulador.ts:45 | reading the printed clock value back gives the number, so the printing loses nothing |
| `SimTasks.SourceId` | src/pipelines/TareasSimulador.ts:45 | every new id is `fuente-` followed by the decimal digits of the clock reading |
| `SimTasks.SourceIdCollidesIff` | src/pipelines/TareasSimulador.ts:45 | two new sources get the same id if and only if they were created in the same millisecond |
| `SimTasks.NewSource` | src/pipelines/TareasSimulador.ts:44-51 | a new source is named after the clock reading, has a base frequency in [220, 392] Hz, is sine or triangle, and sits at the centre (0.5, 0.5) with distance 0 |
| `SimTasks.AddSourceTask` | src/pipelines/TareasSimulador.ts:36-60 | only the source list may change; other actions pass through; on an add the old list is a prefix of the new one, which is one longer and ends with the source named after the clock reading |
| `SimTasks.RemoveLastSourceTask` | src/pipelines/TareasSimulador.ts:63-74 | only the source list may change, and the result is always a prefix of it; other actions and the empty list pass through; otherwise the list is one shorter |
| `SimTasks.MoveSourceTask` | src/pipelines/TareasSimulador.ts:77-89 | only the source list may change; other actions pass through; on a move the list keeps its length and every source keeps everything but its position |
| `SimTasks.PassThrough` | src/pipelines/TareasSimulador.ts:36-89 | each task returns its context unchanged when the action's tag is not its own |
| `SimTasks.OnlySourcesChange` | src/pipelines/TareasSimulador.ts:52-87 | every task keeps the action, `audioStarted` and `nearestObject`; only the source list may change |
| `SimTasks.AddAppends` | src/pipelines/TareasSimulador.ts:39-56 | add gives length n+1 with the first n sources unchanged; the tail has palette colour, frequency and timbre at n mod 6, position (0.5, 0.5), distance 0 and the clock id |
| `SimTasks.AddedTimbre` | src/pipelines/TareasSimulador.ts:43-48 | added sources are sine at even indices and triangle at odd ones, never square or sawtooth |
| `SimTasks.RemoveDropsLast` | src/pipelines/TareasSimulador.ts:70 | remove drops exactly the last source of a non-empty list, and an empty list stays empty |
| `SimTasks.RemoveOnEmptyStable` | src/pipelines/TareasSimulador.ts:64-72 | removing from an empty list changes nothing, however often it is repeated |
| `SimTasks.MoveIsDrag` | src/pipelines/TareasSimulador.ts:79-87 | move replaces the source list by the drag processor's result for the event, and nothing else |
| `SimTasks.OneTaskReacts` | src/hooks/useSimuladorAudioEspacial.ts:29-34 | running the add → remove → move pipeline equals running only the task that owns the action's tag |
| `SimTasks.Step` | src/hooks/useSimuladorAudioEspacial.ts:62-67 | one dispatch equals the owning task alone on the state and the action, and never changes `audioStarted` or `nearestObject` |
| `SimTasks.DispatchAll` | src/hooks/useSimuladorAudioEspacial.ts:62-67 | any run of dispatches keeps `audioStarted` and `nearestObject` |
| `SimTasks.Adds` | src/pipelines/TareasSimulador.ts:24-27 | the add actions for a list of clock readings: one per reading, in order |
| `SimTasks.StepAdd` | src/pipelines/TareasSimulador.ts:39-56 | one dispatched add appends the palette source for the current length |
| `SimTasks.StepRemove` | src/pipelines/TareasSimulador.ts:70 | one dispatched remove drops the last source of a non-empty list |
| `SimTasks.DispatchConcat` | src/hooks/useSimuladorAudioEspacial.ts:62-67 | dispatching xs then ys equals dispatching ys from the state xs left |
| `SimTasks.NewSources` | src/pipelines/TareasSimulador.ts:44-51 | the sources created by a run of adds: one per clock reading |
| `SimTasks.NewSourcesAt` | src/pipelines/TareasSimulador.ts:44-51 | the i-th created source is the palette source for list index n+i with the i-th clock reading |
| `SimTasks.AddsExtend` | src/pipelines/TareasSimulador.ts:39-56 | k adds extend the list by exactly k palette sources and keep the existing ones in place |
| `SimTasks.AddsFillPalette` | src/pipelines/TareasSimulador.ts:41-51 | from an empty list, k adds give k sources, the i-th built from palette entry i mod 6 |
| `SimTasks.ThreeAddsThenRemove` | src/pipelines/TareasSimulador.ts:41-48 | three adds from empty give colours #60A5FA, #34D399, #A78BFA, frequencies 220, 261.63, 293.66 and timbres sine, triangle, sine at (0.5, 0.5); one remove leaves the first two |
| `SimTasks.SameMillisecondCollision` | src/pipelines/TareasSimulador.ts:45 | two adds in one millisecond give two sources with one id, and one drag of that id moves both |
| `Mapping.Clamp` | src/hooks/useSimuladorAudioEspacial.ts:119 | `min(max(v, lo), hi)` lies in [lo, hi], is v inside the range and the nearer bound outside it |
| `Mapping.Placement` | src/hooks/useSimuladorAudioEspacial.ts:111-113 | placement puts every source on the horizontal plane (y = 0), and the position can be read back from the point |
| `Mapping.PlacementOnto` | src/hooks/useSimuladorAudioEspacial.ts:111-113 | every point of the horizontal plane is the placement of the position read back from it |
| `Mapping.PlacementCentre` | src/hooks/useSimuladorAudioEspacial.ts:111-113 | the listener's position (0.5, 0.5), and only it, is placed at the origin |
| `Mapping.PlacementBounds` | src/hooks/useSimuladorAudioEspacial.ts:111-113 | the unit square maps into [-1, 1] on x and z |
| `Mapping.SourceGain` | src/hooks/useSimuladorAudioEspacial.ts:117-120 | the gain always lies in [0.001, 0.5] |
| `Mapping.SourceGainEndpoints` | src/hooks/useSimuladorAudioEspacial.ts:117-120 | gain 0.5 at or inside the centre, 0.001 at or beyond the edge |
| `Mapping.SourceGainMonotone` | src/hooks/useSimuladorAudioEspacial.ts:117-120 | the gain never increases as the distance grows |
| `Controller.NewHandle` | src/hooks/useSimuladorAudioEspacial.ts:80-96 | a new handle plays its source's voice (id, base frequency, waveform) at gain 0.5 with no interval |
| `Controller.HandlesAfterAdd` | src/hooks/useSimuladorAudioEspacial.ts:77-99 | the old handles stay as a prefix; nothing changes unless sources outnumber handles, and then exactly one handle is added, for the last source |
| `Controller.SyncedHandles` | src/hooks/useSimuladorAudioEspacial.ts:107-126 | sync keeps the handles and their order, and each handle keeps its id, voice and interval; each paired handle sits at its source's 3D point, and its gain is the quadratic falloff `SourceGain` of that source's distance, so it lies in [0.001, 0.5]; handles at or beyond the source count get gain 0 |
| `Controller.SyncedCloserIsLouder` | src/hooks/useSimuladorAudioEspacial.ts:115-121 | after a sync, a handle whose source is nearer the centre plays at least as loud as one whose source is farther away |
| `Controller.AddKeepsParallel` | src/hooks/useSimuladorAudioEspacial.ts:69-127 | after an add, the add-handle effect pushes exactly the new source's handle, and after the sync there is again one handle per source with matching ids |
| `Controller.SyncIdempotent` | src/hooks/useSimuladorAudioEspacial.ts:107-126 | synchronising twice gives the same handles as synchronising once |
| `Controller.HandlesAfterDragStart` | src/hooks/useSimuladorAudioEspacial.ts:146-151 | starting a drag keeps the number of handles |
| `Controller.DragStartTouchesFirstMatch` | src/hooks/useSimuladorAudioEspacial.ts:146-151 | starting a drag sets gain 0.5 on the first handle with the id (`find`) and leaves every other handle as it was |
| `Controller.SimulatorController.constructor` | src/hooks/useSimuladorAudioEspacial.ts:24-34 | starts with no sources, audio off, no nearest object, no handles, and the three tasks wired in order |
| `Controller.SimulatorController.StartAudio` | src/hooks/useSimuladorAudioEspacial.ts:36-60 | a no-op once audio has started; otherwise the context exists and the flag is set, nothing else changes |
| `Controller.SimulatorController.Dispatch` | src/hooks/useSimuladorAudioEspacial.ts:62-67 | the new state is the pipeline's result, which is the owning task's result on the old state |
| `Controller.SimulatorController.AddHandleEffect` | src/hooks/useSimuladorAudioEspacial.ts:75-100 | without a context nothing changes; when sources outnumber handles, exactly one handle is pushed for the last source, with its id and gain 0.5 |
| `Controller.SimulatorController.SyncEffect` | src/hooks/useSimuladorAudioEspacial.ts:103-127 | the handle list becomes `SyncedHandles` of the old one: paired handles placed and gained, the rest muted; the state is untouched |
| `Controller.SimulatorController.SourcesChanged` | src/hooks/useSimuladorAudioEspacial.ts:75-127 | the two effects in order: push a handle if needed, then synchronise |
| `Controller.SimulatorController.AddSource` | src/hooks/useSimuladorAudioEspacial.ts:69-72 | before audio starts nothing changes; afterwards the palette source is appended and one handle for it, then all are synchronised, keeping one handle per source |
| `Controller.SimulatorController.RemoveLastSource` | src/hooks/useSimuladorAudioEspacial.ts:129-139 | drops the last source; pops exactly one handle if there is one and disconnects it with its interval cleared; no-op on the handles when there are none |
| `Controller.SimulatorController.MoveSource` | src/hooks/useSimuladorAudioEspacial.ts:141-143 | the source list becomes the drag processor's result and the handles are resynchronised |
| `Controller.SimulatorController.StartDrag` | src/hooks/useSimuladorAudioEspacial.ts:146-151 | only the first handle with the id gets gain 0.5; the state does not change |
| `NearestObject.Resolve` | src/hooks/useSonificacionAvanzada.ts:60-64 | each setting is the given option if there is one, and otherwise its default: volume 0.7, tempo 1 to 5 Hz, beep 0.08 s, haptics on |
| `NearestObject.ResolveDefaults` | src/hooks/useSonificacionAvanzada.ts:60-64 | no options give (0.7, 1, 5, 0.08, on); for each of the five fields, a missing option takes its default and a given value, even 0 or false, is kept |
| `NearestObject.Pitch` | src/hooks/useSonificacionAvanzada.ts:66 | pitch always lies in [300, 1200] Hz: 1200 at d ≤ 0 and 300 at d ≥ 2 |
| `NearestObject.PitchProperties` | src/hooks/useSonificacionAvanzada.ts:66 | pitch is 1200 Hz at d ≤ 0, 300 Hz at d ≥ 2, 1200 − 450·d in between, always in [300, 1200], and non-increasing |
| `NearestObject.VolumeAsWritten` | src/hooks/useSonificacionAvanzada.ts:67 | the written volume is volMax at d ≤ 0, already 0.1 at d = 1, and 0.2 − volMax at d ≥ 2 |
| `NearestObject.VolumeAsWrittenNegative` | src/hooks/useSonificacionAvanzada.ts:67 | the written volume is volMax at 0, 0.1 at 1 and 0.2 − volMax at 2, which is −0.5 for the default 0.7 |
| `NearestObject.Volume` | src/hooks/useSonificacionAvanzada.ts:67 | the corrected volume is volMax at d ≤ 0 and 0.1 at d ≥ 2 |
| `NearestObject.VolumeRange` | src/hooks/useSonificacionAvanzada.ts:67 | the corrected volume stays in [0.1, volMax] for every distance |
| `NearestObject.VolumeMonotone` | src/hooks/useSonificacionAvanzada.ts:67 | the corrected volume never increases with distance |
| `NearestObject.TimbreFor` | src/hooks/useSonificacionAvanzada.ts:68-73 | the waveform is sine exactly when the type is none of persona, pared, puerta |
| `NearestObject.TimbreForKinds` | src/hooks/useSonificacionAvanzada.ts:68-73 | persona → triangle, pared → square, puerta → sawtooth, and sine exactly for every other type or none |
| `NearestObject.TempoAsWritten` | src/hooks/useSonificacionAvanzada.ts:80 | the written tempo is tempoMax at d ≤ 0, already tempoMin at d = 1, and 2·tempoMin − tempoMax at d ≥ 2 |
| `NearestObject.BeepPeriod` | src/hooks/useSonificacionAvanzada.ts:81 | the period `1000 / tempo` exists exactly when the tempo is not 0 (otherwise it is Infinity) |
| `NearestObject.TempoAsWrittenZero` | src/hooks/useSonificacionAvanzada.ts:80-81 | the written tempo is tempoMax at 0 and tempoMin at 1; with the defaults it is 0 at 1.25, so `1000 / tempo` is Infinity, and −3 at 2 |
| `NearestObject.TimerDelay` | src/hooks/useSonificacionAvanzada.ts:90-99 | the delay the browser waits between ticks is a non-negative 32-bit value: 0 for an Infinity period or a negative period above −2^31, and the period rounded down when it lies in [0, 2^31) |
| `NearestObject.TempoAsWrittenFloodsTimer` | src/hooks/useSonificacionAvanzada.ts:80-99 | with the defaults, at d = 1.25 and for d in [1.26, 2] the written tempo is 0 or negative, so the interval is not skipped but runs with delay 0, the browser's minimum |
| `NearestObject.Tempo` | src/hooks/useSonificacionAvanzada.ts:80 | the corrected tempo is tempoMax at d ≤ 0 and tempoMin at d ≥ 2 |
| `NearestObject.TempoRange` | src/hooks/useSonificacionAvanzada.ts:79-81 | the corrected tempo is tempoMax at 0 and tempoMin at 2, stays in [tempoMin, tempoMax], always has a period when tempoMin > 0, and with the defaults the period lies in [200, 1000] ms |
| `NearestObject.TempoMonotone` | src/hooks/useSonificacionAvanzada.ts:80 | closer objects beep at least as fast |
| `NearestObject.TickOf` | src/hooks/useSonificacionAvanzada.ts:90-99 | each tick sets the gain to the interval's volume, switches it off after the beep length in ms, and vibrates for that length exactly when haptics are on |
| `NearestObject.BeepFor` | src/hooks/useSonificacionAvanzada.ts:60-99 | the installed beep carries the beep length and haptic switch as set; its level is the corrected `Volume(volMax, d)` and its period `1000 / Tempo(tempoMin, tempoMax, d)` (see Findings), so it has a level in [0.1, volMax], a positive period whenever 0 < tempoMin ≤ tempoMax, and with the default tempo range a period and timer delay between 200 and 1000 ms |
| `NearestObject.BeepForCloserLouderFaster` | src/hooks/useSonificacionAvanzada.ts:79-81 | a nearer object gets a beep at least as loud and with a period no longer than a farther one, as the comment at :79 and the mapping at :67 intend |
| `NearestObject.PeriodAntitone` | src/hooks/useSonificacionAvanzada.ts:81 | a faster positive tempo gives a shorter period `1000 / tempo` |
| `NearestObject.NearestObjectChannel.constructor` | src/hooks/useSonificacionAvanzada.ts:32-43 | mounting creates a 440 Hz sine source, started, with no interval and nothing started or stopped yet |
| `NearestObject.NearestObjectChannel.ClearBeep` | src/hooks/useSonificacionAvanzada.ts:55 | `clearInterval` stops the active interval, if any, and records it as stopped; nothing else changes |
| `NearestObject.NearestObjectChannel.Update` | src/hooks/useSonificacionAvanzada.ts:51-100 | no object: gain 0 and the old interval stopped; otherwise pitch, 3D position and waveform come from the object, the old interval is stopped, the gain is 0, and one new interval is started exactly when d ≤ 2; no interval is ever left running unrecorded |
| `NearestObject.NearestObjectChannel.Unmount` | src/hooks/useSonificacionAvanzada.ts:44-47 | unmounting stops the active interval and leaves none |
| `ProximityBeep.Factor` | src/hooks/useProximityBeep.ts:30 | the proximity factor is never negative: 1 at d = 0 and 0 at d = 1 |
| `ProximityBeep.BeepVolume` | src/hooks/useProximityBeep.ts:31 | the beep level is never negative: 0.5 at d = 0 and 0 at d = 1 |
| `ProximityBeep.BeepInterval` | src/hooks/useProximityBeep.ts:32 | the period never exceeds 1500 ms: 150 ms at d = 0 and 1500 ms at d = 1 |
| `ProximityBeep.TickFrequency` | src/hooks/useProximityBeep.ts:36-37 | a tick never sounds below the base frequency: base + 100 at d = 0 and the base at d = 1 |
| `ProximityBeep.FactorInBand` | src/hooks/useProximityBeep.ts:29-30 | for 0 ≤ d < 0.99 the proximity factor (1 − d)² lies in (0, 1] |
| `ProximityBeep.BeepVolumeRange` | src/hooks/useProximityBeep.ts:29-31 | for 0 ≤ d < 0.99 the beep level lies in (0, 0.5] and is 0.5 at d = 0 |
| `ProximityBeep.BeepIntervalRange` | src/hooks/useProximityBeep.ts:29-32 | for 0 ≤ d < 0.99 the period lies in [150, 1500) ms; it is 150 ms at d = 0 and 1500 at d = 1 |
| `ProximityBeep.BeepIntervalMonotone` | src/hooks/useProximityBeep.ts:32 | the period never shrinks as d grows within [0, 1] |
| `ProximityBeep.TickFrequencyBound` | src/hooks/useProximityBeep.ts:36-37 | for d in [0, 2] each tick's frequency lies in [base, base + 100] |
| `ProximityBeep.NegativeDistanceUnclamped` | src/hooks/useProximityBeep.ts:29-32 | the distance is not clamped: at d = −1 the level is 2.0 and the period −3900 |
| `ProximityBeep.Envelope` | src/hooks/useProximityBeep.ts:40-42 | a tick sets three gain points at strictly increasing times, starting at the current time; it starts and ends at 0 and peaks at the beep level |
| `ProximityBeep.ScheduleFor` | src/hooks/useProximityBeep.ts:29-37 | an interval exists exactly when d < 0.99, and it carries the period `BeepInterval(d)`, the level `BeepVolume(d)` and the tick frequency `TickFrequency(base, d)` |
| `ProximityBeep.ScheduleCloserLouderFaster` | src/hooks/useProximityBeep.ts:29-37 | within range, a nearer source's interval beeps at least as often, as loud and as high as a farther one's |
| `ProximityBeep.ProximityBeeper.constructor` | src/hooks/useProximityBeep.ts:20 | starts with no interval and nothing started or stopped yet |
| `ProximityBeep.ProximityBeeper.ClearTimer` | src/hooks/useProximityBeep.ts:24-27 | `clearInterval` stops the active interval, if any, and records it as stopped; nothing else changes |
| `ProximityBeep.ProximityBeeper.Reschedule` | src/hooks/useProximityBeep.ts:22-44 | the old interval, if any, is stopped, and the one interval afterwards is the newly started schedule for the new distance, if any; no interval is left running unrecorded |
| `ProximityBeep.ProximityBeeper.Cleanup` | src/hooks/useProximityBeep.ts:46-50 | the effect's cleanup stops the active interval and leaves none |
| `ProximityBeep.ProximityBeeper.Stop` | src/hooks/useProximityBeep.ts:54-60 | the active interval is stopped, none remains and the gain is 0, so a second call changes nothing |
| `Contrast.RemoveFirst` | src/components/SimuladorAudioEspacial.tsx:9 | without '#' the string is unchanged; with one, exactly one character goes |
| `Contrast.RemoveFirstAt` | src/components/SimuladorAudioEspacial.tsx:9 | the character removed is the first '#', and everything else stays in order |
| `Contrast.DoubleEach` | src/components/SimuladorAudioEspacial.tsx:10 | twice as long, with characters 2i and 2i+1 both equal to input character i |
| `Contrast.Normalize` | src/components/SimuladorAudioEspacial.tsx:9-10 | the digits are the input without its first '#'; three of them become six, and any other count is kept as it is |
| `Contrast.Substr` | src/components/SimuladorAudioEspacial.tsx:11-13 | `substr(start, len)` takes at most len characters, exactly len when they exist and none past the end, each the character at start + i |
| `Contrast.ShorthandDoubles` | src/components/SimuladorAudioEspacial.tsx:9-10 | any input whose digits (first '#' removed) are three characters c0 c1 c2, such as "#abc" or "abc", is read as c0 c0 c1 c1 c2 c2 |
| `Contrast.HexValue` | src/components/SimuladorAudioEspacial.tsx:11-13 | a hex digit's value is below 16 |
| `Contrast.ParseIntHex` | src/components/SimuladorAudioEspacial.tsx:11-13 | `parseInt(s, 16)` is NaN for the empty string and for a string starting with '#', and a non-negative number when s starts with a hex digit followed by a hex digit or nothing |
| `Contrast.ParsePair` | src/components/SimuladorAudioEspacial.tsx:11-13 | `parseInt` of two hex digits is 16·first + second, a value in [0, 255] |
| `Contrast.PairAt` | src/components/SimuladorAudioEspacial.tsx:11-13 | the channel at offset k of a string with hex digits there is the byte those two digits spell |
| `Contrast.Verdict` | src/components/SimuladorAudioEspacial.tsx:14-15 | the result is `#222` or `#fff`, and `#222` only when all three channels parsed |
| `Contrast.ContrastYIQ` | src/components/SimuladorAudioEspacial.tsx:8-16 | the result is `#222` or `#fff`, and `#222` exactly when all three channels of the colour parsed and 299r + 587g + 114b ≥ 128000 |
| `Contrast.VerdictIff` | src/components/SimuladorAudioEspacial.tsx:14-15 | the result is `#222` or `#fff`, and `#222` exactly when all three channels parsed and 299r + 587g + 114b ≥ 128000 |
| `Contrast.VerdictMonotone` | src/components/SimuladorAudioEspacial.tsx:14-15 | raising channels never turns `#222` into `#fff` |
| `Contrast.WhiteChannels` | src/components/SimuladorAudioEspacial.tsx:9-13 | `#fff` reads as (255, 255, 255) |
| `Contrast.BlackChannels` | src/components/SimuladorAudioEspacial.tsx:9-13 | `#000` reads as (0, 0, 0) |
| `Contrast.WhiteAndBlack` | src/components/SimuladorAudioEspacial.tsx:8-16 | `#fff` gets dark text `#222` and `#000` gets white text `#fff` |
| `Contrast.OnlyFirstHashRemoved` | src/components/SimuladorAudioEspacial.tsx:9-11 | `##fff` keeps one '#', its channels are NaN, and it gets `#fff` |

## Left out

- src/hooks/useAudioSource.ts (Web Audio nodes, ramps, HRTF panner) is not part of this model. A device handle is the record `Controller.AudioHandle` of the values the controller sets through it, and the nearest-object source is the fields of `NearestObjectChannel`.
- Real timers are not modelled: `setInterval`, `setTimeout`, `clearInterval` and `navigator.vibrate`, and when their callbacks fire. An interval is an optional record of what each tick does (`BeepTimer`, `BeepSchedule`), and one tick is the pure `TickOf` / `Envelope`.
- AudioContext creation and listener orientation (src/hooks/useSimuladorAudioEspacial.ts:38-58) are foreign calls. Only the flag that the context exists is kept.
- The doubled Euclidean distance to (0.5, 0.5), `Math.sqrt(...) * 2` at src/hooks/useSimuladorAudioEspacial.ts:117, is a function `distanceOf` fixed when the controller is built. The model places no constraint on it. The gain lemmas hold for every distance.
- `Date.now()` is not read by the model. The clock reading travels in the `AddSource(now)` action, and the id is built from it as the source builds it.
- React's scheduling is simplified. Each controller operation applies the state update, then the two effects in source order. Stale closures over `estado` and batched renders are not modelled.
- Numbers are exact reals, not IEEE doubles, so rounding is not modelled.
- Strings are sequences of Unicode code points, not UTF-16 units. `parseInt` is modelled on what `getContrastYIQ` can pass it.
- `NearestObject.NearestObjectChannel.Update`: the guard for a missing audio source (src/hooks/useSonificacionAvanzada.ts:52) is not modelled, because the channel object always owns its source once constructed.
- `NearestObject.NearestObjectChannel.Update` uses the corrected volume and tempo (see Findings). The written formulas are kept as `VolumeAsWritten` and `TempoAsWritten`.
- NearestObject.BeepFor: builds the beep from the corrected `Volume` and `Tempo`, not from the written lines 67 and 80-81 of src/hooks/useSonificacionAvanzada.ts. Its level range and its 200–1000 ms period are therefore properties of the corrected formulas. As written, the program installs a level of −0.5 at d = 2 (`VolumeAsWrittenNegative`) and a 0 ms delay at d = 1.25 and for d in [1.26, 2] (`TempoAsWrittenFloodsTimer`), with the default settings.
- The interval ids are not modelled. An interval is "active" from `setInterval` until `clearInterval`, and the ghost logs `started` and `stopped` record each one. Both hooks keep a stale id in their ref after a cleanup clears it (src/hooks/useProximityBeep.ts:46-50; src/hooks/useSonificacionAvanzada.ts:55 and 83), so a later `clearInterval` on that id does nothing. The model does not clear an interval twice, and records no such second clear.
- `NearestObject.TempoAsWrittenFloodsTimer` leaves out distances just above 1.25, between 1.25 and 1.26. There the period can be so large and negative that the 32-bit conversion in `TimerDelay` wraps it to a positive delay.
- The browser's 4 ms floor for deeply nested timers is not part of `TimerDelay`.
- The JSX, SVG grid, resize and pointer handling, and the circular drag clamp with `atan2`/`cos`/`sin` in src/components/SimuladorAudioEspacial.tsx are UI and floating-point trigonometry. Only `getContrastYIQ` is modelled.
- src/hooks/useObjetoProximo.ts (a pass-through with an empty effect) and the build configuration are not part of this model.
- `terminarArrastreFuente` (src/hooks/useSimuladorAudioEspacial.ts:154) does nothing and has no model.

## Findings

| source | as written | input that shows it | evidently intended | confidence | as-written member | corrected member |
|---|---|---|---|---|---|---|
| src/hooks/useSonificacionAvanzada.ts:67 | volume = volMax − clamp(d, 0, 2)·(volMax − 0.1) falls to 0.1 already at d = 1 and keeps falling | d = 2 with the default volMax 0.7 gives volume −0.5, a negative gain | volume scaled over the whole [0, 2] domain, from volMax at 0 to 0.1 at 2: volMax − clamp(d, 0, 2)/2·(volMax − 0.1) | medium, not executed | `NearestObject.VolumeAsWrittenNegative` | `NearestObject.VolumeRange` |
| src/hooks/useSonificacionAvanzada.ts:80-81 | tempo = tempoMax − clamp(d, 0, 2)·(tempoMax − tempoMin) leaves the range `tempoMin`–`tempoMax` once d > 1 | d = 1.25 with default options gives tempo 0, so `1000 / tempo` is Infinity; d = 2 gives tempo −3 and a period of −333 ms; `setInterval` converts both delays to 0, so instead of beeping slowly for a far object the program beeps at the browser's minimum timer delay | tempo kept in [tempoMin, tempoMax] across [0, 2]: tempoMax − clamp(d, 0, 2)/2·(tempoMax − tempoMin), period in [200, 1000] ms by default | medium, not executed | `NearestObject.TempoAsWrittenZero` | `NearestObject.TempoRange` |
