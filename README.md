# Trailer playback engine, in Dafny

This project models the core of a promotional "trailer" web page. The page plays a
scripted sequence of text scenes against one clock. The model covers three parts:

- **The scene script** (`constants.ts`, module `Scenes` in `scenes.dfy`). This is the
  `Scene` record and the constant `SCENES`: 23 scenes, each a half-open interval
  `[start, end)` in seconds, with an optional sound label. Times are Dafny `real`s. Every
  boundary is a multiple of half a second, so each value is exact. `Find` is the
  `SCENES.find(...)` lookup. It returns the index of the first scene that covers an
  instant. `WellFormed` states what the lookup relies on: the script starts at 0,
  every interval is non-empty, and each scene ends where the next one starts.
- **The playback engine** (`App.tsx`, module `Timeline` in `timeline.dfy`). This covers
  `startExperience`, the per-frame `loop`, `playSound`, the unmount clean-up and the
  progress-bar width.
  - `EngineState` holds the component's state as one value. `Started`, `Ticked`,
    `SoundPlayed` and `Unmounted` say what each operation does to that value.
  - The class `Engine` holds the same state in fields. Its methods update the fields
    in place, and each method's `ensures` ties the new state to the matching function
    applied to the old state.
  - Host services are inputs. The frame timestamp, `performance.now()` and the handle
    `requestAnimationFrame` returns are parameters. Every request or cancellation of a
    frame is appended to `hostLog`. Every `playSound` that reaches a preloaded element
    is appended to `soundLog`.
  - `loop` tests two guards, and the model keeps both. The outer guard compares the
    resolved scene with `loopScene`: the `currentScene` the `loop` closure captured
    when `startExperience` ran, which on the page is `SCENES[0]`. The functional
    updater passed to `setCurrentScene` compares it with the current scene.
  - The spec functions take the script as a parameter, so the lemmas about them hold
    for every well-formed script. `ShippedScript` and the `Script*` lemmas apply them to
    `SCENES`: 96 seconds, a rescheduling cut-off at 106 seconds, and at most 22 scene
    sounds per playback.
- **The synthesised audio registry** (`utils/audio.ts`, module `Audio` in `audio.dfy`).
  `audioCtx`, `activeNodes` and `activeGainNodes` become fields of the class
  `AudioState`.
  - Audio nodes are opaque handles, told apart by a serial number.
  - Creating a node, `stop()` and `disconnect()` are appended to `effects`.
  - Whether the host offers an `AudioContext` class is a parameter.

Some of the code's behaviour is easy to miss. The model keeps it as written:

- `'ambient'` is played like any other scene label. Entering the scene with id 1 at
  16 s therefore rewinds and replays the ambient element.
- Frames keep being requested until 10 s after the end of the last scene.
- There is no seek operation, and nothing clears `isFinished`.
- Nothing stops the ambient element or the synthesised ambient bed when the sequence
  finishes. `App.tsx` does not call into `utils/audio.ts`.

## Model

| member | source | states |
|---|---|---|
| `Scenes.Find` | App.tsx:72 | the lookup's index covers the instant; no earlier scene covers it; `None` exactly when no scene covers it |
| `Scenes.SCENES` | constants.ts:11-207 | the 23 scenes of the trailer, with their times, ids, texts, kinds and sound labels |
| `Scenes.EndsBeforeStart` | constants.ts:11-207 | in a well-formed script an earlier scene ends no later than any later scene starts |
| `Scenes.CoverUnique` | constants.ts:11-207 | in a well-formed script at most one scene covers any instant |
| `Scenes.SceneWithinScript` | constants.ts:11-207 | every scene of a well-formed script lies inside `[0, end of the last scene]` |
| `Scenes.FindExact` | App.tsx:72 | over a well-formed script the lookup returns `i` if and only if scene `i` covers the instant |
| `Scenes.FindTotal` | App.tsx:72 | over a well-formed script every instant in `[0, end)` resolves to some scene |
| `Scenes.FindOutside` | App.tsx:72 | over a well-formed script instants before 0 or at or after the end resolve to no scene |
| `Scenes.FindBoundary` | App.tsx:72 | at a boundary shared by two scenes the later scene is found |
| `Scenes.FindMonotone` | App.tsx:72 | a later instant never resolves to an earlier scene |
| `Scenes.ScriptIntervals` | constants.ts:11-207 | every scene of `SCENES` has `end > start` |
| `Scenes.ScriptContiguous` | constants.ts:11-207 | each scene of `SCENES` ends where the next starts |
| `Scenes.ScriptShape` | constants.ts:11-207 | `SCENES` has 23 scenes, starts at 0, ends at 96 and is well formed |
| `Scenes.ScriptIds` | constants.ts:14-199 | the ids are 101 to 106 and then 1 to 17 |
| `Scenes.ScriptIdsDistinct` | constants.ts:14-199 | no two scenes of `SCENES` share an id |
| `Scenes.ScriptAmbientLabels` | constants.ts:19-71 | `'ambient'` labels scene 101 (first) and scene 1 (seventh) and no other |
| `Scenes.ScriptResolution` | App.tsx:72 | over `SCENES` each `t` in `[0, 96)` resolves to exactly the scene covering it; any other `t` resolves to none |
| `Timeline.ProgressWidth` | App.tsx:143 | the bar width never exceeds 100 and is non-negative for non-negative time |
| `Timeline.ProgressFull` | App.tsx:143 | the bar is full if and only if `currentTime >= 60`, and below 100 before that |
| `Timeline.ProgressMonotone` | App.tsx:143 | the bar width never decreases as time grows |
| `Timeline.Initial` | App.tsx:8-15 | a mounted engine is not started, not anchored and not finished, shows the first scene, and has fired and requested nothing |
| `Timeline.SoundPlayed` | App.tsx:40-46 | `playSound` changes only the named element's position and the sound log: every other preloaded element keeps its position, the set of preloaded elements is kept, and at most that one effect is logged |
| `Timeline.Started` | App.tsx:48-63 | `startExperience` sets `hasStarted`, sets the ambient element looping and playing exactly when one is preloaded (`ambientLooping`), makes the anchor admit frames exactly when `now != 0`, makes the loop capture the current scene, logs no sound, and requests exactly one frame, `RequestFrame(handle)`, which is then pending |
| `Timeline.SceneSwitched` | App.tsx:83-92 | the updater leaves the scene with the new scene's id, changes only the scene and the sounds, and logs at most the new scene's own label |
| `Timeline.Advanced` | App.tsx:68-93 | the first part of a frame sets `currentTime` to the elapsed time, sets `isFinished` exactly past the end, logs at most one sound and touches no host call, anchor or captured scene |
| `Timeline.Rescheduled` | App.tsx:95-97 | the last part of a frame changes only the pending handle and the host log, and requests at most one frame |
| `Timeline.Ticked` | App.tsx:65-98 | a frame never changes the anchor, the captured scene or the set of preloaded elements, never clears `isFinished`, and only appends to the logs, at most one sound and one host call |
| `Timeline.Unmounted` | App.tsx:101-105 | the clean-up changes only the host log, appending at most one call |
| `Timeline.TickBeforeStart` | App.tsx:66 | with no start time, or a start time of exactly 0, a frame changes nothing |
| `Timeline.TickClock` | App.tsx:68-69 | an admitted frame sets `currentTime` to `(timestamp - startTime) / 1000` without clamping and keeps the anchor and the captured scene |
| `Timeline.TickSceneChange` | App.tsx:72-92 | the scene id changes if and only if the frame is not past the end and a covering scene has an id different from both the captured and the current scene; the new scene covers the elapsed time |
| `Timeline.TickSound` | App.tsx:81-92 | a frame fires at most one sound, only on a scene change, and it is the new scene's own label (`'ambient'` included) exactly when that label has a preloaded element; that element alone is rewound to 0, and a frame that fires nothing moves no element |
| `Timeline.TickSameTimestamp` | App.tsx:81-92 | repeating a frame with the same timestamp changes no scene and fires no second sound |
| `Timeline.TickFinished` | App.tsx:75-77 | `isFinished` is true after a frame if and only if it was already true or the frame is past the end; it is never cleared |
| `Timeline.TickPastEnd` | App.tsx:75-81 | a frame past the end sets `isFinished` and keeps the current scene |
| `Timeline.TickAtEnd` | App.tsx:72-81 | a frame at exactly the end changes neither the finish flag nor the scene |
| `Timeline.TickReschedules` | App.tsx:95-97 | a frame requests the next frame if and only if it is admitted and at most 10 s past the end |
| `Timeline.StartAnchors` | App.tsx:48-63 | `startExperience` sets `hasStarted`, anchors the start time, captures the current scene and requests one frame |
| `Timeline.StartAtZeroIsInert` | App.tsx:61-66 | after a start at host time 0 no frame ever changes the state |
| `Timeline.UnmountCancels` | App.tsx:101-105 | the unmount clean-up cancels the last requested frame when its handle is truthy and changes nothing else |
| `Timeline.PlaySoundRewinds` | App.tsx:40-46 | `playSound` does nothing for a key with no preloaded element, and otherwise rewinds that element to 0 and plays it |
| `Timeline.RunFinishedSticky` | App.tsx:75-77 | once finished, the engine stays finished over any run of frames |
| `Timeline.TickMovesForward` | App.tsx:65-98 | with non-decreasing time a frame moves only to a later scene of the script and fires a sound only when it moves |
| `Timeline.RunSoundBound` | App.tsx:65-98 | over a run with non-decreasing timestamps, starting on scene `k`, the new sounds are, in order, a subsequence of the labels of the scenes after `k` (sound `i` is the label of scene `ks[i]`, the `ks` strictly increasing), so at most one sound per later scene fires |
| `Timeline.PlaybackSoundBound` | App.tsx:48-98 | in one playback from mount with non-decreasing timestamps, the sound log is, in order, a subsequence of the labels of the scenes after the first, so at most `|script| - 1` sounds fire |
| `Timeline.ShippedScript` | App.tsx:75-97 | for `SCENES`: finish past 96 s, rescheduling stops after 106 s, at most 22 scene sounds per playback, and the bar is full at 60 s, before the end |
| `Timeline.Engine.constructor` | App.tsx:8-15 | a mounted engine is not started, has no start time, shows `SCENES[0]` and is not finished |
| `Timeline.Engine.PlaySound` | App.tsx:40-46 | the fields become `SoundPlayed` of the old ones |
| `Timeline.Engine.StartExperience` | App.tsx:48-63 | the fields become `Started` of the old ones |
| `Timeline.Engine.Loop` | App.tsx:65-98 | the fields become `Ticked` of the old ones |
| `Timeline.Engine.Unmount` | App.tsx:101-105 | the fields become `Unmounted` of the old ones |
| `Audio.StopAll` | utils/audio.ts:87-89 | stopping the tracked sources stops each of them once, in order, and does nothing else |
| `Audio.DisconnectAll` | utils/audio.ts:92-94 | disconnecting the tracked gains disconnects each of them once, in order, and does nothing else |
| `Audio.SfxKinds` | utils/audio.ts:107-215 | a cue creates nodes exactly when its label is `boom`, `whoosh`, `blast` or `glitch`, and the first node it creates is a source |
| `Audio.SfxGuarded` | utils/audio.ts:99 | the guard `!type || !audioCtx` of `playSfx`: an undefined or empty label, or no context; what it lets through is stated by `AudioState.PlaySfx` |
| `Audio.AmbientRegistryShape` | utils/audio.ts:23-83 | the bed tracks exactly four sources and four gains; all are nodes the call creates, all are distinct, and all are numbered from the call's first serial on |
| `Audio.GlitchPairs` | utils/audio.ts:194-212 | `n` glitch pairs are `2n` nodes alternating oscillator and gain |
| `Audio.SfxDispatch` | utils/audio.ts:107-215 | the `glitch` cue creates exactly 8 oscillator/gain pairs; any label other than the four cues, `'ambient'` included, creates nothing |
| `Audio.AudioState.constructor` | utils/audio.ts:1-3 | at module load there is no context and both lists are empty |
| `Audio.AudioState.CreateNode` | utils/audio.ts:23 | each `createX()` call makes a node with a new serial number and logs its creation |
| `Audio.AudioState.InitAudio` | utils/audio.ts:5-11 | a context is created only when none exists and the host offers one; an existing context is never replaced; the registry invariant `Valid` is kept |
| `Audio.AudioState.StopAmbient` | utils/audio.ts:86-96 | every tracked source is stopped and every tracked gain disconnected, in order, and both lists end empty; on empty lists nothing happens |
| `Audio.AudioState.PlayAmbient` | utils/audio.ts:17-84 | with no obtainable context nothing changes; otherwise the old bed is stopped first, exactly the new bed's 4 sources and 4 gains are tracked, and no node tracked before is still tracked |
| `Audio.AudioState.BuildAmbientBed` | utils/audio.ts:23-83 | the nine bed nodes are created in source order and `osc1`, `lfo1`, `osc2`, `lfo2` and the four gains are pushed |
| `Audio.AudioState.PlaySfx` | utils/audio.ts:98-216 | with an undefined or empty label, or no context, nothing happens; otherwise only the nodes of a known cue are created, and the registry and context are untouched; the registry invariant `Valid` is kept |
| `Audio.AudioState.Boom` | utils/audio.ts:108-123 | `boom` creates one oscillator and one gain |
| `Audio.AudioState.Whoosh` | utils/audio.ts:124-147 | `whoosh` creates a noise source, a filter and a gain |
| `Audio.AudioState.Blast` | utils/audio.ts:148-190 | `blast` creates two oscillator/gain pairs and a filter |
| `Audio.AudioState.GlitchBurst` | utils/audio.ts:191-214 | `glitch` creates 8 oscillator/gain pairs in its loop |

## Left out

- The effect in `App.tsx` that preloads and cleans up HTML audio elements (lines 20-38) is not modelled. The elements it creates are the `Engine` constructor's parameter: a map from sound label to playback position. `SOUND_PATHS`, which `App.tsx` imports, is not part of this model.
- An element's playback position moving forward while it plays is host behaviour. In the model, a position changes only when `playSound` rewinds it.
- `play()` promise rejections, `console.warn`, the JSX and the `toFixed` timecode are not modelled.
- `startExperience`'s `ambient.loop = true; ambient.play()` is recorded only as the flag `ambientLooping`.
- React's batching and any repeated calls of state updaters are not modelled. Every setter is an immediate assignment.
- Frame delivery is up to the caller of `Engine.Loop`. The model records requests and cancellations but does not stop a caller from delivering a cancelled frame.
- Seeking, scrubbing, replay and resuming a finished sequence are not modelled, because the code has none of them.
- Host timestamps are IEEE doubles. In the program, `(timestamp - startTime) / 1000` is rounded, so a frame whose exact elapsed time falls on a scene boundary can land one unit in the last place on either side of it. The model computes elapsed time exactly over `real`. Rounding is monotone, so the run-level lemmas, which rely only on elapsed time not decreasing, still describe the program.
- The synthesis graph of `utils/audio.ts` is not modelled. That covers frequencies, gain values and ramps, filter settings, connections, start times, the `stop(t + …)` calls that end one-shot cues, the `Math.random` noise fill, the per-burst random timing of `glitch`, and `resume()` on a suspended context.
- The `AudioBuffer` that `whoosh` creates is not a node, so it is not logged.
- The model assumes `stop()` and `disconnect()` may throw. The code swallows those errors, so the model logs every attempt and always carries on.
- `Timeline.Engine.Loop` requires a non-empty script. The code reads the constant `SCENES`, which always has 23 entries.
