# Timelord blender: directors and the mixer

UnityTimelordBlender plays Unity timelines on a character and blends between
them. Each timeline has a **TimelordDirector**. It owns the timeline's
animation output and runs a four-state blend machine
(`None`, `In`, `Out`, `Seek`). `Play` fades the output in, `Stop` fades it out,
`Seek` cross-fades from a clone of the playable to the original after a jump,
and `Update` starts the blend-out that `Play` scheduled. Above the directors, a
**TimelordMixer** keeps a registry from timeline asset to director, a FIFO
queue of directors waiting to play, and the `Current` director. It hands over
to the next queued director once the current one is absent, paused or blending
out.

The project has five modules:

- `Engine` (engine.dfy): the handles the blender passes around. It has an
  `Option` for nullable values, timeline assets and callbacks as identities,
  and an `Output` object (valid or not, and the weight last set on it).
- `Ramps` (ramps.dfy): the three coroutines `BlendIn`, `BlendOut` and
  `SeekBlend` as step objects. Each has a local time `t`, a `blendTime` and a
  `done` flag. A Unity coroutine runs synchronously up to its first `yield`,
  so the constructor `Start` runs that far, and `Advance(dt)` is one
  resumption one frame later. The shared static `_abortBlendIn` is the one
  `AbortFlag` object that every director holds. The `...Weights` methods drive
  a ramp over a whole run of frame times and prove what the run promises:
  bounds, monotonicity, the first and the last weight.
- `Directors` (director.dfy): the class `TimelordDirector`, with its fields
  `CurrentBlend`, `_outTime`, `_scheduledBlendOutCallback` and
  `_scheduledBlendOutDuration`. The playable's state is abstracted as
  playing and time, the clone's as playing and time, and the cross-fade
  mixer as its two input weights. Running coroutines form a list. The engine
  resumes one of them with `ResumeBlendIn`, `ResumeBlendOut` or `ResumeSeek`;
  when a coroutine ends, its completion callback runs. Fired callbacks are
  recorded in order. `State()` is the control state as one value, and every
  transition is stated in terms of it.
- `Mixers` (mixer.dfy): the class `TimelordMixer`. It keeps `queue`,
  `current` and `registry`, and it really calls the director methods. It also
  records each call it makes in a ghost log `calls`: the target and which of
  `Play()`, `Stop(t)` or `Seek(0, t)` it was.
- `Scenarios` (scenarios.dfy): frame-by-frame runs on fresh objects.

Engine inputs are parameters:
- `dt` is the frame's `Time.deltaTime`, a non-negative real.
- `rebuildSucceeds` says whether `RebuildGraph` plus `BuildOutput` would
  produce a valid output.
- `AdvanceClock` and `InvalidateOutput` model the engine advancing playback
  and destroying the graph.

Behaviours of the code that the model keeps as they are:
- `_outTime` is computed as the code computes it. For `endTime < 0` it is
  the track's end minus `blendOutDuration`. Otherwise it is
  `max(0, endTime - blendInDuration)`. In both cases one frame's `dt` is then
  subtracted. So only a negative `endTime` means "the track's end": at
  `endTime == 0` the result is `max(0, -blendInDuration) - dt`.
- A `Play` whose rebuild fails leaves the blend at `In`, not at `None`.
- A `Seek` on an invalid output leaves the blend at `Seek`.
- `Play` with `blendInDuration == 0` leaves the blend at `In`.
- A blend-in aborted by `Stop` still runs its completion callback. That
  callback sets the weight to 1, clears the scheduled blend-out callback and
  puts the blend back to `None`, although the blend-out that `Stop` started is
  still running. `Scenarios.StopDuringBlendIn` shows this on one run.

## Model

| member | source | states |
|---|---|---|
| Engine.Fire | UnityTimelordBlender/Assets/Scripts/TimelordDirector.cs:154 | `callback?.Invoke()` leaves the record of earlier calls as it was and adds exactly one entry, the callback, when it is not null, and none when it is null |
| Ramps.Clamp01 | UnityTimelordBlender/Assets/Scripts/TimelordDirector.cs:291 | the result lies in [0,1], is the input inside [0,1], and is 0 below and 1 above it |
| Ramps.ProgressMonotonic | UnityTimelordBlender/Assets/Scripts/TimelordDirector.cs:291-298 | for a positive blend time, `Clamp01(t / blendTime)` does not decrease as `t` grows |
| Ramps.ProgressBelowOne | UnityTimelordBlender/Assets/Scripts/TimelordDirector.cs:282-291 | while the loop guard `t < blendTime` holds, the progress is below 1 |
| Ramps.BlendOutStartsAtFromWeight | UnityTimelordBlender/Assets/Scripts/TimelordDirector.cs:242-248 | starting at `t = blendTime - blendTime * fromWeight` makes the first blend-out weight equal `fromWeight`, for `fromWeight` in [0,1] and a positive blend time |
| Ramps.ProgressFullBelowNegative | UnityTimelordBlender/Assets/Scripts/TimelordDirector.cs:246-248 | with a negative blend time, the loop guard forces full progress |
| Ramps.AbortFlag.constructor | UnityTimelordBlender/Assets/Scripts/TimelordDirector.cs:93 | the static abort flag starts lowered |
| Ramps.BlendInRamp.Start | UnityTimelordBlender/Assets/Scripts/TimelordDirector.cs:276-297 | starting the blend-in lowers the shared flag and sets weight 0, or weight 1 when the blend time is not positive |
| Ramps.BlendInRamp.Advance | UnityTimelordBlender/Assets/Scripts/TimelordDirector.cs:282-301 | one frame adds `dt` to `t`; the weight never decreases; the ramp ends iff the flag was raised or time is up; a raised flag is lowered by the abort |
| Ramps.BlendOutRamp.Start | UnityTimelordBlender/Assets/Scripts/TimelordDirector.cs:242-266 | the blend-out starts at `blendTime - blendTime * fromWeight`; it ends at once iff that fails the guard or the output is invalid; it sets 0 on a valid output when it ends |
| Ramps.BlendOutRamp.Advance | UnityTimelordBlender/Assets/Scripts/TimelordDirector.cs:246-266 | one frame adds `dt`; the weight never increases; the ramp ends iff time is up or the output became invalid; an invalid output's weight is never written |
| Ramps.BlendOutRamp.Pass | UnityTimelordBlender/Assets/Scripts/TimelordDirector.cs:246-266 | one pass of the loop: weight `1 - Clamp01(t / blendTime)` on a valid output, else the end with weight 0 when valid |
| Ramps.SeekRamp.Start | UnityTimelordBlender/Assets/Scripts/TimelordDirector.cs:307-343 | the clone takes over with weights 1 and 0, unless the blend time is not positive, in which case the original takes over at once |
| Ramps.SeekRamp.Advance | UnityTimelordBlender/Assets/Scripts/TimelordDirector.cs:335-352 | one frame adds `dt`; the original's weight never decreases; the two weights sum to 1; the ramp ends iff time is up |
| Ramps.SeekRamp.Pass | UnityTimelordBlender/Assets/Scripts/TimelordDirector.cs:335-352 | one pass: weights `1 - p` and `p`, or 0 and 1 once the loop is over |
| Ramps.BlendInWeights | UnityTimelordBlender/Assets/Scripts/TimelordDirector.cs:274-303 | over any run of frames: the first weight is 0 for a positive blend time; every weight lies in [0,1] and they never decrease; the last is 1 iff the ramp finished, which happens iff time ran out or the shared flag is up when the ramp resumes (a `Stop` raises it, but another director's blend-in can take the raise first or lower it by starting) |
| Ramps.BlendOutWeights | UnityTimelordBlender/Assets/Scripts/TimelordDirector.cs:239-268 | over any run of frames on a valid output: the first weight is `fromWeight` (for `fromWeight` in [0,1] and a positive blend time); every weight lies in [0,1] and they never increase; a finished ramp ends at 0; it finishes iff the start offset plus the elapsed time reaches the blend time |
| Ramps.SeekWeights | UnityTimelordBlender/Assets/Scripts/TimelordDirector.cs:305-352 | over any run of frames: clone weight plus original weight is 1 at every step; the original's weight never decreases; a finished cross-fade ends at 0 and 1; it finishes iff time ran out |
| Directors.ScheduledOutTime | UnityTimelordBlender/Assets/Scripts/TimelordDirector.cs:140-142 | for `endTime < 0`, `_outTime + dt + blendOutDuration` is the track's end; otherwise `_outTime + dt` is `max(0, endTime - blendInDuration)` |
| Directors.StartPosition | UnityTimelordBlender/Assets/Scripts/TimelordDirector.cs:276 | the playhead starts at `startTime` when it is positive and at 0 when it is not, so it is never negative |
| Directors.BlendInCompleted | UnityTimelordBlender/Assets/Scripts/TimelordDirector.cs:153-157 | the blend-in's completion fires `onBlendInFinished` (if not null), clears the scheduled blend-out callback, returns the blend to `None` and changes nothing else |
| Directors.BlendOutCompleted | UnityTimelordBlender/Assets/Scripts/TimelordDirector.cs:263-271 | the end of a blend-out leaves the blend `None` and the director paused; a blend-out from `Update` fires and clears the scheduled callback, one from `Stop` fires `Stop`'s callback and keeps the scheduled one; nothing else changes |
| Directors.SeekCompleted | UnityTimelordBlender/Assets/Scripts/TimelordDirector.cs:351-358 | the end of a cross-fade pauses the clone, fires `onFinished` (if not null), returns the blend to `None` and changes nothing else |
| Directors.TimelordDirector.IsPlaying | UnityTimelordBlender/Assets/Scripts/TimelordDirector.cs:66 | `IsPlaying` is whether the playable is playing |
| Directors.TimelordDirector.IsBlendingOut | UnityTimelordBlender/Assets/Scripts/TimelordDirector.cs:72 | `IsBlendingOut` is whether the blend is `Out` |
| Directors.TimelordDirector.constructor | UnityTimelordBlender/Assets/Scripts/TimelordDirector.cs:62-93 | a new director is idle (`None`), with `_outTime = -1`, no scheduled callback, no valid output and no coroutine |
| Directors.TimelordDirector.RebuildOutput | UnityTimelordBlender/Assets/Scripts/TimelordDirector.cs:131-132 | a successful rebuild gives a fresh valid output at weight 1 with the original playable fully weighted; a failed one changes nothing |
| Directors.TimelordDirector.EnsureOutput | UnityTimelordBlender/Assets/Scripts/TimelordDirector.cs:128-133 | the output is valid afterwards iff it was already valid or the rebuild succeeded |
| Directors.TimelordDirector.StartBlendIn | UnityTimelordBlender/Assets/Scripts/TimelordDirector.cs:152-157 | starting `BlendIn` places the playhead, plays, lowers the flag and adds a running blend-in at weight 0; a non-positive blend time completes at once (weight 1, callback fired and cleared, blend `None`) |
| Directors.TimelordDirector.StartBlendOut | UnityTimelordBlender/Assets/Scripts/TimelordDirector.cs:202-206 | starting `BlendOut` from the output's weight either completes at once or adds a running blend-out whose first weight is that weight |
| Directors.TimelordDirector.StartSeekBlend | UnityTimelordBlender/Assets/Scripts/TimelordDirector.cs:226-230 | starting `SeekBlend` gives the clone the old time and the original `toTime`; the output gets weight 1; the cross-fade runs or completes at once |
| Directors.TimelordDirector.Play | UnityTimelordBlender/Assets/Scripts/TimelordDirector.cs:119-169 | no-op unless the blend is `None`; otherwise the blend is `In` and a missing output is rebuilt; a failed rebuild stops there (blend stays `In`); else callback, duration and `_outTime` are scheduled; for `blendInDuration == 0` the director just plays and stays `In`; otherwise the blend-in starts; only the director, its output and the shared flag are written |
| Directors.TimelordDirector.ScheduleAndStart | UnityTimelordBlender/Assets/Scripts/TimelordDirector.cs:135-158 | with a valid output, the scheduled callback, duration and `_outTime` are set, then the director plays (blend-in duration 0) or the blend-in starts |
| Directors.TimelordDirector.Stop | UnityTimelordBlender/Assets/Scripts/TimelordDirector.cs:171-214 | a non-positive duration pauses first; from `Out` or `Seek` nothing else happens; from `In` the shared flag is raised, but not from `None`; the blend becomes `Out` and the blend-out starts from the current weight (1 after a rebuild) when the output is valid, or the blend is `None` and the director paused when the blend-out ends at once; running coroutines' ramps are not touched |
| Directors.TimelordDirector.BeginBlendOut | UnityTimelordBlender/Assets/Scripts/TimelordDirector.cs:186-207 | past the guard: flag raised iff the blend was `In`; blend `Out`; rebuild if needed; the blend-out starts on a valid output; running coroutines' ramps are not touched |
| Directors.TimelordDirector.Seek | UnityTimelordBlender/Assets/Scripts/TimelordDirector.cs:216-237 | only from `None`; the blend becomes `Seek`; on an invalid output nothing else happens (no rebuild); on a valid one the cross-fade starts |
| Directors.TimelordDirector.Update | UnityTimelordBlender/Assets/Scripts/TimelordDirector.cs:96-117 | the scheduled blend-out starts iff playing, blend `None`, `_outTime >= 0` and time `>= _outTime`; the blend becomes `Out`, or `None` when the blend-out ends at once; otherwise nothing changes |
| Directors.TimelordDirector.ResumeBlendIn | UnityTimelordBlender/Assets/Scripts/TimelordDirector.cs:282-302 | one frame of the blend-in: its weight never decreases; it ends iff aborted or time is up, ending at weight 1; completion fires `onBlendInFinished`, clears the scheduled callback and returns to `None`; only the director, that coroutine's ramp and output, and the shared flag are written |
| Directors.TimelordDirector.ResumeBlendOut | UnityTimelordBlender/Assets/Scripts/TimelordDirector.cs:246-271 | one frame of the blend-out: its weight never increases; it ends iff time is up or the output became invalid, at weight 0 on a valid output; completion fires the scheduled callback (and clears it) or `Stop`'s, returns to `None` and pauses; only the director and that coroutine's ramp and output are written |
| Directors.TimelordDirector.ResumeSeek | UnityTimelordBlender/Assets/Scripts/TimelordDirector.cs:335-358 | one frame of the cross-fade: the mixer gets weights summing to 1; at the end they are 0 and 1, the clone pauses, `onFinished` fires and the blend returns to `None`; only that coroutine's ramp and the director are written |
| Directors.TimelordDirector.AdvanceClock | UnityTimelordBlender/Assets/Scripts/TimelordDirector.cs:100 | a frame advances the time of a playing director and of a playing clone and nothing else |
| Directors.TimelordDirector.InvalidateOutput | UnityTimelordBlender/Assets/Scripts/TimelordDirector.cs:128 | the engine can invalidate the output; its weight is kept |
| Mixers.Resolve | UnityTimelordBlender/Assets/Scripts/TimelordMixer.cs:69-72 | the directors queued for a list of timelines are registered ones, and there are at most as many as timelines |
| Mixers.RegistryOf | UnityTimelordBlender/Assets/Scripts/TimelordMixer.cs:24 | every non-null director is registered under its own asset, and only those directors are |
| Mixers.ResolveAppend | UnityTimelordBlender/Assets/Scripts/TimelordMixer.cs:69-72 | enqueuing one more timeline appends its director when it is registered and nothing otherwise |
| Mixers.ResolveMembers | UnityTimelordBlender/Assets/Scripts/TimelordMixer.cs:69-72 | a director is queued iff some timeline in the list is registered to it |
| Mixers.ResolveRegistered | UnityTimelordBlender/Assets/Scripts/TimelordMixer.cs:69-72 | a list of registered timelines is queued whole, element by element, in order |
| Mixers.TimelordMixer.constructor | UnityTimelordBlender/Assets/Scripts/TimelordMixer.cs:22-25 | `Start` builds the registry from the non-null directors; the queue is empty and there is no current director |
| Mixers.TimelordMixer.Play | UnityTimelordBlender/Assets/Scripts/TimelordMixer.cs:26-63 | null or unregistered timeline: nothing changes and no director is called; no current: the queue is `[director]` and no director changes; current is that director and playing: the queue is empty and `Seek(0, t)` is called, with its effect on the blend, playing flag and time, and the abort flag untouched; otherwise the queue is `[director]`, and `Stop(t)` is called iff `playImmediately` and current is playing, with the effect `StopCurrent` states on the blend, playing flag, time and abort flag; `Current` never changes and no other registered director's objects change |
| Mixers.TimelordMixer.PlayRegistered | UnityTimelordBlender/Assets/Scripts/TimelordMixer.cs:40-62 | past the guards of `Play`: the queue is cleared; with no current director it then holds the director; when the director is the current one and playing, the queue stays empty and it seeks back to 0 with the effect `SeekCurrent` states; otherwise as `QueueBehindCurrent`; other directors are untouched |
| Mixers.TimelordMixer.QueueBehindCurrent | UnityTimelordBlender/Assets/Scripts/TimelordMixer.cs:53-62 | the director waits alone in the queue; the current director is stopped iff `playImmediately` and it is playing, with the effect `StopCurrent` states (blend, playing flag, time and abort flag), and no director changes otherwise |
| Mixers.TimelordMixer.Enqueue | UnityTimelordBlender/Assets/Scripts/TimelordMixer.cs:67-72 | the queue becomes the registered timelines of the list mapped through the registry, in order |
| Mixers.TimelordMixer.PlayCurrent | UnityTimelordBlender/Assets/Scripts/TimelordMixer.cs:93 | `Current.Play()` is called once and logged: a director that was blending is unchanged and so is the abort flag; an idle one is now blending in; once its output is or becomes valid it plays from time 0 and the shared abort flag is lowered; if the output stays invalid its playing state, time and the flag are kept; no other registered director changes |
| Mixers.TimelordMixer.SeekCurrent | UnityTimelordBlender/Assets/Scripts/TimelordMixer.cs:51 | `Current.Seek(0, t)` is called once and logged: a blending director is unchanged; an idle one with an invalid output is left at `Seek`; an idle one with a valid output is playing at time 0, cross-fading unless `t` is not positive; the abort flag and the other directors are unchanged |
| Mixers.TimelordMixer.StopCurrent | UnityTimelordBlender/Assets/Scripts/TimelordMixer.cs:76 | `Current.Stop(t)` is called once and logged: its time is kept; a blend-out or seek keeps its blend and the abort flag, and keeps playing iff it was playing and `t` is positive; otherwise the abort flag is raised iff it was blending in, the blend is `Out`, or `None` when the blend-out ended at once, and it keeps playing iff it was playing, `t` is positive and the blend is `Out`; no other registered director changes |
| Mixers.TimelordMixer.PlaySequence | UnityTimelordBlender/Assets/Scripts/TimelordMixer.cs:65-78 | the queue is the list's registered timelines mapped through the registry, in order; `Stop(t)` is called iff `playImmediately`, there is a current director and it is not blending out, with the effect `StopCurrent` states, and otherwise no director changes; `Current` is unchanged |
| Mixers.TimelordMixer.Update | UnityTimelordBlender/Assets/Scripts/TimelordMixer.cs:79-95 | with an empty queue nothing changes; otherwise, when current is null, paused or blending out, the old head becomes current, the queue is the old tail and `Play()` is called on it, with the effect `PlayCurrent` states, and no other director changes; else nothing changes |
| Mixers.TimelordMixer.IsTimelinePlaying | UnityTimelordBlender/Assets/Scripts/TimelordMixer.cs:21 | true iff the queue is non-empty or some registered director is playing |
| Scenarios.BlendInAtFifth | UnityTimelordBlender/Assets/Scripts/TimelordDirector.cs:282-291 | a `Play(0.5)` blend-in after one frame of 0.1 is at weight 0.2, blending in, with the blend-in as its only coroutine |
| Scenarios.StopDuringBlendIn | UnityTimelordBlender/Assets/Scripts/TimelordDirector.cs:284-302 | a `Stop` during a blend-in at weight 0.2: on the next frame the aborted blend-in sets weight 1 and returns the blend to `None` while the blend-out is still running |
| Scenarios.TwoTimelines | UnityTimelordBlender/Assets/Scripts/TimelordMixer.cs:22-25 | a mixer over two directors registers each under its own asset |
| Scenarios.PlayThenUpdate | UnityTimelordBlender/Assets/Scripts/TimelordMixer.cs:42-94 | `Play` on an idle mixer, then `Update`: that director is current, the queue is empty and exactly one `Play()` was called |
| Scenarios.PlayList | UnityTimelordBlender/Assets/Scripts/TimelordMixer.cs:65-78 | `Play([2, 7, 1])` with only 1 and 2 registered queues `[d2, d1]`, calls no director, and the mixer then reports a timeline playing |

## Left out

- Floats: `float` and `double` are `real`. `Mathf.Clamp01` rounding, accumulation error in `t += Time.deltaTime`, and the `float`-to-`double` widening of `_outTime` are not modelled.
- Graph plumbing: `BuildOutput` and `RebuildGraph` are not modelled. They are reduced to whether the rebuild yields a valid output, taken as the parameter `rebuildSucceeds`. A rebuilt output has weight 1, and the rebuilt mixer gives the original playable full weight.
- Engine resumption: Unity resumes every coroutine each frame, in its own order. Here the engine's choice of coroutine is the index passed to `ResumeBlendIn`, `ResumeBlendOut` or `ResumeSeek`. Frame times are parameters.
- `PlayableDirector.Evaluate`, `_clone.SetTime` and `Pause` are modelled only through the playing flag and time of the director and its clone.
- `director.isActiveAndEnabled` is taken to be true, so a finished blend-out always pauses.
- Callbacks: what a callback does when invoked is not modelled. A callback is an identity recorded in `fired`. Re-entrant calls from a callback into the director or the mixer are not modelled.
- `Debug.Log` and the `Stopwatch` are diagnostics only and are not modelled.
- Mixers.TimelordMixer.Update: the `_playAll` debug trigger, which refills the queue with every director including null ones, is not modelled.
- Mixers.TimelordMixer.constructor: a repeated asset, or a director whose asset is not a `TimelineAsset`, makes `ToDictionary` throw. The model requires distinct assets instead.
- Mixers.TimelordMixer.PlaySequence: a null list, or a null element, throws in the original. The model's list cannot hold null.
- Mixers.TimelordMixer.Play, Mixers.TimelordMixer.PlaySequence and Mixers.TimelordMixer.Update: these state which director method is called, through the ghost log `calls`, and its effect on the director's blend, playing flag and time and on the shared abort flag, as `Played`, `Seeked` and `Stopped` give it. The rest of that director's new state (output and mixer weights, coroutines, `_outTime`, the scheduled callback and duration, fired callbacks) is given by the director's own contracts and is not restated at the mixer.
- Directors.TimelordDirector.constructor: a new director starts paused at time 0. `Play On Awake` is not modelled. Nor is the engine stopping playback at the track's end (wrap mode `None`): playback only advances through `AdvanceClock`.
- The components outside the blender core are not part of this model: input handling, animator parameters, UI wiring, state-machine behaviours and gizmos.
