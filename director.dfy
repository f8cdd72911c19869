// TimelordDirector: one timeline's playback and its blend state machine.
//
// `CurrentBlend` moves between None, In, Out and Seek under `Play`, `Stop`,
// `Seek` and `Update`, and the ramps (module Ramps) run as coroutines that the
// engine resumes once per frame; a ramp's last act is a completion callback
// that puts `CurrentBlend` back to None. The engine itself is reduced to what
// this logic reads and writes: whether the director is playing and at what
// time, the output handle (valid or not, and its weight), the two input
// weights of the cross-fade mixer, and the clone playable's time.

module Directors {
  import Engine
  import opened Ramps

  type Callback = Engine.Callback
  type OptCallback = Engine.Option<Engine.Callback>

  /** `TimelordDirector.BlendType`. */
  datatype BlendType = None | In | Out | Seek

  /** A running coroutine: the ramp it steps and what its completion does. */
  datatype Coroutine =
    | BlendingIn(inRamp: BlendInRamp, onBlendInFinished: OptCallback)
    | BlendingOut(outRamp: BlendOutRamp, onFinished: OptCallback, scheduled: bool)
    | Seeking(seekRamp: SeekRamp, onFinished: OptCallback)
  {
    function Ramp(): object
    {
      match this
      case BlendingIn(r, _) => r
      case BlendingOut(r, _, _) => r
      case Seeking(r, _) => r
    }

    /** The objects a resumption writes. */
    ghost function Footprint(): set<object>
    {
      match this
      case BlendingIn(r, _) => {r, r.output}
      case BlendingOut(r, _, _) => {r, r.output}
      case Seeking(r, _) => {r}
    }

    ghost predicate Done()
      reads Ramp()
    {
      match this
      case BlendingIn(r, _) => r.done
      case BlendingOut(r, _, _) => r.done
      case Seeking(r, _) => r.done
    }

    /** The ramp is consistent and waits for its next resumption. */
    ghost predicate Running()
      reads Ramp()
    {
      match this
      case BlendingIn(r, _) => r.Valid() && !r.done
      case BlendingOut(r, _, _) => r.Valid() && !r.done
      case Seeking(r, _) => r.Valid() && !r.done
    }

    /** The ramp's local time `t`. */
    ghost function Elapsed(): real
      reads Ramp()
    {
      match this
      case BlendingIn(r, _) => r.t
      case BlendingOut(r, _, _) => r.t
      case Seeking(r, _) => r.t
    }
  }

  /** The director's control state: everything but the weights. */
  datatype DirectorState = DirectorState(
    blend: BlendType,              // CurrentBlend
    outTime: real,                 // _outTime
    scheduledCallback: OptCallback, // _scheduledBlendOutCallback
    scheduledDuration: real,       // _scheduledBlendOutDuration
    playing: bool,                 // PlayableDirector.state == Playing
    time: real,                    // PlayableDirector.time
    clonePlaying: bool,            // the clone playable is playing
    cloneTime: real,               // the clone playable's time
    fired: seq<Callback>)          // the callbacks invoked so far, in order

  /** `_outTime` as `Play` computes it. */
  function ScheduledOutTime(endTime: real, blendInDuration: real, blendOutDuration: real,
                            trackStart: real, trackDuration: real, dt: real): (r: real)
    ensures endTime < 0.0 ==> r + dt + blendOutDuration == trackStart + trackDuration
    ensures 0.0 <= endTime ==> 0.0 <= r + dt && endTime - blendInDuration <= r + dt
    ensures 0.0 <= endTime ==> r + dt == 0.0 || r + dt == endTime - blendInDuration
  {
    (if endTime < 0.0
     then trackStart + trackDuration - blendOutDuration
     else if 0.0 < endTime - blendInDuration then endTime - blendInDuration else 0.0) - dt
  }

  /** Where `BlendIn` puts the playhead: `startTime`, or 0 unless positive. */
  function StartPosition(startTime: real): (r: real)
    ensures 0.0 <= r
    ensures 0.0 < startTime ==> r == startTime
    ensures startTime <= 0.0 ==> r == 0.0
  {
    if 0.0 < startTime then startTime else 0.0
  }

  /** The blend-in completion callback of `Play`. */
  function BlendInCompleted(s: DirectorState, onBlendInFinished: OptCallback): (r: DirectorState)
    ensures r.blend == None && r.scheduledCallback == Engine.None
    ensures r.fired == Engine.Fire(s.fired, onBlendInFinished)
    ensures r.(blend := s.blend, scheduledCallback := s.scheduledCallback, fired := s.fired) == s
  {
    s.(fired := Engine.Fire(s.fired, onBlendInFinished),
       scheduledCallback := Engine.None,
       blend := None)
  }

  /** The end of `BlendOut` with its completion callback: from `Update`, the
      scheduled callback fires and is cleared; from `Stop`, `onFinished` fires.
      Then the director is paused. */
  function BlendOutCompleted(s: DirectorState, onFinished: OptCallback, scheduled: bool): (r: DirectorState)
    ensures r.blend == None && !r.playing
    ensures scheduled ==> r.scheduledCallback == Engine.None && r.fired == Engine.Fire(s.fired, s.scheduledCallback)
    ensures !scheduled ==> r.scheduledCallback == s.scheduledCallback && r.fired == Engine.Fire(s.fired, onFinished)
    ensures r.(blend := s.blend, playing := s.playing, scheduledCallback := s.scheduledCallback, fired := s.fired) == s
  {
    var s' := if scheduled
              then s.(fired := Engine.Fire(s.fired, s.scheduledCallback), scheduledCallback := Engine.None)
              else s.(fired := Engine.Fire(s.fired, onFinished));
    s'.(blend := None, playing := false)
  }

  /** The end of `SeekBlend` with the completion callback of `Seek`. */
  function SeekCompleted(s: DirectorState, onFinished: OptCallback): (r: DirectorState)
    ensures r.blend == None && !r.clonePlaying
    ensures r.fired == Engine.Fire(s.fired, onFinished)
    ensures r.(blend := s.blend, clonePlaying := s.clonePlaying, fired := s.fired) == s
  {
    s.(clonePlaying := false, fired := Engine.Fire(s.fired, onFinished), blend := None)
  }


  class TimelordDirector {
    const asset: Engine.Asset   // PlayableDirector.playableAsset
    const trackStart: real      // _trackAsset.start
    const trackDuration: real   // _trackAsset.duration
    const abort: AbortFlag      // the static _abortBlendIn, shared by all directors

    var blend: BlendType
    var outTime: real
    var scheduledCallback: OptCallback
    var scheduledDuration: real
    var playing: bool
    var time: real
    var clonePlaying: bool
    var cloneTime: real
    var fired: seq<Callback>

    var output: Engine.Output   // _output
    var cloneWeight: real       // the mixer's input weight for _clone
    var originalWeight: real    // the mixer's input weight for the original playable
    var coroutines: seq<Coroutine>

    ghost var Repr: set<object>

    ghost function State(): DirectorState
      reads this
    {
      DirectorState(blend, outTime, scheduledCallback, scheduledDuration,
                    playing, time, clonePlaying, cloneTime, fired)
    }

    ghost predicate Valid()
      reads this, Repr
    {
      Owned() && forall i :: 0 <= i < |coroutines| ==> coroutines[i].Running()
    }

    /** Everything `Valid` asks but that each coroutine is still running. */
    ghost predicate Owned()
      reads this, Repr
    {
      && this in Repr && output in Repr && abort !in Repr
      && 0.0 <= output.weight <= 1.0
      && 0.0 <= originalWeight <= 1.0 && cloneWeight + originalWeight == 1.0
      && (forall i :: 0 <= i < |coroutines| ==>
            coroutines[i].Footprint() <= Repr && coroutines[i].Ramp() != this && coroutines[i].Ramp() != output)
      && (forall i, j :: 0 <= i < j < |coroutines| ==> coroutines[i].Ramp() != coroutines[j].Ramp())
    }

    /** `IsPlaying`. */
    predicate IsPlaying()
      reads this
    {
      playing
    }

    /** `IsBlendingOut`. */
    predicate IsBlendingOut()
      reads this
    {
      blend == Out
    }

    /** The coroutines now running are those of `before` plus one more. */
    ghost predicate Appended(before: seq<Coroutine>)
      reads this
    {
      |coroutines| == |before| + 1 && coroutines[..|before|] == before
    }

    /** The coroutine started last. */
    function Newest(): Coroutine
      requires |coroutines| > 0
      reads this
    {
      coroutines[|coroutines| - 1]
    }

    /** A director as `Awake` leaves it: idle, paused at 0, with no output yet. */
    constructor (asset: Engine.Asset, trackStart: real, trackDuration: real, abort: AbortFlag)
      ensures Valid() && fresh(Repr)
      ensures this.asset == asset && this.trackStart == trackStart
      ensures this.trackDuration == trackDuration && this.abort == abort
      ensures State() == DirectorState(None, -1.0, Engine.None, 0.0, false, 0.0, false, 0.0, [])
      ensures !output.valid && coroutines == []
    {
      this.asset := asset;
      this.trackStart := trackStart;
      this.trackDuration := trackDuration;
      this.abort := abort;
      blend := None;
      outTime := -1.0;
      scheduledCallback := Engine.None;
      scheduledDuration := 0.0;
      playing := false;
      time := 0.0;
      clonePlaying := false;
      cloneTime := 0.0;
      fired := [];
      cloneWeight := 0.0;
      originalWeight := 1.0;
      coroutines := [];
      output := new Engine.Output(false, 0.0);
      new;
      Repr := {this, output};
    }

    /** Writes the control state in one step. */
    method SetState(s: DirectorState)
      requires Valid()
      modifies this
      ensures Valid() && State() == s && Repr == old(Repr)
      ensures output == old(output) && coroutines == old(coroutines)
      ensures cloneWeight == old(cloneWeight) && originalWeight == old(originalWeight)
    {
      blend, outTime, scheduledCallback, scheduledDuration := s.blend, s.outTime, s.scheduledCallback, s.scheduledDuration;
      playing, time, clonePlaying, cloneTime, fired := s.playing, s.time, s.clonePlaying, s.cloneTime, s.fired;
      ControlKeepsValid();
    }

    /** Writing only control fields of the director keeps it valid: every
        coroutine's ramp lies outside `this`, so it is still running. */
    twostate lemma ControlKeepsValid()
      requires old(Valid()) && Repr == old(Repr) && unchanged(Repr - {this})
      requires output == old(output) && coroutines == old(coroutines)
      requires cloneWeight == old(cloneWeight) && originalWeight == old(originalWeight)
      ensures Valid()
    {
      forall i | 0 <= i < |coroutines|
        ensures coroutines[i].Running()
      {
        assert coroutines[i].Ramp() in old(Repr) - {this};
      }
    }

    /** Hands a started coroutine to the engine, which resumes it from now on. */
    method Spawn(c: Coroutine)
      requires Valid() && c.Running()
      requires c.Ramp() !in Repr && c.Footprint() <= Repr + {c.Ramp()}
      modifies this
      ensures Valid() && Repr == old(Repr) + {c.Ramp()}
      ensures coroutines == old(coroutines) + [c]
      ensures State() == old(State()) && output == old(output)
      ensures cloneWeight == old(cloneWeight) && originalWeight == old(originalWeight)
    {
      coroutines := coroutines + [c];
      Repr := Repr + {c.Ramp()};
    }

    /** The engine drops a coroutine that ran to its end. */
    method Retire(i: nat)
      requires Owned() && i < |coroutines|
      requires forall j :: 0 <= j < |coroutines| && j != i ==> coroutines[j].Running()
      modifies this
      ensures Valid() && Repr == old(Repr)
      ensures coroutines == old(coroutines[..i] + coroutines[i + 1..])
      ensures State() == old(State()) && output == old(output)
      ensures cloneWeight == old(cloneWeight) && originalWeight == old(originalWeight)
    {
      coroutines := coroutines[..i] + coroutines[i + 1..];
    }

    /** `RebuildGraph` followed by `BuildOutput`: on success a new valid output
        of weight 1 over a new mixer that gives the original playable all the
        weight; on failure the output stays invalid. */
    method RebuildOutput(succeeds: bool)
      requires Valid() && !output.valid
      modifies this
      ensures Valid() && fresh(Repr - old(Repr))
      ensures State() == old(State()) && coroutines == old(coroutines)
      ensures succeeds ==> fresh(output) && output.valid && output.weight == 1.0
      ensures succeeds ==> cloneWeight == 0.0 && originalWeight == 1.0
      ensures !succeeds ==> unchanged(this)
    {
      if succeeds {
        output := new Engine.Output(true, 1.0);
        cloneWeight, originalWeight := 0.0, 1.0;
        Repr := Repr + {output};
      }
    }

    /** The rebuild that `Play` and `Stop` do when the output is no longer valid. */
    method EnsureOutput(succeeds: bool)
      requires Valid()
      modifies this
      ensures Valid() && fresh(Repr - old(Repr))
      ensures State() == old(State()) && coroutines == old(coroutines)
      ensures output.valid == (old(output.valid) || succeeds)
      ensures output.weight == if old(output.valid) then old(output.weight) else if succeeds then 1.0 else old(output.weight)
      ensures if old(output.valid) || !succeeds then output == old(output) && cloneWeight == old(cloneWeight) && originalWeight == old(originalWeight)
        else fresh(output) && cloneWeight == 0.0 && originalWeight == 1.0
    {
      if !output.valid {
        RebuildOutput(succeeds);
      }
    }

    /** `StartCoroutine(BlendIn(...))`, which runs up to its first yield: the
        playhead moves to the start position, the director plays and the ramp
        starts on the current output. When the loop does not run at all
        (blend time not positive) the completion happens inside this call. */
    method StartBlendIn(blendTime: real, startTime: real, onBlendInFinished: OptCallback)
      requires Valid()
      modifies this, output, abort
      ensures Valid() && fresh(Repr - old(Repr))
      ensures output == old(output) && output.valid == old(output.valid)
      ensures cloneWeight == old(cloneWeight) && originalWeight == old(originalWeight)
      ensures !abort.raised
      ensures blendTime <= 0.0 ==>
        && State() == BlendInCompleted(old(State()).(time := StartPosition(startTime), playing := true), onBlendInFinished)
        && coroutines == old(coroutines)
        && output.weight == 1.0
      ensures 0.0 < blendTime ==>
        && State() == old(State()).(time := StartPosition(startTime), playing := true)
        && output.weight == 0.0
        && Appended(old(coroutines)) && Newest().BlendingIn? && fresh(Newest().inRamp)
        && Newest().inRamp.output == output && Newest().inRamp.blendTime == blendTime
        && Newest().inRamp.t == 0.0 && Newest().onBlendInFinished == onBlendInFinished
    {
      var ramp := new BlendInRamp.Start(output, blendTime, abort);
      var s := DirectorState(blend, outTime, scheduledCallback, scheduledDuration,
                             true, StartPosition(startTime), clonePlaying, cloneTime, fired);
      if ramp.done {
        SetState(BlendInCompleted(s, onBlendInFinished));
      } else {
        SetState(s);
        Spawn(BlendingIn(ramp, onBlendInFinished));
      }
    }

    /** `StartCoroutine(BlendOut(...))` from the current output weight, which
        runs up to its first yield. When the loop does not run at all, or the
        output is invalid, the completion happens inside this call. */
    method StartBlendOut(blendTime: real, onFinished: OptCallback, scheduled: bool)
      requires Valid()
      modifies this, output
      ensures Valid() && fresh(Repr - old(Repr))
      ensures output == old(output) && output.valid == old(output.valid)
      ensures cloneWeight == old(cloneWeight) && originalWeight == old(originalWeight)
      ensures !output.valid || BlendOutEndsAtOnce(blendTime, old(output.weight)) ==>
        && State() == BlendOutCompleted(old(State()), onFinished, scheduled)
        && coroutines == old(coroutines)
        && output.weight == (if output.valid then 0.0 else old(output.weight))
      ensures output.valid && !BlendOutEndsAtOnce(blendTime, old(output.weight)) ==>
        && State() == old(State())
        && output.weight == old(output.weight)
        && Appended(old(coroutines)) && Newest().BlendingOut? && fresh(Newest().outRamp)
        && Newest().outRamp.output == output && Newest().outRamp.blendTime == blendTime
        && Newest().outRamp.t == blendTime - blendTime * old(output.weight)
        && Newest().onFinished == onFinished && Newest().scheduled == scheduled
    {
      var from := output.weight;
      var ramp := new BlendOutRamp.Start(output, blendTime, from);
      if ramp.done {
        var s := DirectorState(blend, outTime, scheduledCallback, scheduledDuration,
                               playing, time, clonePlaying, cloneTime, fired);
        SetState(BlendOutCompleted(s, onFinished, scheduled));
      } else {
        assert 0.0 < blendTime by {
          assert blendTime * from > 0.0;
        }
        Spawn(BlendingOut(ramp, onFinished, scheduled));
      }
    }

    /** `StartCoroutine(SeekBlend(...))`, which runs up to its first yield:
        the clone takes over at the pre-seek time with the full weight, the
        output's weight goes to 1, and the playhead jumps to `toTime`. When
        the loop does not run at all the completion happens inside this call. */
    method StartSeekBlend(blendTime: real, toTime: real, onFinished: OptCallback)
      requires Valid()
      modifies this, output
      ensures Valid() && fresh(Repr - old(Repr))
      ensures output == old(output) && output.valid == old(output.valid) && output.weight == 1.0
      ensures blendTime <= 0.0 ==>
        && State() == SeekCompleted(old(State()).(cloneTime := old(time), clonePlaying := true,
                                                 time := toTime, playing := true), onFinished)
        && coroutines == old(coroutines)
        && cloneWeight == 0.0 && originalWeight == 1.0
      ensures 0.0 < blendTime ==>
        && State() == old(State()).(cloneTime := old(time), clonePlaying := true, time := toTime, playing := true)
        && cloneWeight == 1.0 && originalWeight == 0.0
        && Appended(old(coroutines)) && Newest().Seeking? && fresh(Newest().seekRamp)
        && Newest().seekRamp.blendTime == blendTime && Newest().seekRamp.t == 0.0
        && Newest().onFinished == onFinished
    {
      var ramp := new SeekRamp.Start(blendTime);
      output.weight := 1.0;
      cloneWeight, originalWeight := ramp.cloneWeight, ramp.originalWeight;
      var s := DirectorState(blend, outTime, scheduledCallback, scheduledDuration,
                             true, toTime, true, time, fired);
      if ramp.done {
        SetState(SeekCompleted(s, onFinished));
      } else {
        SetState(s);
        Spawn(Seeking(ramp, onFinished));
      }
    }

    /** `Play`: from `None` only. The blend becomes `In` and a missing output
        is rebuilt; with a valid output the blend-out is scheduled (callback,
        duration and `_outTime`) and either the director just plays
        (`blendInDuration == 0`, leaving the blend at `In`) or the blend-in
        coroutine starts. `dt` is the frame's `Time.deltaTime` and
        `rebuildSucceeds` whether the engine could rebuild the output. */
    method Play(blendInDuration: real, blendOutDuration: real, startTime: real, endTime: real,
                onBlendInFinished: OptCallback, onFinished: OptCallback, dt: real, rebuildSucceeds: bool)
      requires Valid()
      modifies this, output, abort
      ensures Valid() && fresh(Repr - old(Repr))
      ensures old(blend) != None ==> unchanged(this) && unchanged(Repr) && unchanged(abort)
      ensures old(blend) == None && !old(output.valid) ==>
        if rebuildSucceeds then fresh(output) && output.valid && cloneWeight == 0.0 && originalWeight == 1.0
        else output == old(output) && !output.valid && output.weight == old(output.weight)
      ensures old(blend) == None && old(output.valid) ==>
        output == old(output) && cloneWeight == old(cloneWeight) && originalWeight == old(originalWeight)
      ensures old(blend) == None && !old(output.valid) && !rebuildSucceeds ==>
        && State() == old(State()).(blend := In)
        && coroutines == old(coroutines) && abort.raised == old(abort.raised)
      ensures old(blend) == None && (old(output.valid) || rebuildSucceeds) ==>
        var s := old(State()).(blend := In, scheduledCallback := onFinished, scheduledDuration := blendOutDuration,
                               outTime := ScheduledOutTime(endTime, blendInDuration, blendOutDuration,
                                                           trackStart, trackDuration, dt));
        && (blendInDuration == 0.0 ==>
              && State() == s.(playing := true) && coroutines == old(coroutines)
              && abort.raised == old(abort.raised) && output.weight == (if old(output.valid) then old(output.weight) else 1.0))
        && (blendInDuration < 0.0 ==>
              && State() == BlendInCompleted(s.(time := StartPosition(startTime), playing := true), onBlendInFinished)
              && coroutines == old(coroutines) && output.weight == 1.0 && !abort.raised)
        && (0.0 < blendInDuration ==>
              && State() == s.(time := StartPosition(startTime), playing := true)
              && output.weight == 0.0 && !abort.raised
              && Appended(old(coroutines)) && Newest().BlendingIn? && fresh(Newest().inRamp)
              && Newest().inRamp.output == output && Newest().inRamp.blendTime == blendInDuration
              && Newest().inRamp.t == 0.0 && Newest().onBlendInFinished == onBlendInFinished)
    {
      if blend != None {
        return;
      }
      blend := In;
      EnsureOutput(rebuildSucceeds);
      if output.valid {
        ScheduleAndStart(blendInDuration, blendOutDuration, startTime, endTime, onBlendInFinished, onFinished, dt);
      }
    }

    /** The part of `Play` that runs once the output is valid. */
    method ScheduleAndStart(blendInDuration: real, blendOutDuration: real, startTime: real, endTime: real,
                            onBlendInFinished: OptCallback, onFinished: OptCallback, dt: real)
      requires Valid()
      modifies this, output, abort
      ensures Valid() && fresh(Repr - old(Repr))
      ensures output == old(output) && output.valid == old(output.valid)
      ensures cloneWeight == old(cloneWeight) && originalWeight == old(originalWeight)
      ensures
        var s := old(State()).(scheduledCallback := onFinished, scheduledDuration := blendOutDuration,
                               outTime := ScheduledOutTime(endTime, blendInDuration, blendOutDuration,
                                                           trackStart, trackDuration, dt));
        && (blendInDuration == 0.0 ==>
              && State() == s.(playing := true) && coroutines == old(coroutines)
              && abort.raised == old(abort.raised) && output.weight == old(output.weight))
        && (blendInDuration < 0.0 ==>
              && State() == BlendInCompleted(s.(time := StartPosition(startTime), playing := true), onBlendInFinished)
              && coroutines == old(coroutines) && output.weight == 1.0 && !abort.raised)
        && (0.0 < blendInDuration ==>
              && State() == s.(time := StartPosition(startTime), playing := true)
              && output.weight == 0.0 && !abort.raised
              && Appended(old(coroutines)) && Newest().BlendingIn? && fresh(Newest().inRamp)
              && Newest().inRamp.output == output && Newest().inRamp.blendTime == blendInDuration
              && Newest().inRamp.t == 0.0 && Newest().onBlendInFinished == onBlendInFinished)
    {
      SetState(DirectorState(blend,
                             ScheduledOutTime(endTime, blendInDuration, blendOutDuration, trackStart, trackDuration, dt),
                             onFinished, blendOutDuration, playing, time, clonePlaying, cloneTime, fired));
      if blendInDuration == 0.0 {
        playing := true;
      } else {
        StartBlendIn(blendInDuration, startTime, onBlendInFinished);
      }
    }

    /** `Stop`: a non-positive blend duration pauses the director at once; then,
        unless a blend-out or a seek is already under way, the blend-out
        begins. */
    method Stop(blendDuration: real, onFinished: OptCallback, rebuildSucceeds: bool)
      requires Valid()
      modifies this, output, abort
      ensures Valid() && fresh(Repr - old(Repr))
      ensures var paused := old(State()).(playing := old(playing) && 0.0 < blendDuration);
        old(blend) == Out || old(blend) == BlendType.Seek ==>
          && State() == paused && coroutines == old(coroutines)
          && output == old(output) && unchanged(output) && unchanged(abort)
          && cloneWeight == old(cloneWeight) && originalWeight == old(originalWeight)
      ensures old(blend) == None || old(blend) == In ==>
        abort.raised == (old(blend) == In || old(abort.raised))
      ensures old(blend) == None || old(blend) == In ==>
        if old(output.valid) then output == old(output) && cloneWeight == old(cloneWeight) && originalWeight == old(originalWeight)
        else if rebuildSucceeds then fresh(output) && output.valid && cloneWeight == 0.0 && originalWeight == 1.0
        else output == old(output) && !output.valid && output.weight == old(output.weight)
      ensures var paused := old(State()).(playing := old(playing) && 0.0 < blendDuration);
        old(blend) == None || old(blend) == In ==>
          if !old(output.valid) && !rebuildSucceeds then
            State() == paused.(blend := Out) && coroutines == old(coroutines)
          else
            var from := if old(output.valid) then old(output.weight) else 1.0;
            if BlendOutEndsAtOnce(blendDuration, from) then
              && State() == BlendOutCompleted(paused.(blend := Out), onFinished, false)
              && coroutines == old(coroutines) && output.weight == 0.0
            else
              && State() == paused.(blend := Out) && output.weight == from
              && Appended(old(coroutines)) && Newest().BlendingOut? && fresh(Newest().outRamp)
              && Newest().outRamp.output == output && Newest().outRamp.blendTime == blendDuration
              && Newest().outRamp.t == blendDuration - blendDuration * from
              && Newest().onFinished == onFinished && !Newest().scheduled
    {
      if blendDuration <= 0.0 {
        playing := false;
      }
      if blend == None || blend == In {
        BeginBlendOut(blendDuration, onFinished, rebuildSucceeds);
      }
    }

    /** The part of `Stop` past its guard: a blend-in in progress is told to
        abort through the shared flag, the blend becomes `Out`, a missing
        output is rebuilt and, on a valid output, the blend-out coroutine
        starts from the output's current weight. */
    method BeginBlendOut(blendDuration: real, onFinished: OptCallback, rebuildSucceeds: bool)
      requires Valid() && (blend == None || blend == In)
      modifies this, output, abort
      ensures Valid() && fresh(Repr - old(Repr))
      ensures abort.raised == (old(blend) == In || old(abort.raised))
      ensures if old(output.valid) then output == old(output) && cloneWeight == old(cloneWeight) && originalWeight == old(originalWeight)
        else if rebuildSucceeds then fresh(output) && output.valid && cloneWeight == 0.0 && originalWeight == 1.0
        else output == old(output) && !output.valid && output.weight == old(output.weight)
      ensures
        if !old(output.valid) && !rebuildSucceeds then
          State() == old(State()).(blend := Out) && coroutines == old(coroutines)
        else
          var from := if old(output.valid) then old(output.weight) else 1.0;
          if BlendOutEndsAtOnce(blendDuration, from) then
            && State() == BlendOutCompleted(old(State()).(blend := Out), onFinished, false)
            && coroutines == old(coroutines) && output.weight == 0.0
          else
            && State() == old(State()).(blend := Out) && output.weight == from
            && Appended(old(coroutines)) && Newest().BlendingOut? && fresh(Newest().outRamp)
            && Newest().outRamp.output == output && Newest().outRamp.blendTime == blendDuration
            && Newest().outRamp.t == blendDuration - blendDuration * from
            && Newest().onFinished == onFinished && !Newest().scheduled
    {
      if blend == In {
        abort.raised := true;
      }
      blend := Out;
      EnsureOutput(rebuildSucceeds);
      if output.valid {
        StartBlendOut(blendDuration, onFinished, false);
      }
    }

    /** `Seek`: from `None` only. The blend becomes `Seek` and, on a valid
        output, the cross-fade coroutine starts; there is no rebuild here, so
        an invalid output leaves the blend at `Seek`. */
    method Seek(toTime: real, blendDuration: real, onFinished: OptCallback)
      requires Valid()
      modifies this, output
      ensures Valid() && fresh(Repr - old(Repr)) && output == old(output)
      ensures old(blend) != None ==> unchanged(this) && unchanged(output)
      ensures old(blend) == None && !old(output.valid) ==>
        && State() == old(State()).(blend := BlendType.Seek) && coroutines == old(coroutines) && unchanged(output)
        && cloneWeight == old(cloneWeight) && originalWeight == old(originalWeight)
      ensures var s := old(State()).(blend := BlendType.Seek, cloneTime := old(time), clonePlaying := true,
                                     time := toTime, playing := true);
        old(blend) == None && old(output.valid) ==>
          && output.valid && output.weight == 1.0
          && (blendDuration <= 0.0 ==>
                && State() == SeekCompleted(s, onFinished) && coroutines == old(coroutines)
                && cloneWeight == 0.0 && originalWeight == 1.0)
          && (0.0 < blendDuration ==>
                && State() == s && cloneWeight == 1.0 && originalWeight == 0.0
                && Appended(old(coroutines)) && Newest().Seeking? && fresh(Newest().seekRamp)
                && Newest().seekRamp.blendTime == blendDuration && Newest().seekRamp.t == 0.0
                && Newest().onFinished == onFinished)
    {
      if blend == None {
        blend := BlendType.Seek;
        if output.valid {
          StartSeekBlend(blendDuration, toTime, onFinished);
        }
      }
    }

    /** `Update`, once per frame: a playing, idle director whose playhead has
        reached a non-negative `_outTime` starts the scheduled blend-out, whose
        completion fires and clears the scheduled callback. */
    method Update()
      requires Valid()
      modifies this, output
      ensures Valid() && fresh(Repr - old(Repr)) && output == old(output)
      ensures var due := old(playing && blend == None && 0.0 <= outTime && outTime <= time);
        !due ==> unchanged(this) && unchanged(output)
      ensures var due := old(playing && blend == None && 0.0 <= outTime && outTime <= time);
        due ==>
          && output.valid == old(output.valid)
          && cloneWeight == old(cloneWeight) && originalWeight == old(originalWeight)
          && if !output.valid || BlendOutEndsAtOnce(old(scheduledDuration), old(output.weight)) then
               && State() == BlendOutCompleted(old(State()).(blend := Out), Engine.None, true)
               && coroutines == old(coroutines)
               && output.weight == (if output.valid then 0.0 else old(output.weight))
             else
               && State() == old(State()).(blend := Out) && output.weight == old(output.weight)
               && Appended(old(coroutines)) && Newest().BlendingOut? && fresh(Newest().outRamp)
               && Newest().outRamp.output == output && Newest().outRamp.blendTime == old(scheduledDuration)
               && Newest().outRamp.t == old(scheduledDuration) - old(scheduledDuration) * old(output.weight)
               && Newest().scheduled
    {
      if playing && blend == None && 0.0 <= outTime && outTime <= time {
        blend := Out;
        StartBlendOut(scheduledDuration, Engine.None, true);
      }
    }

    /** The engine resumes the blend-in coroutine at index `i` after a frame
        lasting `dt`. When its loop ends, the completion callback of `Play`
        runs (the blend returns to `None` and the scheduled blend-out callback
        is cleared) and the engine drops the coroutine. */
    method ResumeBlendIn(i: nat, dt: real) returns (finished: bool)
      requires Valid() && i < |coroutines| && coroutines[i].BlendingIn? && 0.0 <= dt
      modifies this, abort, coroutines[i].Footprint()
      ensures Valid() && Repr == old(Repr)
      ensures output == old(output) && cloneWeight == old(cloneWeight) && originalWeight == old(originalWeight)
      ensures output.valid == old(output.valid)
      ensures var r := old(coroutines[i].inRamp);
        && r.t == old(r.t) + dt && old(r.weight) <= r.weight && r.output.weight == r.weight
        && (finished <==> old(abort.raised) || r.blendTime <= r.t)
        && (finished ==> r.weight == 1.0)
        && (abort.raised <==> old(abort.raised) && r.blendTime <= r.t)
      ensures finished ==>
        && State() == BlendInCompleted(old(State()), old(coroutines[i].onBlendInFinished))
        && coroutines == old(coroutines[..i] + coroutines[i + 1..])
      ensures !finished ==> State() == old(State()) && coroutines == old(coroutines)
    {
      var c := coroutines[i];
      c.inRamp.Advance(dt, abort);
      finished := c.inRamp.done;
      if finished {
        Retire(i);
        SetState(BlendInCompleted(DirectorState(blend, outTime, scheduledCallback, scheduledDuration,
                                                playing, time, clonePlaying, cloneTime, fired),
                                  c.onBlendInFinished));
      }
    }

    /** The engine resumes the blend-out coroutine at index `i` after a frame
        lasting `dt`. When its loop ends, the completion callback runs (the
        scheduled one for a blend-out that `Update` started, else the one given
        to `Stop`), the director pauses and the engine drops the coroutine. */
    method ResumeBlendOut(i: nat, dt: real) returns (finished: bool)
      requires Valid() && i < |coroutines| && coroutines[i].BlendingOut? && 0.0 <= dt
      modifies this, coroutines[i].Footprint()
      ensures Valid() && Repr == old(Repr)
      ensures output == old(output) && cloneWeight == old(cloneWeight) && originalWeight == old(originalWeight)
      ensures var r := old(coroutines[i].outRamp);
        && r.t == old(r.t) + dt && r.weight <= old(r.weight)
        && r.output.valid == old(r.output.valid)
        && (r.output.valid ==> r.output.weight == r.weight)
        && (!r.output.valid ==> r.output.weight == old(r.output.weight))
        && (finished <==> r.blendTime <= r.t || !r.output.valid)
        && (finished && r.output.valid ==> r.weight == 0.0)
      ensures finished ==>
        && State() == BlendOutCompleted(old(State()), old(coroutines[i].onFinished), old(coroutines[i].scheduled))
        && coroutines == old(coroutines[..i] + coroutines[i + 1..])
      ensures !finished ==> State() == old(State()) && coroutines == old(coroutines)
    {
      var c := coroutines[i];
      c.outRamp.Advance(dt);
      finished := c.outRamp.done;
      if finished {
        Retire(i);
        SetState(BlendOutCompleted(DirectorState(blend, outTime, scheduledCallback, scheduledDuration,
                                                 playing, time, clonePlaying, cloneTime, fired),
                                   c.onFinished, c.scheduled));
      }
    }

    /** The engine resumes the cross-fade coroutine at index `i` after a frame
        lasting `dt`: the mixer gets the ramp's new weights. When its loop
        ends, the clone pauses, the completion callback of `Seek` runs and the
        engine drops the coroutine. */
    method ResumeSeek(i: nat, dt: real) returns (finished: bool)
      requires Valid() && i < |coroutines| && coroutines[i].Seeking? && 0.0 <= dt
      modifies this, coroutines[i].Footprint()
      ensures Valid() && Repr == old(Repr) && output == old(output) && unchanged(output)
      ensures var r := old(coroutines[i].seekRamp);
        && r.t == old(r.t) + dt && old(r.originalWeight) <= r.originalWeight
        && cloneWeight == r.cloneWeight && originalWeight == r.originalWeight
        && (finished <==> r.blendTime <= r.t)
      ensures finished ==>
        && State() == SeekCompleted(old(State()), old(coroutines[i].onFinished))
        && coroutines == old(coroutines[..i] + coroutines[i + 1..])
        && cloneWeight == 0.0 && originalWeight == 1.0
      ensures !finished ==> State() == old(State()) && coroutines == old(coroutines)
    {
      var c := coroutines[i];
      c.seekRamp.Advance(dt);
      cloneWeight, originalWeight := c.seekRamp.cloneWeight, c.seekRamp.originalWeight;
      finished := c.seekRamp.done;
      if finished {
        Retire(i);
        SetState(SeekCompleted(DirectorState(blend, outTime, scheduledCallback, scheduledDuration,
                                             playing, time, clonePlaying, cloneTime, fired),
                               c.onFinished));
      }
    }

    /** A frame of `dt` passes in the engine: a playing director and a playing
        clone advance their time. */
    method AdvanceClock(dt: real)
      requires Valid() && 0.0 <= dt
      modifies this
      ensures Valid() && Repr == old(Repr) && output == old(output) && coroutines == old(coroutines)
      ensures cloneWeight == old(cloneWeight) && originalWeight == old(originalWeight)
      ensures State() == old(State()).(time := if old(playing) then old(time) + dt else old(time),
                                       cloneTime := if old(clonePlaying) then old(cloneTime) + dt else old(cloneTime))
    {
      if playing {
        time := time + dt;
      }
      if clonePlaying {
        cloneTime := cloneTime + dt;
      }
    }

    /** The engine destroys the playable graph: the output is no longer valid. */
    method InvalidateOutput()
      requires Valid()
      modifies output
      ensures Valid() && !output.valid && output.weight == old(output.weight)
    {
      output.valid := false;
    }
  }
}
