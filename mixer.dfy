// TimelordMixer: the scheduler on top of the directors. It keeps a registry
// from timeline asset to director, a FIFO queue of directors waiting to play
// and the director playing now (`Current`). `Play` refills the queue and
// decides whether the current director seeks or stops; `Update` hands over
// to the next queued director once the current one is absent, paused or
// blending out. Every call the mixer makes on a director is also recorded,
// in order, in the ghost log `calls`.

module Mixers {
  import Engine
  import opened Ramps
  import opened Directors

  /** A director method the mixer calls, with the arguments it passes. */
  datatype Call =
    | PlayCall                                   // Play() with its default arguments
    | StopCall(blendDuration: real)              // Stop(transitionTime)
    | SeekCall(toTime: real, blendDuration: real) // Seek(0, transitionTime)

  datatype Invocation = Invocation(target: TimelordDirector, call: Call)

  /** The assets of the non-null directors of `ds` are pairwise distinct, as
      `ToDictionary` demands (it throws on a repeated key). */
  ghost predicate DistinctAssets(ds: seq<TimelordDirector?>)
  {
    forall i, j :: 0 <= i < j < |ds| && ds[i] != null && ds[j] != null ==> ds[i].asset != ds[j].asset
  }

  /** `Directors.Where(d => d != null).ToDictionary(d => its asset, d => d)`. */
  function RegistryOf(ds: seq<TimelordDirector?>): (r: map<Engine.Asset, TimelordDirector>)
    requires DistinctAssets(ds)
    ensures forall a :: a in r ==> r[a].asset == a && r[a] in ds
    ensures forall i :: 0 <= i < |ds| && ds[i] != null ==> ds[i].asset in r && r[ds[i].asset] == ds[i]
  {
    if ds == [] then map[]
    else
      var n := |ds| - 1;
      assert forall i :: 0 <= i < n ==> ds[..n][i] == ds[i];
      var front := RegistryOf(ds[..n]);
      if ds[n] == null then front else front[ds[n].asset := ds[n]]
  }

  /** The directors `Play(list)` queues: the registered elements of the list,
      mapped through the registry, in their order. */
  function Resolve(registry: map<Engine.Asset, TimelordDirector>, list: seq<Engine.Asset>): (r: seq<TimelordDirector>)
    ensures |r| <= |list|
    ensures forall k :: 0 <= k < |r| ==> r[k] in registry.Values
  {
    if list == [] then []
    else (if list[0] in registry then [registry[list[0]]] else []) + Resolve(registry, list[1..])
  }

  /** Resolving one more asset appends at most its director. */
  lemma {:induction false} ResolveAppend(registry: map<Engine.Asset, TimelordDirector>, list: seq<Engine.Asset>, a: Engine.Asset)
    ensures Resolve(registry, list + [a]) ==
            Resolve(registry, list) + if a in registry then [registry[a]] else []
  {
    if list != [] {
      assert (list + [a])[1..] == list[1..] + [a];
      ResolveAppend(registry, list[1..], a);
    } else {
      assert [a][1..] == [];
    }
  }

  /** A director is queued exactly when some asset of the list is registered to it. */
  lemma {:induction false} ResolveMembers(registry: map<Engine.Asset, TimelordDirector>, list: seq<Engine.Asset>, d: TimelordDirector)
    ensures d in Resolve(registry, list) <==> exists k :: 0 <= k < |list| && list[k] in registry && registry[list[k]] == d
  {
    if list != [] {
      ResolveMembers(registry, list[1..], d);
      if exists k :: 0 <= k < |list| - 1 && list[1..][k] in registry && registry[list[1..][k]] == d {
        var k :| 0 <= k < |list| - 1 && list[1..][k] in registry && registry[list[1..][k]] == d;
        assert list[k + 1] == list[1..][k];
      }
      if exists k :: 0 <= k < |list| && list[k] in registry && registry[list[k]] == d {
        var k :| 0 <= k < |list| && list[k] in registry && registry[list[k]] == d;
        if k > 0 {
          assert list[1..][k - 1] == list[k];
        }
      }
    }
  }

  /** A list of registered assets is queued whole, element by element. */
  lemma {:induction false} ResolveRegistered(registry: map<Engine.Asset, TimelordDirector>, list: seq<Engine.Asset>)
    requires forall k :: 0 <= k < |list| ==> list[k] in registry
    ensures |Resolve(registry, list)| == |list|
    ensures forall k :: 0 <= k < |list| ==> Resolve(registry, list)[k] == registry[list[k]]
  {
    if list != [] {
      ResolveRegistered(registry, list[1..]);
      forall k | 1 <= k < |list|
        ensures Resolve(registry, list)[k] == registry[list[k]]
      {
        assert list[1..][k - 1] == list[k];
      }
    }
  }

  /** All the objects the non-null directors of `ds` own. */
  ghost function Reprs(ds: seq<TimelordDirector?>): (r: set<object>)
    reads set i | 0 <= i < |ds| && ds[i] != null :: ds[i]
    ensures forall i :: 0 <= i < |ds| && ds[i] != null ==> ds[i].Repr <= r
  {
    if ds == [] then {}
    else
      var n := |ds| - 1;
      Reprs(ds[..n]) + if ds[n] == null then {} else ds[n].Repr
  }

  lemma {:induction false} ReprsExclude(ds: seq<TimelordDirector?>, x: object)
    requires forall i :: 0 <= i < |ds| && ds[i] != null ==> x !in ds[i].Repr
    ensures x !in Reprs(ds)
  {
    if ds != [] {
      ReprsExclude(ds[..|ds| - 1], x);
    }
  }

  /** Directors registered under different assets own disjoint objects. */
  lemma RegistryDisjoint(ds: seq<TimelordDirector?>)
    requires DistinctAssets(ds)
    requires forall i, j :: 0 <= i < j < |ds| && ds[i] != null && ds[j] != null ==> ds[i].Repr !! ds[j].Repr
    ensures forall a, b :: a in RegistryOf(ds) && b in RegistryOf(ds) && a != b ==>
              RegistryOf(ds)[a].Repr !! RegistryOf(ds)[b].Repr
  {
    var r := RegistryOf(ds);
    forall a, b | a in r && b in r && a != b
      ensures r[a].Repr !! r[b].Repr
    {
      var i :| 0 <= i < |ds| && ds[i] == r[a];
      var j :| 0 <= j < |ds| && ds[j] == r[b];
      assert i != j;
    }
  }

  /** What the registry inherits from the directors it is built from. */
  lemma RegistryInherits(ds: seq<TimelordDirector?>, abort: AbortFlag)
    requires DistinctAssets(ds)
    requires forall i :: 0 <= i < |ds| && ds[i] != null ==>
               ds[i].Valid() && ds[i].abort == abort && abort !in ds[i].Repr
    ensures forall a :: a in RegistryOf(ds) ==>
              && RegistryOf(ds)[a].Valid() && RegistryOf(ds)[a].abort == abort
              && RegistryOf(ds)[a] in Reprs(ds) && RegistryOf(ds)[a].Repr <= Reprs(ds)
  {
    var r := RegistryOf(ds);
    forall a | a in r
      ensures r[a].Valid() && r[a].abort == abort && r[a] in Reprs(ds) && r[a].Repr <= Reprs(ds)
    {
      var i :| 0 <= i < |ds| && ds[i] == r[a];
      assert ds[i].Repr <= Reprs(ds);
    }
  }

  /** What `Play()` with its default arguments (half-second blend-in, start
      at the timeline's beginning) did to `d`: nothing when it was already
      blending; otherwise the blend is `In`, and once the output is valid `d`
      plays from 0 and the blend-in's start lowers the shared abort flag; an
      output that stayed invalid leaves playing state, time and flag alone. */
  twostate predicate Played(d: TimelordDirector, rebuildSucceeds: bool)
    reads d, d.abort
  {
    && (old(d.blend) != BlendType.None ==> unchanged(d) && d.abort.raised == old(d.abort.raised))
    && (old(d.blend) == BlendType.None ==> d.blend == In)
    && (old(d.blend) == BlendType.None && (old(d.output.valid) || rebuildSucceeds) ==>
          d.playing && d.time == 0.0 && !d.abort.raised)
    && (old(d.blend) == BlendType.None && !old(d.output.valid) && !rebuildSucceeds ==>
          d.playing == old(d.playing) && d.time == old(d.time) && d.abort.raised == old(d.abort.raised))
  }

  /** What `Seek(toTime, blendDuration)` did to `d`: nothing when it was
      already blending; on an invalid output only the blend, now `Seek`;
      otherwise `d` plays from `toTime` and the blend is `Seek`, or already
      back to `None` when the cross-fade has no length. */
  twostate predicate Seeked(d: TimelordDirector, toTime: real, blendDuration: real)
    reads d
  {
    && (old(d.blend) != BlendType.None ==> unchanged(d))
    && (old(d.blend) == BlendType.None && !old(d.output.valid) ==>
          d.blend == BlendType.Seek && d.playing == old(d.playing) && d.time == old(d.time))
    && (old(d.blend) == BlendType.None && old(d.output.valid) ==>
          && d.blend == (if blendDuration <= 0.0 then BlendType.None else BlendType.Seek)
          && d.playing && d.time == toTime)
  }

  /** What `Stop(blendDuration)` did to `d`: its time is kept; a
      non-positive duration pauses it; a blend-out or seek in progress keeps
      its blend and the flag; otherwise the shared abort flag is raised iff a
      blend-in was running, and the blend is `Out`, or already back to `None`
      (and `d` paused) when the blend-out had nothing to do. */
  twostate predicate Stopped(d: TimelordDirector, blendDuration: real, rebuildSucceeds: bool)
    reads d, d.abort
  {
    && d.time == old(d.time)
    && (old(d.blend) == Out || old(d.blend) == BlendType.Seek ==>
          && d.blend == old(d.blend) && d.abort.raised == old(d.abort.raised)
          && d.playing == (old(d.playing) && 0.0 < blendDuration))
    && (old(d.blend) == BlendType.None || old(d.blend) == In ==>
          && d.abort.raised == (old(d.blend) == In || old(d.abort.raised))
          && d.blend ==
               (if (old(d.output.valid) || rebuildSucceeds)
                   && BlendOutEndsAtOnce(blendDuration, if old(d.output.valid) then old(d.output.weight) else 1.0)
                then BlendType.None else Out)
          && d.playing == (old(d.playing) && 0.0 < blendDuration && d.blend == Out))
  }

  class TimelordMixer {
    var queue: seq<TimelordDirector>     // _queue
    var current: TimelordDirector?       // Current
    const registry: map<Engine.Asset, TimelordDirector>  // _directorsByAsset
    const abort: AbortFlag               // the directors' shared _abortBlendIn
    ghost var calls: seq<Invocation>
    ghost var Repr: set<object>        // the objects of the registered directors

    ghost predicate Valid()
      reads this, Repr
    {
      && this !in Repr && abort !in Repr
      && registry.Values <= Repr
      && (forall a :: a in registry ==>
            && registry[a].asset == a && registry[a].abort == abort
            && registry[a].Repr <= Repr)
      && (forall a, b :: a in registry && b in registry && a != b ==> registry[a].Repr !! registry[b].Repr)
      && (forall a :: a in registry ==> registry[a].Valid())
      && (forall i :: 0 <= i < |queue| ==> queue[i] in registry.Values)
      && (current != null ==> current in registry.Values)
    }

    /** After a call on the registered director `d` that changed only `d`'s
        own objects (and took on fresh ones), the mixer is valid again once
        its footprint takes in `d`'s new objects. */
    twostate lemma CallKeepsValid(d: TimelordDirector)
      requires old(Valid()) && d in registry.Values
      requires d.Valid() && fresh(d.Repr - old(d.Repr))
      requires forall a :: a in registry && registry[a] != d ==> unchanged(old(registry[a].Repr))
      requires queue == old(queue) && current == old(current) && Repr == old(Repr) + d.Repr
      ensures Valid()
    {
      OthersDisjoint(d);
      forall a | a in registry
        ensures registry[a].Valid() && registry[a].Repr <= Repr
      {
        if registry[a] != d {
          assert registry[a] in old(registry[a].Repr);
        }
      }
    }

    /** A registered director shares no object with any other. */
    lemma OthersDisjoint(d: TimelordDirector)
      requires Valid() && d in registry.Values
      ensures forall a :: a in registry && registry[a] != d ==> registry[a].Repr !! d.Repr
    {
      var b :| b in registry && registry[b] == d;
    }

    /** `Start`: the registry of the non-null directors by asset; the queue is
        empty and there is no current director yet. */
    constructor (directors: seq<TimelordDirector?>, abort: AbortFlag)
      requires DistinctAssets(directors)
      requires forall i :: 0 <= i < |directors| && directors[i] != null ==>
                 directors[i].Valid() && directors[i].abort == abort && abort !in directors[i].Repr
      requires forall i, j :: 0 <= i < j < |directors| && directors[i] != null && directors[j] != null ==>
                 directors[i].Repr !! directors[j].Repr
      ensures Valid() && registry == RegistryOf(directors) && this.abort == abort
      ensures Repr == Reprs(directors)
      ensures queue == [] && current == null && calls == []
    {
      queue := [];
      current := null;
      registry := RegistryOf(directors);
      this.abort := abort;
      calls := [];
      Repr := Reprs(directors);
      new;
      RegistryDisjoint(directors);
      RegistryInherits(directors, abort);
      ReprsExclude(directors, abort);
      ReprsExclude(directors, this);
    }

    /** `Play(timeline)`: a null or unregistered timeline changes nothing.
        Otherwise the queue is cleared and then holds the timeline's director,
        except when that director is the current one and still playing: then
        it seeks back to 0 instead. A current director that keeps playing is
        stopped when `playImmediately` asks for it. */
    method Play(timeline: Engine.Option<Engine.Asset>, playImmediately: bool, transitionTime: real,
                rebuildSucceeds: bool)
      requires Valid()
      modifies this, Repr, abort
      ensures Valid() && fresh(Repr - old(Repr)) && current == old(current)
      ensures timeline.None? || timeline.value !in registry ==>
        queue == old(queue) && calls == old(calls) && unchanged(old(Repr)) && unchanged(abort)
      ensures timeline.Some? && timeline.value in registry ==>
        var d := registry[timeline.value];
        if old(current) == null then
          queue == [d] && calls == old(calls) && unchanged(old(Repr)) && unchanged(abort)
        else if old(current) == d && old(d.playing) then
          && queue == [] && calls == old(calls) + [Invocation(d, SeekCall(0.0, transitionTime))]
          && Seeked(d, 0.0, transitionTime) && unchanged(abort)
        else if playImmediately && old(current.playing) then
          && queue == [d] && calls == old(calls) + [Invocation(old(current), StopCall(transitionTime))]
          && Stopped(old(current), transitionTime, rebuildSucceeds)
        else
          queue == [d] && calls == old(calls) && unchanged(old(Repr)) && unchanged(abort)
      ensures forall a :: a in registry && registry[a] != current ==> unchanged(old(registry[a].Repr))
    {
      if timeline.None? {
        return;
      }
      if timeline.value !in registry {
        return;
      }
      PlayRegistered(registry[timeline.value], playImmediately, transitionTime, rebuildSucceeds);
    }

    /** The part of `Play(timeline)` past the null and registry checks, for
        the timeline's director `d`. */
    method PlayRegistered(d: TimelordDirector, playImmediately: bool, transitionTime: real,
                          rebuildSucceeds: bool)
      requires Valid() && d in registry.Values
      modifies this, Repr, abort
      ensures Valid() && fresh(Repr - old(Repr)) && current == old(current)
      ensures if old(current) == null then
          queue == [d] && calls == old(calls) && unchanged(old(Repr)) && unchanged(abort)
        else if old(current) == d && old(d.playing) then
          && queue == [] && calls == old(calls) + [Invocation(d, SeekCall(0.0, transitionTime))]
          && Seeked(d, 0.0, transitionTime) && unchanged(abort)
        else if playImmediately && old(current.playing) then
          && queue == [d] && calls == old(calls) + [Invocation(old(current), StopCall(transitionTime))]
          && Stopped(old(current), transitionTime, rebuildSucceeds)
        else
          queue == [d] && calls == old(calls) && unchanged(old(Repr)) && unchanged(abort)
      ensures forall a :: a in registry && registry[a] != current ==> unchanged(old(registry[a].Repr))
    {
      queue := [];
      if current == null {
        queue := [d];
      } else if current == d && current.IsPlaying() {
        SeekCurrent(0.0, transitionTime);
      } else {
        QueueBehindCurrent(d, playImmediately, transitionTime, rebuildSucceeds);
      }
    }

    /** The last branch of `Play(timeline)`: `d` waits alone in the queue,
        and the current director is stopped when `playImmediately` asks for it
        and it is playing. */
    method QueueBehindCurrent(d: TimelordDirector, playImmediately: bool, transitionTime: real,
                              rebuildSucceeds: bool)
      requires Valid() && d in registry.Values && current != null
      modifies this, Repr, abort
      ensures Valid() && fresh(Repr - old(Repr)) && current == old(current) && queue == [d]
      ensures if playImmediately && old(current.playing) then
          && calls == old(calls) + [Invocation(current, StopCall(transitionTime))]
          && Stopped(current, transitionTime, rebuildSucceeds)
        else
          calls == old(calls) && unchanged(old(Repr)) && unchanged(abort)
      ensures forall a :: a in registry && registry[a] != current ==> unchanged(old(registry[a].Repr))
    {
      queue := [d];
      if playImmediately && current.IsPlaying() {
        StopCurrent(transitionTime, rebuildSucceeds);
      }
    }

    /** The queue rebuilt from a list of timelines: each registered one,
        in list order; the rest are skipped. */
    method Enqueue(timelines: seq<Engine.Asset>)
      requires Valid()
      modifies this
      ensures Valid() && Repr == old(Repr) && current == old(current) && calls == old(calls)
      ensures queue == Resolve(registry, timelines)
    {
      var q := [];
      var i := 0;
      while i < |timelines|
        invariant 0 <= i <= |timelines|
        invariant q == Resolve(registry, timelines[..i]) && unchanged(this)
      {
        ResolveAppend(registry, timelines[..i], timelines[i]);
        assert timelines[..i + 1] == timelines[..i] + [timelines[i]];
        if timelines[i] in registry {
          q := q + [registry[timelines[i]]];
        }
        i := i + 1;
      }
      assert timelines[..i] == timelines;
      queue := q;
    }

    /** `Current.Play()` with the default arguments: half-second blends,
        the timeline's own start and end, no callbacks. */
    method PlayCurrent(dt: real, rebuildSucceeds: bool)
      requires Valid() && current != null
      modifies this, current, current.output, abort
      ensures Valid() && fresh(Repr - old(Repr))
      ensures queue == old(queue) && current == old(current)
      ensures calls == old(calls) + [Invocation(current, PlayCall)]
      ensures Played(current, rebuildSucceeds)
      ensures forall a :: a in registry && registry[a] != current ==> unchanged(old(registry[a].Repr))
    {
      OthersDisjoint(current);
      current.Play(0.5, 0.5, -1.0, -1.0, Engine.None, Engine.None, dt, rebuildSucceeds);
      calls := calls + [Invocation(current, PlayCall)];
      Repr := Repr + current.Repr;
      CallKeepsValid(current);
    }

    /** `Current.Seek(toTime, blendDuration)`, with no completion callback. */
    method SeekCurrent(toTime: real, blendDuration: real)
      requires Valid() && current != null
      modifies this, current, current.output
      ensures Valid() && fresh(Repr - old(Repr))
      ensures queue == old(queue) && current == old(current)
      ensures calls == old(calls) + [Invocation(current, SeekCall(toTime, blendDuration))]
      ensures Seeked(current, toTime, blendDuration) && unchanged(abort)
      ensures forall a :: a in registry && registry[a] != current ==> unchanged(old(registry[a].Repr))
    {
      OthersDisjoint(current);
      current.Seek(toTime, blendDuration, Engine.None);
      calls := calls + [Invocation(current, SeekCall(toTime, blendDuration))];
      Repr := Repr + current.Repr;
      CallKeepsValid(current);
    }

    /** `Current.Stop(blendDuration)`, with no completion callback. */
    method StopCurrent(blendDuration: real, rebuildSucceeds: bool)
      requires Valid() && current != null
      modifies this, current, current.output, abort
      ensures Valid() && fresh(Repr - old(Repr))
      ensures queue == old(queue) && current == old(current)
      ensures calls == old(calls) + [Invocation(current, StopCall(blendDuration))]
      ensures Stopped(current, blendDuration, rebuildSucceeds)
      ensures forall a :: a in registry && registry[a] != current ==> unchanged(old(registry[a].Repr))
    {
      OthersDisjoint(current);
      current.Stop(blendDuration, Engine.None, rebuildSucceeds);
      calls := calls + [Invocation(current, StopCall(blendDuration))];
      Repr := Repr + current.Repr;
      CallKeepsValid(current);
    }

    /** `Play(list)`: the queue is refilled with the directors of the list's
        registered timelines, in order; then a current director that is not
        already blending out is stopped when `playImmediately` asks for it. */
    method PlaySequence(timelines: seq<Engine.Asset>, playImmediately: bool, transitionTime: real,
                        rebuildSucceeds: bool)
      requires Valid()
      modifies this, Repr, abort
      ensures Valid() && fresh(Repr - old(Repr)) && current == old(current)
      ensures queue == Resolve(registry, timelines)
      ensures if playImmediately && old(current) != null && !old(current.IsBlendingOut())
              then
                && calls == old(calls) + [Invocation(old(current), StopCall(transitionTime))]
                && Stopped(old(current), transitionTime, rebuildSucceeds)
              else calls == old(calls) && unchanged(old(Repr)) && unchanged(abort)
      ensures forall a :: a in registry && registry[a] != current ==> unchanged(old(registry[a].Repr))
    {
      Enqueue(timelines);
      if playImmediately && current != null && !current.IsBlendingOut() {
        StopCurrent(transitionTime, rebuildSucceeds);
      }
    }

    /** `Update`, once per frame: with directors queued, and the current one
        absent, paused or blending out, the head of the queue becomes current
        and plays with the default arguments (`dt` is the frame's
        `Time.deltaTime`, `rebuildSucceeds` whether a rebuild would work). */
    method Update(dt: real, rebuildSucceeds: bool)
      requires Valid()
      modifies this, Repr, abort
      ensures Valid() && fresh(Repr - old(Repr))
      ensures var handOver := |old(queue)| > 0 &&
                (old(current) == null || !old(current.IsPlaying()) || old(current.IsBlendingOut()));
        if handOver then
          && current == old(queue[0]) && queue == old(queue[1..])
          && calls == old(calls) + [Invocation(current, PlayCall)]
          && Played(current, rebuildSucceeds)
        else
          && current == old(current) && queue == old(queue) && calls == old(calls)
          && unchanged(old(Repr)) && unchanged(abort)
      ensures forall a :: a in registry && registry[a] != current ==> unchanged(old(registry[a].Repr))
    {
      if |queue| == 0 {
        return;
      }
      if current == null || !current.IsPlaying() || current.IsBlendingOut() {
        current := queue[0];
        queue := queue[1..];
        PlayCurrent(dt, rebuildSucceeds);
      }
    }

    /** `IsTimelinePlaying`: something is queued, or some registered director
        is playing. */
    method IsTimelinePlaying() returns (r: bool)
      requires Valid()
      ensures r <==> |queue| > 0 || exists a :: a in registry && registry[a].IsPlaying()
    {
      r := |queue| > 0;
      var pending := registry.Keys;
      while pending != {} && !r
        invariant pending <= registry.Keys
        invariant r <==> |queue| > 0 || exists a :: a in registry.Keys - pending && registry[a].IsPlaying()
        decreases |pending|
      {
        var a :| a in pending;
        r := registry[a].IsPlaying();
        pending := pending - {a};
      }
    }
  }
}
