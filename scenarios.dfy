// Frame-by-frame runs of a director and of a mixer, each on fresh objects,
// showing what the contracts of the single operations add up to.

module Scenarios {
  import Engine
  import opened Ramps
  import opened Directors
  import opened Mixers

  /** A blend-in interrupted by `Stop`. The blend-in has reached weight 0.2
      when `Stop(0.5)` begins a blend-out from 0.2 and raises the shared abort
      flag. On the next frame the blend-in sees the flag and ends: it sets the
      weight to 1, and its completion puts the blend back to `None`, while the
      blend-out coroutine is still running. */
  method StopDuringBlendIn() returns (blend: BlendType, weight: real, blendOutRunning: bool)
    ensures blend == BlendType.None && weight == 1.0 && blendOutRunning
  {
    var d := BlendInAtFifth();
    var blendIn := d.coroutines[0].inRamp;
    d.Stop(0.5, Engine.None, true);
    assert d.blend == Out && |d.coroutines| == 2 && d.coroutines[1].BlendingOut?;
    assert d.coroutines[0].inRamp == blendIn && blendIn.output == d.output;
    var finished := d.ResumeBlendIn(0, 0.02);
    blend, weight := d.blend, d.output.weight;
    blendOutRunning := |d.coroutines| == 1 && d.coroutines[0].BlendingOut?;
  }

  /** A fresh director whose `Play(0.5)` blend-in has run one frame of 0.1:
      the weight is 0.2 and the blend-in is its only coroutine. */
  method BlendInAtFifth() returns (d: TimelordDirector)
    ensures fresh(d) && fresh(d.Repr) && fresh(d.abort) && d.Valid()
    ensures d.blend == In && d.output.valid && d.output.weight == 0.2
    ensures |d.coroutines| == 1 && d.coroutines[0].BlendingIn? && d.coroutines[0].inRamp.output == d.output
  {
    var flag := new AbortFlag();
    d := new TimelordDirector(Engine.Asset(1), 0.0, 10.0, flag);
    d.Play(0.5, 0.5, -1.0, -1.0, Engine.None, Engine.None, 0.02, true);
    var finished := d.ResumeBlendIn(0, 0.1);
    assert d.output.weight == Progress(0.1, 0.5) == 0.2;
  }

  /** A fresh mixer over two fresh directors, for the timelines 1 and 2. */
  method TwoTimelines() returns (m: TimelordMixer, first: TimelordDirector, second: TimelordDirector)
    ensures fresh(m) && fresh(m.Repr) && fresh(m.abort) && m.Valid()
    ensures m.registry == map[Engine.Asset(1) := first, Engine.Asset(2) := second]
    ensures m.queue == [] && m.current == null && m.calls == []
  {
    var flag := new AbortFlag();
    first := new TimelordDirector(Engine.Asset(1), 0.0, 10.0, flag);
    second := new TimelordDirector(Engine.Asset(2), 0.0, 4.0, flag);
    var directors: seq<TimelordDirector?> := [first, second];
    assert directors[..1] == [first] && [first][..0] == [];
    assert DistinctAssets(directors);
    m := new TimelordMixer(directors, flag);
    assert RegistryOf([first]) == map[Engine.Asset(1) := first];
    assert Reprs([first]) == first.Repr;
    assert m.Repr == Reprs(directors) == first.Repr + second.Repr;
  }

  /** `Play` of timeline 1 on an idle mixer queues its director, and the
      next `Update` makes that director current and plays it. */
  method PlayThenUpdate() returns (m: TimelordMixer, first: TimelordDirector)
    ensures m.current == first && m.queue == []
    ensures m.calls == [Invocation(first, PlayCall)]
  {
    var second;
    m, first, second := TwoTimelines();
    m.Play(Engine.Some(Engine.Asset(1)), true, 0.5, true);
    m.Update(0.02, true);
  }

  /** `Play(list)` on an idle mixer queues the list's registered timelines in
      order, skipping the unregistered one, and calls no director; something
      is then reported as playing. */
  method PlayList() returns (m: TimelordMixer, first: TimelordDirector, second: TimelordDirector,
                             anyPlaying: bool)
    ensures m.queue == [second, first] && m.current == null && m.calls == [] && anyPlaying
  {
    m, first, second := TwoTimelines();
    var timelines := [Engine.Asset(2), Engine.Asset(7), Engine.Asset(1)];
    m.PlaySequence(timelines, true, 0.5, true);
    ghost var registry := m.registry;
    assert Resolve(registry, [Engine.Asset(1)]) == [first] by {
      assert [Engine.Asset(1)][1..] == [];
    }
    assert Resolve(registry, [Engine.Asset(7), Engine.Asset(1)]) == [first] by {
      assert [Engine.Asset(7), Engine.Asset(1)][1..] == [Engine.Asset(1)];
    }
    assert timelines[1..] == [Engine.Asset(7), Engine.Asset(1)];
    anyPlaying := m.IsTimelinePlaying();
  }
}
