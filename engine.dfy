// Abstract stand-ins for the engine handles the blender talks to.
// Nothing here computes: these are the values and objects that the
// director and the mixer pass around.

module Engine {

  /** A nullable value: `None` plays the part of a C# `null`. */
  datatype Option<+T> = None | Some(value: T)

  /** The callbacks fired so far, given the optional one that fires now
      (`callback?.Invoke()` fires nothing when the callback is null). The
      record only grows: what fired before stays, in order, and at most the
      one new callback follows it. */
  function Fire<T>(fired: seq<T>, callback: Option<T>): (r: seq<T>)
    ensures |r| == |fired| + (if callback.Some? then 1 else 0)
    ensures r[..|fired|] == fired
    ensures callback.Some? ==> r[|fired|] == callback.value
  {
    match callback
    case None => fired
    case Some(c) => fired + [c]
  }

  /** A timeline asset, compared by identity. */
  datatype Asset = Asset(id: nat)

  /** An `Action` delegate handed to the director; firing it is recorded,
      what it does is outside the model. */
  datatype Callback = Callback(id: nat)

  /** An animation playable output: whether the engine still considers it
      valid and the weight last set on it. */
  class Output {
    var valid: bool
    var weight: real

    constructor (valid: bool, weight: real)
      ensures this.valid == valid && this.weight == weight
    {
      this.valid := valid;
      this.weight := weight;
    }
  }
}
