/** `VRMAutoSmile`: a component that makes the model smile at random intervals. */
module AutoSmile {
  import opened Expression
  import Avatar

  class VrmAutoSmile {
    var runtime: ExpressionRuntime?
    var enabled: bool
    var minSmileInterval: real
    var maxSmileInterval: real
    var smileFadeIn: real
    var smileDuration: real
    var smileFadeOut: real
    var smileMaxWeight: real
    /** Time since the last smile was started. */
    var timer: real
    /** The interval drawn for the next smile. */
    var nextSmileTime: real
    /** How many smile coroutines have been started. */
    ghost var smilesStarted: nat

    const smileKey: ExpressionKey := Happy

    constructor ()
      ensures runtime == null && enabled && timer == 0.0 && nextSmileTime == 0.0 && smilesStarted == 0
      ensures minSmileInterval == 5.0 && maxSmileInterval == 12.0
      ensures smileFadeIn == 0.25 && smileDuration == 0.7 && smileFadeOut == 0.25 && smileMaxWeight == 0.7
    {
      runtime := null;
      enabled := true;
      minSmileInterval, maxSmileInterval := 5.0, 12.0;
      smileFadeIn, smileDuration, smileFadeOut, smileMaxWeight := 0.25, 0.7, 0.25, 0.7;
      timer, nextSmileTime := 0.0, 0.0;
      smilesStarted := 0;
    }

    /** The timer counts up from zero towards an interval drawn from the configured range. */
    predicate Scheduled()
      reads this
    {
      timer >= 0.0 && Between(nextSmileTime, minSmileInterval, maxSmileInterval)
    }

    /** `SetNextSmileTime`: restarts the timer with a new interval, any value
        `Random.Range(minSmileInterval, maxSmileInterval)` may return. */
    method SetNextSmileTime()
      modifies this
      ensures timer == 0.0 && Scheduled()
      ensures runtime == old(runtime) && enabled == old(enabled) && smilesStarted == old(smilesStarted)
      ensures Settings() == old(Settings())
    {
      timer := 0.0;
      assert Between(minSmileInterval, minSmileInterval, maxSmileInterval);
      var interval :| Between(interval, minSmileInterval, maxSmileInterval);
      nextSmileTime := interval;
    }

    function Settings(): (real, real, real, real, real, real)
      reads this
    {
      (minSmileInterval, maxSmileInterval, smileFadeIn, smileDuration, smileFadeOut, smileMaxWeight)
    }

    /** Without a VRM instance on the game object the component disables itself; otherwise
        it takes the instance's runtime and schedules the first smile. */
    method Start(instance: Avatar.VrmInstance?)
      modifies this
      ensures instance == null ==>
        !enabled && runtime == old(runtime) && timer == old(timer) && nextSmileTime == old(nextSmileTime)
      ensures instance != null ==>
        enabled == old(enabled) && runtime == instance.runtime && timer == 0.0 && Scheduled()
      ensures smilesStarted == old(smilesStarted) && Settings() == old(Settings())
    {
      if instance == null {
        enabled := false;
        return;
      }
      runtime := instance.runtime;
      SetNextSmileTime();
    }

    /** One frame: the timer advances by the frame time, and once it reaches the drawn
        interval a smile is started and a new interval drawn. */
    method Update(deltaTime: real)
      requires deltaTime >= 0.0
      modifies this
      ensures old(timer) + deltaTime >= old(nextSmileTime) ==>
        && timer == 0.0 && smilesStarted == old(smilesStarted) + 1
        && Between(nextSmileTime, minSmileInterval, maxSmileInterval)
      ensures old(timer) + deltaTime < old(nextSmileTime) ==>
        timer == old(timer) + deltaTime && nextSmileTime == old(nextSmileTime) && smilesStarted == old(smilesStarted)
      ensures old(Scheduled()) ==> Scheduled()
      ensures 0.0 < minSmileInterval <= maxSmileInterval ==> timer < nextSmileTime
      ensures old(Scheduled()) && smilesStarted > old(smilesStarted) && minSmileInterval <= maxSmileInterval ==>
        old(timer) + deltaTime >= minSmileInterval
      ensures runtime == old(runtime) && enabled == old(enabled) && Settings() == old(Settings())
    {
      timer := timer + deltaTime;
      if timer >= nextSmileTime {
        smilesStarted := smilesStarted + 1;
        SetNextSmileTime();
      }
    }

    /** The smile coroutine: a pulse of the happy expression up to `smileMaxWeight`, held for
        `smileDuration`, and back to zero; the frames of the two fades last `inDeltas` and
        `outDeltas`. Only a started component runs it, so the runtime is set. */
    method DoSmile(inDeltas: seq<real>, outDeltas: seq<real>)
      requires runtime != null
      requires NonNegative(inDeltas) && Sum(inDeltas) >= smileFadeIn
      requires NonNegative(outDeltas) && Sum(outDeltas) >= smileFadeOut
      modifies runtime
      ensures runtime.weights == old(runtime.weights)[smileKey := 0.0]
      ensures runtime.writes == old(runtime.writes)
        + Tagged(smileKey, PulseWrites(smileMaxWeight, smileFadeIn, smileFadeOut, inDeltas, outDeltas))
    {
      RunPulse(runtime, smileKey, smileMaxWeight, smileFadeIn, smileFadeOut, inDeltas, outDeltas);
    }
  }
}
