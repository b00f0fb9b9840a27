/** `Vrm10AutoBlink`: a component that makes the model blink at random intervals. */
module AutoBlink {
  import opened Expression
  import Avatar

  class VrmAutoBlink {
    var runtime: ExpressionRuntime?
    var enabled: bool
    var minInterval: real
    var maxInterval: real
    var blinkCloseTime: real
    var blinkDuration: real
    var blinkOpenTime: real
    /** Time left until the next blink. */
    var nextBlink: real
    /** How many blink coroutines have been started. */
    ghost var blinksStarted: nat

    constructor ()
      ensures runtime == null && enabled && nextBlink == 0.0 && blinksStarted == 0
      ensures minInterval == 2.0 && maxInterval == 5.0
      ensures blinkCloseTime == 0.05 && blinkDuration == 0.08 && blinkOpenTime == 0.05
    {
      runtime := null;
      enabled := true;
      minInterval, maxInterval := 2.0, 5.0;
      blinkCloseTime, blinkDuration, blinkOpenTime := 0.05, 0.08, 0.05;
      nextBlink := 0.0;
      blinksStarted := 0;
    }

    function Settings(): (real, real, real, real, real)
      reads this
    {
      (minInterval, maxInterval, blinkCloseTime, blinkDuration, blinkOpenTime)
    }

    /** `SetNextBlinkTime`: any value `Random.Range(minInterval, maxInterval)` may return. */
    method SetNextBlinkTime()
      modifies this
      ensures Between(nextBlink, minInterval, maxInterval)
      ensures runtime == old(runtime) && enabled == old(enabled) && blinksStarted == old(blinksStarted)
      ensures Settings() == old(Settings())
    {
      assert Between(minInterval, minInterval, maxInterval);
      var interval :| Between(interval, minInterval, maxInterval);
      nextBlink := interval;
    }

    /** The runtime comes from the VRM instance on the game object; without one the
        component keeps a null runtime and disables itself. */
    method Start(instance: Avatar.VrmInstance?)
      modifies this
      ensures instance == null ==> runtime == null && !enabled && nextBlink == old(nextBlink)
      ensures instance != null ==> runtime == instance.runtime && enabled == old(enabled) && Between(nextBlink, minInterval, maxInterval)
      ensures blinksStarted == old(blinksStarted) && Settings() == old(Settings())
    {
      runtime := if instance == null then null else instance.runtime;
      if runtime == null {
        enabled := false;
        return;
      }
      SetNextBlinkTime();
    }

    /** One frame: the countdown drops by the frame time, and once it is at or below zero a
        blink is started and a new interval drawn. */
    method Update(deltaTime: real)
      requires deltaTime >= 0.0
      modifies this
      ensures old(nextBlink) - deltaTime <= 0.0 ==>
        Between(nextBlink, minInterval, maxInterval) && blinksStarted == old(blinksStarted) + 1
      ensures old(nextBlink) - deltaTime > 0.0 ==> nextBlink == old(nextBlink) - deltaTime && blinksStarted == old(blinksStarted)
      ensures 0.0 < minInterval <= maxInterval ==> nextBlink > 0.0
      ensures minInterval <= maxInterval && old(nextBlink) <= maxInterval ==> nextBlink <= maxInterval
      ensures runtime == old(runtime) && enabled == old(enabled) && Settings() == old(Settings())
    {
      nextBlink := nextBlink - deltaTime;
      if nextBlink <= 0.0 {
        blinksStarted := blinksStarted + 1;
        SetNextBlinkTime();
      }
    }

    /** The blink coroutine: the eyes close from 0 to 1 over `blinkCloseTime`, stay closed
        for `blinkDuration` and open back to 0 over `blinkOpenTime`; the frames of the two
        fades last `closeDeltas` and `openDeltas`. */
    method Blink(closeDeltas: seq<real>, openDeltas: seq<real>)
      requires runtime != null
      requires NonNegative(closeDeltas) && Sum(closeDeltas) >= blinkCloseTime
      requires NonNegative(openDeltas) && Sum(openDeltas) >= blinkOpenTime
      modifies runtime
      ensures runtime.weights == old(runtime.weights)[ExpressionKey.Blink := 0.0]
      ensures runtime.writes == old(runtime.writes)
        + Tagged(ExpressionKey.Blink, PulseWrites(1.0, blinkCloseTime, blinkOpenTime, closeDeltas, openDeltas))
    {
      RunPulse(runtime, ExpressionKey.Blink, 1.0, blinkCloseTime, blinkOpenTime, closeDeltas, openDeltas);
    }
  }
}
