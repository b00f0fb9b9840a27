/** Expression weights of a VRM runtime and the fade timeline every animation in the avatar
    uses: a loop that writes `Mathf.Lerp(from, to, t / duration)` once per frame while
    `t < duration`, advancing `t` by the frame time, and then writes `to` exactly. */
module Expression {

  /** The expression keys the avatar touches; `Unset` is the value of an unassigned
      `ExpressionKey` field. */
  datatype ExpressionKey = Happy | Oh | Blink | Unset

  datatype WeightWrite = WeightWrite(key: ExpressionKey, weight: real)

  /** The expression part of a `Vrm10Runtime`: the current weight of each key, and every
      `SetWeight` call made so far. */
  class ExpressionRuntime {
    var weights: map<ExpressionKey, real>
    ghost var writes: seq<WeightWrite>

    constructor ()
      ensures weights == map[] && writes == []
    {
      weights := map[];
      writes := [];
    }

    method SetWeight(key: ExpressionKey, weight: real)
      modifies this
      ensures weights == old(weights)[key := weight]
      ensures writes == old(writes) + [WeightWrite(key, weight)]
    {
      weights := weights[key := weight];
      writes := writes + [WeightWrite(key, weight)];
    }
  }

  /** `Mathf.Clamp01`. */
  function Clamp01(x: real): (r: real)
    ensures 0.0 <= r <= 1.0
  {
    if x < 0.0 then 0.0 else if x > 1.0 then 1.0 else x
  }

  /** `Mathf.Clamp01` returns a value already in [0, 1] unchanged, 0 below and 1 above. */
  lemma ClampValue(x: real)
    ensures 0.0 <= x <= 1.0 ==> Clamp01(x) == x
    ensures x <= 0.0 ==> Clamp01(x) == 0.0
    ensures x >= 1.0 ==> Clamp01(x) == 1.0
  {
  }

  /** `r` lies between `a` and `b`, whichever is larger. */
  predicate Between(r: real, a: real, b: real)
  {
    (a <= r <= b) || (b <= r <= a)
  }

  /** `Mathf.Lerp`, which clamps its parameter to [0, 1]. */
  function Lerp(a: real, b: real, t: real): (r: real)
    ensures Between(r, a, b)
    ensures t <= 0.0 ==> r == a
    ensures t >= 1.0 ==> r == b
  {
    var c := Clamp01(t);
    var d := b - a;
    ScaleWithin(d, c);
    a + d * c
  }

  /** For a parameter in [0, 1], `Mathf.Lerp` is the linear value `a + (b - a) t`. */
  lemma LerpLinear(a: real, b: real, t: real)
    requires 0.0 <= t <= 1.0
    ensures Lerp(a, b, t) == a + (b - a) * t
  {
    ClampValue(t);
  }

  lemma ScaleWithin(d: real, c: real)
    requires 0.0 <= c <= 1.0
    ensures d >= 0.0 ==> 0.0 <= d * c <= d
    ensures d <= 0.0 ==> d <= d * c <= 0.0
  {
    assert d - d * c == d * (1.0 - c);
  }

  lemma ScaleMonotone(d: real, c: real, c': real)
    requires c <= c' && d >= 0.0
    ensures d * c <= d * c'
  {
    assert d * c' - d * c == d * (c' - c);
  }

  lemma ClampMonotone(s: real, t: real)
    requires s <= t
    ensures Clamp01(s) <= Clamp01(t)
  {
  }

  lemma LerpRising(a: real, b: real, s: real, t: real)
    requires s <= t && a <= b
    ensures Lerp(a, b, s) <= Lerp(a, b, t)
  {
    ClampMonotone(s, t);
    var cs, ct := Clamp01(s), Clamp01(t);
    ScaleMonotone(b - a, cs, ct);
    assert (b - a) * cs <= (b - a) * ct;
    assert Lerp(a, b, s) == a + (b - a) * cs;
    assert Lerp(a, b, t) == a + (b - a) * ct;
  }

  lemma LerpFalling(a: real, b: real, s: real, t: real)
    requires s <= t && b <= a
    ensures Lerp(a, b, t) <= Lerp(a, b, s)
  {
    LerpRising(-a, -b, s, t);
    assert Lerp(-a, -b, s) == -Lerp(a, b, s);
    assert Lerp(-a, -b, t) == -Lerp(a, b, t);
  }

  /** A later parameter moves `Mathf.Lerp` further towards its target. */
  lemma LerpMonotone(a: real, b: real, s: real, t: real)
    requires s <= t
    ensures a <= b ==> Lerp(a, b, s) <= Lerp(a, b, t)
    ensures b <= a ==> Lerp(a, b, t) <= Lerp(a, b, s)
  {
    if a <= b {
      LerpRising(a, b, s, t);
    }
    if b <= a {
      LerpFalling(a, b, s, t);
    }
  }

  lemma DivideMonotone(s: real, t: real, d: real)
    requires s <= t && d > 0.0
    ensures s / d <= t / d
  {
    assert t / d - s / d == (t - s) / d;
  }

  predicate NonNegative(deltas: seq<real>)
  {
    forall i :: 0 <= i < |deltas| ==> deltas[i] >= 0.0
  }

  function Sum(deltas: seq<real>): real
  {
    if deltas == [] then 0.0 else deltas[0] + Sum(deltas[1..])
  }

  /** The weights a fade loop writes when it is at time `t` and the following frames last
      `deltas`; the frames must carry `t` up to `duration`. */
  function FadeWrites(from: real, to: real, duration: real, deltas: seq<real>, t: real): seq<real>
    requires t >= 0.0 && NonNegative(deltas) && t + Sum(deltas) >= duration
    decreases |deltas|
  {
    if t < duration then [Lerp(from, to, t / duration)] + FadeWrites(from, to, duration, deltas[1..], t + deltas[0])
    else [to]
  }

  function Tagged(key: ExpressionKey, ws: seq<real>): (r: seq<WeightWrite>)
    ensures |r| == |ws| && forall i :: 0 <= i < |ws| ==> r[i] == WeightWrite(key, ws[i])
  {
    seq(|ws|, i requires 0 <= i < |ws| => WeightWrite(key, ws[i]))
  }

  lemma TaggedAppend(key: ExpressionKey, ws: seq<real>, w: real)
    ensures Tagged(key, ws + [w]) == Tagged(key, ws) + [WeightWrite(key, w)]
  {
  }

  /** Appending one tagged write after a log that ends with `Tagged(key, ws)`. */
  lemma TaggedExtend(log: seq<WeightWrite>, key: ExpressionKey, ws: seq<real>, w: real)
    ensures (log + Tagged(key, ws)) + [WeightWrite(key, w)] == log + Tagged(key, ws + [w])
  {
    TaggedAppend(key, ws, w);
  }

  /** One frame of a fade that is still running. */
  lemma FadeStep(from: real, to: real, duration: real, deltas: seq<real>, i: nat, t: real)
    requires i <= |deltas| && t >= 0.0 && NonNegative(deltas) && t + Sum(deltas[i..]) >= duration && t < duration
    ensures i < |deltas| && deltas[i..][1..] == deltas[i + 1..]
    ensures NonNegative(deltas[i + 1..]) && t + deltas[i] + Sum(deltas[i + 1..]) >= duration
    ensures FadeWrites(from, to, duration, deltas[i..], t)
      == [Lerp(from, to, t / duration)] + FadeWrites(from, to, duration, deltas[i + 1..], t + deltas[i])
  {
    assert deltas[i..][1..] == deltas[i + 1..];
  }

  /** One fade loop followed by the exact final write, driven by the frame times `deltas`. */
  method RunFade(rt: ExpressionRuntime, key: ExpressionKey, from: real, to: real, duration: real, deltas: seq<real>)
    requires NonNegative(deltas) && Sum(deltas) >= duration
    modifies rt
    ensures rt.weights == old(rt.weights)[key := to]
    ensures rt.writes == old(rt.writes) + Tagged(key, FadeWrites(from, to, duration, deltas, 0.0))
  {
    var t := 0.0;
    var i := 0;
    ghost var done: seq<real> := [];
    ghost var last := 0.0;
    ghost var target := FadeWrites(from, to, duration, deltas, 0.0);
    ghost var base := rt.weights;
    ghost var log := rt.writes;
    assert deltas[0..] == deltas;
    while t < duration
      invariant 0 <= i <= |deltas| && t >= 0.0
      invariant NonNegative(deltas[i..]) && t + Sum(deltas[i..]) >= duration
      invariant done + FadeWrites(from, to, duration, deltas[i..], t) == target
      invariant rt.writes == log + Tagged(key, done)
      invariant rt.weights == if i == 0 then base else base[key := last]
      decreases |deltas| - i
    {
      FadeAdvance(from, to, duration, deltas, i, t, done);
      var w := Lerp(from, to, t / duration);
      Overwrite(base, key, last, w);
      TaggedExtend(log, key, done, w);
      rt.SetWeight(key, w);
      done, last := done + [w], w;
      t := t + deltas[i];
      i := i + 1;
    }
    FadeFinish(from, to, duration, deltas, i, t, done);
    Overwrite(base, key, last, to);
    TaggedExtend(log, key, done, to);
    rt.SetWeight(key, to);
  }

  /** Writing a key twice leaves only the second value. */
  lemma Overwrite(m: map<ExpressionKey, real>, key: ExpressionKey, a: real, b: real)
    ensures m[key := a][key := b] == m[key := b]
  {
  }

  /** The loop invariant of `RunFade` survives one frame. */
  lemma FadeAdvance(from: real, to: real, duration: real, deltas: seq<real>, i: nat, t: real, done: seq<real>)
    requires i <= |deltas| && t >= 0.0 && NonNegative(deltas) && t + Sum(deltas[i..]) >= duration && t < duration
    requires Sum(deltas) >= duration
    requires done + FadeWrites(from, to, duration, deltas[i..], t) == FadeWrites(from, to, duration, deltas, 0.0)
    ensures i < |deltas| && t + deltas[i] >= 0.0 && t + deltas[i] + Sum(deltas[i + 1..]) >= duration
    ensures (done + [Lerp(from, to, t / duration)]) + FadeWrites(from, to, duration, deltas[i + 1..], t + deltas[i])
            == FadeWrites(from, to, duration, deltas, 0.0)
  {
    FadeStep(from, to, duration, deltas, i, t);
  }

  /** Once the time reaches the duration only the final write remains. */
  lemma FadeFinish(from: real, to: real, duration: real, deltas: seq<real>, i: nat, t: real, done: seq<real>)
    requires i <= |deltas| && t >= 0.0 && NonNegative(deltas) && t + Sum(deltas[i..]) >= duration && t >= duration
    requires Sum(deltas) >= duration
    requires done + FadeWrites(from, to, duration, deltas[i..], t) == FadeWrites(from, to, duration, deltas, 0.0)
    ensures done + [to] == FadeWrites(from, to, duration, deltas, 0.0)
  {
  }

  // ---------------------------------------------------------------------------------------
  // Properties of the fade timeline

  /** The last write of a fade is exactly its target. */
  lemma {:induction false} FadeEndsAtTarget(from: real, to: real, duration: real, deltas: seq<real>, t: real)
    requires t >= 0.0 && NonNegative(deltas) && t + Sum(deltas) >= duration
    ensures var ws := FadeWrites(from, to, duration, deltas, t); |ws| > 0 && ws[|ws| - 1] == to
    decreases |deltas|
  {
    if t < duration {
      FadeEndsAtTarget(from, to, duration, deltas[1..], t + deltas[0]);
    }
  }

  /** A fade that has something to do starts exactly at its origin. */
  lemma FadeStartsAtOrigin(from: real, to: real, duration: real, deltas: seq<real>)
    requires NonNegative(deltas) && Sum(deltas) >= duration && duration > 0.0
    ensures FadeWrites(from, to, duration, deltas, 0.0)[0] == from
  {
  }

  /** Every weight a fade writes lies between its origin and its target. */
  lemma {:induction false} FadeWithinRange(from: real, to: real, duration: real, deltas: seq<real>, t: real)
    requires t >= 0.0 && NonNegative(deltas) && t + Sum(deltas) >= duration
    ensures forall w :: w in FadeWrites(from, to, duration, deltas, t) ==> Between(w, from, to)
    decreases |deltas|
  {
    if t < duration {
      FadeWithinRange(from, to, duration, deltas[1..], t + deltas[0]);
    }
  }

  predicate NonDecreasing(ws: seq<real>)
  {
    forall i :: 0 < i < |ws| ==> ws[i - 1] <= ws[i]
  }

  predicate NonIncreasing(ws: seq<real>)
  {
    forall i :: 0 < i < |ws| ==> ws[i] <= ws[i - 1]
  }

  lemma PrependOrdered(w: real, rest: seq<real>)
    requires |rest| > 0
    ensures NonDecreasing(rest) && w <= rest[0] ==> NonDecreasing([w] + rest)
    ensures NonIncreasing(rest) && rest[0] <= w ==> NonIncreasing([w] + rest)
  {
    var ws := [w] + rest;
    assert forall i :: 0 < i < |ws| ==> ws[i] == rest[i - 1];
  }

  /** Frame times never go backwards, so a rising fade never writes a smaller weight after a
      larger one, and a falling fade never a larger one after a smaller. */
  lemma {:induction false} FadeMonotone(from: real, to: real, duration: real, deltas: seq<real>, t: real)
    requires t >= 0.0 && NonNegative(deltas) && t + Sum(deltas) >= duration
    ensures from <= to ==> NonDecreasing(FadeWrites(from, to, duration, deltas, t))
    ensures to <= from ==> NonIncreasing(FadeWrites(from, to, duration, deltas, t))
    decreases |deltas|
  {
    if t < duration {
      var t' := t + deltas[0];
      var w := Lerp(from, to, t / duration);
      var rest := FadeWrites(from, to, duration, deltas[1..], t');
      assert FadeWrites(from, to, duration, deltas, t) == [w] + rest;
      FadeMonotone(from, to, duration, deltas[1..], t');
      if t' < duration {
        DivideMonotone(t, t', duration);
        LerpMonotone(from, to, t / duration, t' / duration);
        assert rest[0] == Lerp(from, to, t' / duration);
      } else {
        assert rest == [to];
      }
      PrependOrdered(w, rest);
    }
  }

  // ---------------------------------------------------------------------------------------
  // Pulses: a fade up to a peak, a hold that writes nothing, and a fade back to zero

  /** The weights one pulse writes: the rising fade and then the falling fade. */
  function PulseWrites(peak: real, fadeIn: real, fadeOut: real, inDeltas: seq<real>, outDeltas: seq<real>): seq<real>
    requires NonNegative(inDeltas) && Sum(inDeltas) >= fadeIn
    requires NonNegative(outDeltas) && Sum(outDeltas) >= fadeOut
  {
    FadeWrites(0.0, peak, fadeIn, inDeltas, 0.0) + FadeWrites(peak, 0.0, fadeOut, outDeltas, 0.0)
  }

  /** Runs a pulse on `key`: the frames of the rising fade last `inDeltas`, those of the
      falling fade `outDeltas`; the hold between them only waits. */
  method RunPulse(rt: ExpressionRuntime, key: ExpressionKey, peak: real, fadeIn: real, fadeOut: real,
                  inDeltas: seq<real>, outDeltas: seq<real>)
    requires NonNegative(inDeltas) && Sum(inDeltas) >= fadeIn
    requires NonNegative(outDeltas) && Sum(outDeltas) >= fadeOut
    modifies rt
    ensures rt.weights == old(rt.weights)[key := 0.0]
    ensures rt.writes == old(rt.writes) + Tagged(key, PulseWrites(peak, fadeIn, fadeOut, inDeltas, outDeltas))
  {
    RunFade(rt, key, 0.0, peak, fadeIn, inDeltas);
    RunFade(rt, key, peak, 0.0, fadeOut, outDeltas);
    TaggedConcat(key, FadeWrites(0.0, peak, fadeIn, inDeltas, 0.0), FadeWrites(peak, 0.0, fadeOut, outDeltas, 0.0));
  }

  lemma TaggedConcat(key: ExpressionKey, a: seq<real>, b: seq<real>)
    ensures Tagged(key, a + b) == Tagged(key, a) + Tagged(key, b)
  {
  }

  lemma ConcatWithin(up: seq<real>, down: seq<real>, peak: real)
    requires peak >= 0.0
    requires forall w :: w in up ==> Between(w, 0.0, peak)
    requires forall w :: w in down ==> Between(w, peak, 0.0)
    ensures forall i :: 0 <= i < |up + down| ==> 0.0 <= (up + down)[i] <= peak
  {
    forall i | 0 <= i < |up + down|
      ensures 0.0 <= (up + down)[i] <= peak
    {
      if i < |up| {
        assert (up + down)[i] == up[i] && up[i] in up;
      } else {
        assert (up + down)[i] == down[i - |up|] && down[i - |up|] in down;
      }
    }
  }

  lemma ConcatOrdered(up: seq<real>, down: seq<real>, peak: real)
    requires |up| > 0 && |down| > 0 && up[|up| - 1] == peak
    requires NonDecreasing(up) && NonIncreasing(down) && down[0] <= peak
    ensures (up + down)[..|up|] == up && (up + down)[|up| - 1..] == [peak] + down
    ensures NonDecreasing((up + down)[..|up|]) && NonIncreasing((up + down)[|up| - 1..])
  {
    assert (up + down)[..|up|] == up;
    assert (up + down)[|up| - 1..] == [peak] + down;
    PrependOrdered(peak, down);
  }

  /** A pulse with a non-negative peak: every weight lies in [0, peak], the rising fade ends
      exactly at the peak (the weight held during the pause), the pulse never falls before
      that point nor rises after it, and the last write returns the key to zero. */
  lemma PulseShape(peak: real, fadeIn: real, fadeOut: real, inDeltas: seq<real>, outDeltas: seq<real>)
    requires NonNegative(inDeltas) && Sum(inDeltas) >= fadeIn
    requires NonNegative(outDeltas) && Sum(outDeltas) >= fadeOut
    requires peak >= 0.0
    ensures var up := FadeWrites(0.0, peak, fadeIn, inDeltas, 0.0);
      var ws := PulseWrites(peak, fadeIn, fadeOut, inDeltas, outDeltas);
      && 0 < |up| < |ws|
      && ws[|up| - 1] == peak
      && NonDecreasing(ws[..|up|]) && NonIncreasing(ws[|up| - 1..])
      && ws[|ws| - 1] == 0.0
      && forall i :: 0 <= i < |ws| ==> 0.0 <= ws[i] <= peak
  {
    var up := FadeWrites(0.0, peak, fadeIn, inDeltas, 0.0);
    var down := FadeWrites(peak, 0.0, fadeOut, outDeltas, 0.0);
    FadeEndsAtTarget(0.0, peak, fadeIn, inDeltas, 0.0);
    FadeEndsAtTarget(peak, 0.0, fadeOut, outDeltas, 0.0);
    FadeWithinRange(0.0, peak, fadeIn, inDeltas, 0.0);
    FadeWithinRange(peak, 0.0, fadeOut, outDeltas, 0.0);
    FadeMonotone(0.0, peak, fadeIn, inDeltas, 0.0);
    FadeMonotone(peak, 0.0, fadeOut, outDeltas, 0.0);
    ConcatShape(up, down, peak);
  }

  /** The shape of a rise followed by a fall, on the two sequences of weights alone. */
  lemma ConcatShape(up: seq<real>, down: seq<real>, peak: real)
    requires peak >= 0.0 && |up| > 0 && |down| > 0
    requires up[|up| - 1] == peak && down[|down| - 1] == 0.0
    requires forall w :: w in up ==> Between(w, 0.0, peak)
    requires forall w :: w in down ==> Between(w, peak, 0.0)
    requires NonDecreasing(up) && NonIncreasing(down)
    ensures var ws := up + down;
      && 0 < |up| < |ws|
      && ws[|up| - 1] == peak
      && NonDecreasing(ws[..|up|]) && NonIncreasing(ws[|up| - 1..])
      && ws[|ws| - 1] == 0.0
      && forall i :: 0 <= i < |ws| ==> 0.0 <= ws[i] <= peak
  {
    assert down[0] in down;
    ConcatOrdered(up, down, peak);
    ConcatWithin(up, down, peak);
    assert (up + down)[|up + down| - 1] == down[|down| - 1];
  }
}
