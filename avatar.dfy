/** The avatar side of the server: the VRM instance with its audio source, and the controller
    that plays synthesised speech with lip sync and runs the smile animation. */
module Avatar {
  import opened Base
  import opened Expression
  import Wav

  /** What happened to an audio source, in order. */
  datatype PlaybackEvent = Stopped | Played(clip: Wav.ClipData)

  /** Length of the buffer the lip sync reads from the audio output every frame. */
  const SampleWindow := 1024

  /** Unity's `AudioSource` component, reduced to what the controller uses. */
  class AudioSource {
    var clip: Option<Wav.ClipData>
    var isPlaying: bool
    var playOnAwake: bool
    var loop: bool
    ghost var events: seq<PlaybackEvent>

    /** A freshly added component: no clip, silent, `playOnAwake` set and `loop` clear. */
    constructor ()
      ensures clip == None && !isPlaying && playOnAwake && !loop && events == []
    {
      clip := None;
      isPlaying := false;
      playOnAwake := true;
      loop := false;
      events := [];
    }

    method Stop()
      modifies this
      ensures !isPlaying && events == old(events) + [Stopped]
      ensures clip == old(clip) && playOnAwake == old(playOnAwake) && loop == old(loop)
    {
      isPlaying := false;
      events := events + [Stopped];
    }

    /** Starts (or restarts) the clip; without a clip nothing plays. */
    method Play()
      modifies this
      ensures isPlaying == clip.Some?
      ensures events == old(events) + (if clip.Some? then [Played(clip.value)] else [])
      ensures clip == old(clip) && playOnAwake == old(playOnAwake) && loop == old(loop)
    {
      isPlaying := clip.Some?;
      if clip.Some? {
        events := events + [Played(clip.value)];
      }
    }

    /** The engine reaching the end of the clip. */
    method PlaybackEnded()
      modifies this
      ensures !isPlaying
      ensures clip == old(clip) && playOnAwake == old(playOnAwake) && loop == old(loop) && events == old(events)
    {
      isPlaying := false;
    }

    /** `GetOutputData`: fills `samples` with what the source is outputting this frame,
        which the engine supplies as `output`. */
    method GetOutputData(samples: array<real>, output: seq<real>)
      requires samples.Length == |output|
      modifies samples
      ensures samples[..] == output
    {
      forall i | 0 <= i < samples.Length {
        samples[i] := output[i];
      }
    }
  }

  /** A loaded VRM model: its runtime, and the audio source attached to its game object. */
  class VrmInstance {
    const runtime: ExpressionRuntime
    var audioSource: AudioSource?

    constructor (runtime: ExpressionRuntime, audioSource: AudioSource?)
      ensures this.runtime == runtime && this.audioSource == audioSource
    {
      this.runtime := runtime;
      this.audioSource := audioSource;
    }
  }

  function Abs(x: real): (r: real)
    ensures r >= 0.0 && (r == x || r == -x)
  {
    if x < 0.0 then -x else x
  }

  /** Sum of the magnitudes of a buffer, accumulated front to back. */
  function SumAbs(s: seq<real>): real
  {
    if s == [] then 0.0 else SumAbs(s[..|s| - 1]) + Abs(s[|s| - 1])
  }

  /** The loudness the lip sync measures: the mean magnitude of the buffer. */
  function MeanAbs(s: seq<real>): real
    requires |s| > 0
  {
    SumAbs(s) / |s| as real
  }

  /** The mouth opening for one frame of audio output. */
  function MouthWeight(output: seq<real>): real
    requires |output| > 0
  {
    Clamp01(MeanAbs(output) * 5.0)
  }

  predicate FullWindows(outputs: seq<seq<real>>)
  {
    forall i :: 0 <= i < |outputs| ==> |outputs[i]| == SampleWindow
  }

  /** The mouth weights lip sync writes over frames whose output is `outputs`, then closes. */
  function MouthWrites(outputs: seq<seq<real>>): seq<real>
    requires FullWindows(outputs)
  {
    seq(|outputs|, i requires 0 <= i < |outputs| => MouthWeight(outputs[i])) + [0.0]
  }

  /** The level loop of the lip sync: the mean magnitude of the buffer. */
  method OutputLevel(samples: array<real>) returns (level: real)
    requires samples.Length > 0
    ensures level == MeanAbs(samples[..])
  {
    level := 0.0;
    for i := 0 to samples.Length
      invariant level == SumAbs(samples[..i])
    {
      assert samples[..i + 1][..i] == samples[..i];
      level := level + Abs(samples[i]);
    }
    assert samples[..samples.Length] == samples[..];
    level := level / samples.Length as real;
  }

  lemma {:induction false} SumAbsBounds(s: seq<real>)
    ensures SumAbs(s) >= 0.0
    ensures SumAbs(s) == 0.0 <==> forall i :: 0 <= i < |s| ==> s[i] == 0.0
    decreases |s|
  {
    if s != [] {
      var init := s[..|s| - 1];
      SumAbsBounds(init);
      assert forall i :: 0 <= i < |init| ==> init[i] == s[i];
    }
  }

  /** The mouth is closed on silent output and fully open once the mean magnitude reaches a
      fifth of full scale; in between it opens in proportion to the loudness. */
  lemma MouthFollowsLoudness(output: seq<real>)
    requires |output| > 0
    ensures 0.0 <= MouthWeight(output) <= 1.0
    ensures MouthWeight(output) == 0.0 <==> forall i :: 0 <= i < |output| ==> output[i] == 0.0
    ensures MeanAbs(output) >= 0.2 ==> MouthWeight(output) == 1.0
    ensures MeanAbs(output) < 0.2 ==> MouthWeight(output) == MeanAbs(output) * 5.0
  {
    SumAbsBounds(output);
    var n := |output| as real;
    assert MeanAbs(output) == SumAbs(output) / n;
    assert SumAbs(output) == 0.0 <==> SumAbs(output) / n == 0.0;
  }

  /** Lip sync writes one weight per frame of playback, each within [0, 1], and ends by
      closing the mouth. */
  lemma MouthWritesShape(outputs: seq<seq<real>>)
    requires FullWindows(outputs)
    ensures var ws := MouthWrites(outputs);
      && |ws| == |outputs| + 1
      && ws[|outputs|] == 0.0
      && (forall i :: 0 <= i < |outputs| ==> ws[i] == MouthWeight(outputs[i]))
      && forall i :: 0 <= i < |ws| ==> 0.0 <= ws[i] <= 1.0
  {
  }

  /** The scene's `AvatarController`. */
  class AvatarController {
    var vrmRuntime: ExpressionRuntime?
    var audioSource: AudioSource?
    var mouthBlendKey: ExpressionKey
    var smileFadeIn: real
    var smileDuration: real
    var smileFadeOut: real
    var smileMaxWeight: real

    /** The smile expression. */
    const smileKey: ExpressionKey := Happy

    /** Once an audio source is registered, so are the runtime and the mouth key. */
    predicate Valid()
      reads this
    {
      audioSource != null ==> vrmRuntime != null && mouthBlendKey == Oh
    }

    constructor ()
      ensures vrmRuntime == null && audioSource == null && mouthBlendKey == Unset
      ensures smileFadeIn == 0.25 && smileDuration == 0.7 && smileFadeOut == 0.25 && smileMaxWeight == 0.7
      ensures Valid()
    {
      vrmRuntime := null;
      audioSource := null;
      mouthBlendKey := Unset;
      smileFadeIn, smileDuration, smileFadeOut, smileMaxWeight := 0.25, 0.7, 0.25, 0.7;
    }

    /** Registers a model: takes its runtime and its audio source (adding one when it has
        none), turns off play-on-awake and looping, and selects the "oh" mouth shape. A
        missing instance changes nothing. */
    method SetVrmInstance(instance: VrmInstance?)
      requires Valid()
      modifies this, instance
      modifies if instance != null && instance.audioSource != null then {instance.audioSource} else {}
      ensures Valid()
      ensures instance == null ==> unchanged(this)
      ensures instance != null ==>
        && vrmRuntime == instance.runtime
        && audioSource == instance.audioSource && audioSource != null
        && (old(instance.audioSource) == null ==> fresh(audioSource) && audioSource.clip == None && !audioSource.isPlaying)
        && (old(instance.audioSource) != null ==>
              && audioSource == old(instance.audioSource)
              && audioSource.clip == old(instance.audioSource.clip)
              && audioSource.isPlaying == old(instance.audioSource.isPlaying)
              && audioSource.events == old(instance.audioSource.events))
        && !audioSource.playOnAwake && !audioSource.loop
        && mouthBlendKey == Oh
      ensures smileFadeIn == old(smileFadeIn) && smileDuration == old(smileDuration)
      ensures smileFadeOut == old(smileFadeOut) && smileMaxWeight == old(smileMaxWeight)
    {
      if instance == null {
        return;
      }
      vrmRuntime := instance.runtime;
      audioSource := instance.audioSource;
      if audioSource == null {
        audioSource := new AudioSource();
        instance.audioSource := audioSource;
      }
      audioSource.playOnAwake := false;
      audioSource.loop := false;
      mouthBlendKey := Oh;
    }

    /** Plays a WAV: without a registered audio source, or when the bytes do not decode,
        nothing happens. Otherwise a playing clip is stopped, the new clip is set and played,
        and lip sync runs over the frames of playback, whose audio output is `outputs`. */
    method SpeakAsync(wav: Option<seq<Byte>>, outputs: seq<seq<real>>)
      requires Valid() && FullWindows(outputs)
      modifies audioSource, vrmRuntime
      ensures Valid()
      ensures audioSource == null ==> vrmRuntime == null || unchanged(vrmRuntime)
      ensures audioSource != null && Wav.DecodeWav(wav).Failed? ==> unchanged(audioSource, vrmRuntime)
      ensures audioSource != null && Wav.DecodeWav(wav).Clip? ==>
        var c := Wav.DecodeWav(wav).clip;
        && audioSource.clip == Some(c) && !audioSource.isPlaying
        && audioSource.events == old(audioSource.events) + (if old(audioSource.isPlaying) then [Stopped] else []) + [Played(c), Played(c)]
        && audioSource.playOnAwake == old(audioSource.playOnAwake) && audioSource.loop == old(audioSource.loop)
        && vrmRuntime.weights == old(vrmRuntime.weights)[Oh := 0.0]
        && vrmRuntime.writes == old(vrmRuntime.writes) + Tagged(Oh, MouthWrites(outputs))
    {
      if audioSource == null {
        return;
      }
      var decoded := Wav.ToAudioClip(wav);
      if decoded.Failed? {
        return;
      }
      if audioSource.isPlaying {
        audioSource.Stop();
      }
      audioSource.clip := Some(decoded.clip);
      audioSource.Play();
      LipSync(outputs);
    }

    /** Restarts the current clip and, once per frame while it plays, sets the mouth weight
        from the loudness of the output; when playback ends the mouth is closed. */
    method LipSync(outputs: seq<seq<real>>)
      requires Valid() && audioSource != null && FullWindows(outputs)
      modifies audioSource, vrmRuntime
      ensures audioSource.clip == old(audioSource.clip)
      ensures audioSource.playOnAwake == old(audioSource.playOnAwake) && audioSource.loop == old(audioSource.loop)
      ensures old(audioSource.clip).None? ==> unchanged(audioSource, vrmRuntime)
      ensures old(audioSource.clip).Some? ==>
        && !audioSource.isPlaying
        && audioSource.events == old(audioSource.events) + [Played(old(audioSource.clip).value)]
        && vrmRuntime.weights == old(vrmRuntime.weights)[mouthBlendKey := 0.0]
        && vrmRuntime.writes == old(vrmRuntime.writes) + Tagged(mouthBlendKey, MouthWrites(outputs))
    {
      if audioSource.clip.None? {
        return;
      }
      audioSource.Play();
      var samples := new real[SampleWindow];
      ghost var levels: seq<real> := [];
      ghost var base, log := vrmRuntime.weights, vrmRuntime.writes;
      ghost var last := 0.0;
      var i := 0;
      while i < |outputs|
        invariant 0 <= i <= |outputs|
        invariant levels == seq(i, j requires 0 <= j < i => MouthWeight(outputs[j]))
        invariant vrmRuntime.writes == log + Tagged(mouthBlendKey, levels)
        invariant vrmRuntime.weights == if i == 0 then base else base[mouthBlendKey := last]
        invariant audioSource.clip == old(audioSource.clip) && audioSource.isPlaying
        invariant audioSource.playOnAwake == old(audioSource.playOnAwake) && audioSource.loop == old(audioSource.loop)
        invariant audioSource.events == old(audioSource.events) + [Played(old(audioSource.clip).value)]
      {
        audioSource.GetOutputData(samples, outputs[i]);
        var level := OutputLevel(samples);
        var w := Clamp01(level * 5.0);
        Overwrite(base, mouthBlendKey, last, w);
        TaggedExtend(log, mouthBlendKey, levels, w);
        vrmRuntime.SetWeight(mouthBlendKey, w);
        levels, last := levels + [w], w;
        i := i + 1;
      }
      audioSource.PlaybackEnded();
      Overwrite(base, mouthBlendKey, last, 0.0);
      TaggedExtend(log, mouthBlendKey, levels, 0.0);
      vrmRuntime.SetWeight(mouthBlendKey, 0.0);
    }

    /** The smile animation: with no runtime registered nothing happens; otherwise the happy
        expression pulses up to `smileMaxWeight` and back to zero, the frames of the two
        fades lasting `inDeltas` and `outDeltas`. */
    method SetSmileAsync(inDeltas: seq<real>, outDeltas: seq<real>)
      requires NonNegative(inDeltas) && Sum(inDeltas) >= smileFadeIn
      requires NonNegative(outDeltas) && Sum(outDeltas) >= smileFadeOut
      modifies vrmRuntime
      ensures vrmRuntime != null ==>
        && vrmRuntime.weights == old(vrmRuntime.weights)[smileKey := 0.0]
        && vrmRuntime.writes == old(vrmRuntime.writes)
             + Tagged(smileKey, PulseWrites(smileMaxWeight, smileFadeIn, smileFadeOut, inDeltas, outDeltas))
    {
      if vrmRuntime == null {
        return;
      }
      RunPulse(vrmRuntime, smileKey, smileMaxWeight, smileFadeIn, smileFadeOut, inDeltas, outDeltas);
    }

    /** Applying a named emotion only logs it: neither the controller, its audio source nor
        the expression runtime changes. */
    method SetEmotionAsync(emotion: string)
      ensures unchanged(this)
      ensures audioSource != null ==> unchanged(audioSource)
      ensures vrmRuntime != null ==> unchanged(vrmRuntime)
    {
    }
  }
}
