/**
 * Properties of the handler in app/worker.ts, proved about the functions of
 * WorkerSpec: the audio cutoff, the frame count and timestamps, the
 * progress and phase bytes, the drain listener, and what a whole run
 * encodes, writes and posts.
 */
module WorkerProperties {
  import opened Wrappers
  import opened Progress
  import DrawFrame
  import opened WorkerSpec

  // ---------------------------------------------------------------------------
  // Audio

  /** The first unit fixes the epoch, has offset 0 and is always encoded. */
  lemma FirstAudioUnitKept(ts: seq<int>, duration: int)
    requires ts != [] && duration >= 0
    ensures |AudioKept(ts, duration)| >= 1 && AudioKept(ts, duration)[0] == ts[0]
    ensures duration > 0 ==> AudioProgress(ts[0], ts[0], duration) == 0
  {
  }

  /** A unit beyond the duration ends the audio phase: nothing from it on is encoded. */
  lemma AudioStopsAtFirstUnitBeyond(ts: seq<int>, duration: int, j: nat)
    requires j < |ts| && ts[j] - ts[0] > duration
    ensures |AudioKept(ts, duration)| <= j
  {
  }

  /** A unit whose offset equals the duration is encoded: the cutoff test is strict. */
  lemma AudioBoundaryInclusive(t: int, duration: int)
    requires duration >= 0
    ensures AudioKept([t, t + duration], duration) == [t, t + duration]
    ensures AudioKept([t, t + duration + 1, t + duration], duration) == [t]
  {
    var later := [t, t + duration + 1, t + duration];
    AudioKeptUnique(later, duration, 1);
  }

  /** Units at offsets 0, 0.5 s and 1.1 s against a 1 s duration: the first two are encoded. */
  lemma AudioScenario(t: int)
    ensures AudioKept([t, t + 500_000, t + 1_100_000], 1_000_000) == [t, t + 500_000]
  {
    var units := [t, t + 500_000, t + 1_100_000];
    AudioKeptUnique(units, 1_000_000, 2);
  }

  // ---------------------------------------------------------------------------
  // Video

  /** With the setup duration of 5 s at 24 frames per second, 121 frames are rendered. */
  lemma DefaultFrameCount()
    ensures FrameCount(DrawFrame.Duration, 24) == 121
  {
  }

  /** A 1 s duration at 10 frames per second: 11 frames, 0.1 s apart, the last at 1 s. */
  lemma OneSecondAtTenFps()
    ensures FrameCount(1_000_000, 10) == 11
    ensures forall i: nat :: i < 11 ==> FrameTimestamp(i, 10) == (i * 100_000) as real
    ensures FrameTimestamp(10, 10) == 1_000_000 as real
  {
  }

  /** Frame timestamps start at 0 and strictly increase with the frame index. */
  lemma FrameTimestampsIncrease(i: nat, j: nat, framerate: int)
    requires framerate > 0 && i < j
    ensures FrameTimestamp(0, framerate) == 0.0
    ensures FrameTimestamp(i, framerate) < FrameTimestamp(j, framerate)
  {
    DivideStrict((i * 1_000_000) as real, (j * 1_000_000) as real, framerate as real);
  }

  /**
   * Every rendered frame lies within the duration, and the first index that
   * is not rendered lies beyond it: the frames cover the duration exactly.
   */
  lemma FramesCoverDuration(i: nat, duration: int, framerate: int)
    requires duration >= 0 && framerate > 0
    ensures i < FrameCount(duration, framerate) ==> FrameTimestamp(i, framerate) <= duration as real
    ensures FrameTimestamp(FrameCount(duration, framerate), framerate) > duration as real
  {
    var f := framerate as real;
    var n := FrameCount(duration, framerate);
    assert (duration * framerate) as real / f == duration as real;
    if i < n {
      assert i * 1_000_000 <= duration * framerate;
      DivideMonotone((i * 1_000_000) as real, (duration * framerate) as real, f);
    }
    assert n * 1_000_000 > duration * framerate;
    DivideStrict((duration * framerate) as real, (n * 1_000_000) as real, f);
  }

  lemma DivideMonotone(a: real, b: real, c: real)
    requires a <= b && c > 0.0
    ensures a / c <= b / c
  {
    assert a / c * c == a && b / c * c == b;
  }

  lemma DivideStrict(a: real, b: real, c: real)
    requires a < b && c > 0.0
    ensures a / c < b / c
  {
    assert a / c * c == a && b / c * c == b;
  }

  /** The progress byte of the video phase never decreases from one frame to the next. */
  lemma VideoProgressMonotone(i: nat, j: nat, framerate: int, duration: int)
    requires framerate > 0 && duration > 0 && i <= j
    ensures VideoProgress(0, framerate, duration) == 0
    ensures VideoProgress(i, framerate, duration) <= VideoProgress(j, framerate, duration)
  {
    assert FrameTimestamp(0, framerate) * 255.0 / duration as real == 0.0;
    if i < j {
      FrameTimestampsIncrease(i, j, framerate);
    }
    var ti, tj := FrameTimestamp(i, framerate), FrameTimestamp(j, framerate);
    DivideMonotone(ti * 255.0, tj * 255.0, duration as real);
    ToUint8ClampMonotone(ti * 255.0 / duration as real, tj * 255.0 / duration as real);
  }

  // ---------------------------------------------------------------------------
  // Drain

  /**
   * Drain progress starts at 0 with the queue as it was when draining began
   * and grows as the queue empties.
   */
  lemma DrainProgressMonotone(queueSize: nat, larger: nat, smaller: nat)
    requires smaller <= larger
    ensures DrainProgress(queueSize, queueSize) == 0
    ensures DrainProgress(queueSize, larger) <= DrainProgress(queueSize, smaller)
  {
    if queueSize > 0 {
      var q := queueSize as real;
      DivideMonotone(((queueSize - larger) * 255) as real, ((queueSize - smaller) * 255) as real, q);
      ToUint8ClampMonotone(((queueSize - larger) * 255) as real / q, ((queueSize - smaller) * 255) as real / q);
    }
  }

  /**
   * The drain listener removes itself exactly when some 'dequeue' event
   * finds the phase byte not reading 2 or the queue empty; before that it
   * only stores progress, and it handles nothing after removing itself.
   */
  lemma {:induction false} DrainListenerRemoval(queueSize: nat, sizes: seq<nat>, draining: bool)
    ensures var events := DrainListen(queueSize, sizes, draining);
      && (RemoveDequeueListener in events <==> sizes != [] && (!draining || 0 in sizes))
      && |events| <= |sizes|
      && (forall i :: 0 <= i < |events| - 1 ==> events[i].Write? && events[i].index == ProgressIndex)
      && (RemoveDequeueListener in events ==> events[|events| - 1] == RemoveDequeueListener)
  {
    if sizes != [] && draining && sizes[0] != 0 {
      DrainListenerRemoval(queueSize, sizes[1..], draining);
      assert 0 in sizes <==> 0 in sizes[1..] by {
        assert sizes == [sizes[0]] + sizes[1..];
      }
    }
  }

  // ---------------------------------------------------------------------------
  // Projections of traces

  lemma {:induction false} PickAppend<T>(a: seq<Event>, b: seq<Event>, select: Event -> Option<T>)
    ensures Pick(a + b, select) == Pick(a, select) + Pick(b, select)
  {
    if a == [] {
      assert a + b == b;
    } else {
      assert (a + b)[1..] == a[1..] + b;
      PickAppend(a[1..], b, select);
    }
  }

  /** A trace none of whose events is selected projects to nothing. */
  lemma {:induction false} PickNone<T>(trace: seq<Event>, select: Event -> Option<T>)
    requires forall e :: e in trace ==> select(e).None?
    ensures Pick(trace, select) == []
  {
    if trace != [] {
      assert forall e :: e in trace[1..] ==> e in trace;
      PickNone(trace[1..], select);
    }
  }

  lemma PickCons<T>(e: Event, rest: seq<Event>, select: Event -> Option<T>)
    ensures Pick([e] + rest, select) == Picked(select(e)) + Pick(rest, select)
  {
    assert ([e] + rest)[1..] == rest;
  }

  /** The kinds of step the audio loop takes. */
  predicate AudioStep(e: Event)
  {
    e.ReadAudio? || e.EncodeAudio? || e.CloseAudio? || (e.Write? && e.index == ProgressIndex)
  }

  /** The kinds of step the video loop takes. */
  predicate VideoStep(e: Event)
  {
    e.Draw? || e.NewFrame? || e.EncodeVideo? || e.CloseFrame? || e.AwaitDequeue?
    || (e.Write? && e.index == ProgressIndex)
  }

  /** The kinds of step the drain listener takes. */
  predicate DrainStep(e: Event)
  {
    e.RemoveDequeueListener? || (e.Write? && e.index == ProgressIndex)
  }

  lemma {:induction false} UnitsSteps(units: seq<int>, epoch: int, duration: int)
    requires duration > 0
    ensures forall e :: e in UnitsEvents(units, epoch, duration) ==> AudioStep(e)
  {
    if units != [] {
      UnitsSteps(units[..|units| - 1], epoch, duration);
    }
  }

  lemma {:induction false} FramesSteps(n: nat, framerate: int, duration: int)
    requires framerate > 0 && duration > 0
    ensures forall e :: e in FramesEvents(n, framerate, duration) ==> VideoStep(e)
  {
    if n > 0 {
      FramesSteps(n - 1, framerate, duration);
    }
  }

  lemma {:induction false} DrainSteps(queueSize: nat, sizes: seq<nat>, draining: bool)
    ensures forall e :: e in DrainListen(queueSize, sizes, draining) ==> DrainStep(e)
  {
    if sizes != [] && draining && sizes[0] != 0 {
      DrainSteps(queueSize, sizes[1..], draining);
    }
  }

  /** The steps for one kept unit encode exactly that unit. */
  lemma UnitEncoded(t: int, epoch: int, duration: int)
    requires duration > 0
    ensures Pick([ReadAudio] + UnitEvents(t, epoch, duration), EncodedAudio) == [t]
  {
    var w := Write(ProgressIndex, AudioProgress(t, epoch, duration));
    PickNone([CloseAudio(t), w], EncodedAudio);
    PickCons(EncodeAudio(t), [CloseAudio(t), w], EncodedAudio);
    PickCons(ReadAudio, [EncodeAudio(t), CloseAudio(t), w], EncodedAudio);
    assert [ReadAudio] + UnitEvents(t, epoch, duration) == [ReadAudio] + [EncodeAudio(t), CloseAudio(t), w];
  }

  /** The audio loop encodes the units it is given, in order. */
  lemma {:induction false} UnitsEncoded(units: seq<int>, epoch: int, duration: int)
    requires duration > 0
    ensures Pick(UnitsEvents(units, epoch, duration), EncodedAudio) == units
  {
    if units != [] {
      var init, last := units[..|units| - 1], units[|units| - 1];
      var prefix, unit := UnitsEvents(init, epoch, duration), [ReadAudio] + UnitEvents(last, epoch, duration);
      UnitsEncoded(init, epoch, duration);
      UnitEncoded(last, epoch, duration);
      assert UnitsEvents(units, epoch, duration) == prefix + unit;
      PickAppend(prefix, unit, EncodedAudio);
      assert init + [last] == units;
    }
  }

  /** The steps for one frame encode exactly that frame, showing its own timestamp. */
  lemma FrameEncoded(i: nat, framerate: int, duration: int)
    requires framerate > 0 && duration > 0
    ensures var t := FrameTimestamp(i, framerate);
      Pick(FrameEvents(i, framerate, duration), EncodedVideo) == [VideoFrame(t, Some(t))]
  {
    var t := FrameTimestamp(i, framerate);
    var frame := VideoFrame(t, Some(t));
    var w := Write(ProgressIndex, VideoProgress(i, framerate, duration));
    var tail := [CloseFrame(frame), w, AwaitDequeue];
    PickNone(tail, EncodedVideo);
    PickCons(EncodeVideo(frame), tail, EncodedVideo);
    PickCons(NewFrame(frame), [EncodeVideo(frame)] + tail, EncodedVideo);
    PickCons(Draw(t), [NewFrame(frame), EncodeVideo(frame)] + tail, EncodedVideo);
    assert FrameEvents(i, framerate, duration) == [Draw(t)] + ([NewFrame(frame)] + ([EncodeVideo(frame)] + tail));
  }

  /** The video loop encodes one frame per index, each built from the canvas as drawn at its timestamp. */
  lemma {:induction false} FramesEncoded(n: nat, framerate: int, duration: int)
    requires framerate > 0 && duration > 0
    ensures Pick(FramesEvents(n, framerate, duration), EncodedVideo) == RenderedFrames(n, framerate)
  {
    if n > 0 {
      var prefix, last := FramesEvents(n - 1, framerate, duration), FrameEvents(n - 1, framerate, duration);
      var t := FrameTimestamp(n - 1, framerate);
      assert FramesEvents(n, framerate, duration) == prefix + last;
      assert RenderedFrames(n, framerate) == RenderedFrames(n - 1, framerate) + [VideoFrame(t, Some(t))];
      FramesEncoded(n - 1, framerate, duration);
      FrameEncoded(n - 1, framerate, duration);
      PickAppend(prefix, last, EncodedVideo);
    }
  }

  /** The steps for one frame store exactly that frame's progress. */
  lemma FrameProgress(i: nat, framerate: int, duration: int)
    requires framerate > 0 && duration > 0
    ensures Pick(FrameEvents(i, framerate, duration), ProgressWrite) == [VideoProgress(i, framerate, duration)]
  {
    var t := FrameTimestamp(i, framerate);
    var frame := VideoFrame(t, Some(t));
    var w := Write(ProgressIndex, VideoProgress(i, framerate, duration));
    var head := [Draw(t), NewFrame(frame), EncodeVideo(frame), CloseFrame(frame)];
    PickNone(head, ProgressWrite);
    PickNone([AwaitDequeue], ProgressWrite);
    PickCons(w, [AwaitDequeue], ProgressWrite);
    assert FrameEvents(i, framerate, duration) == head + ([w] + [AwaitDequeue]);
    PickAppend(head, [w] + [AwaitDequeue], ProgressWrite);
  }

  /** The progress bytes the video loop stores: one per frame, in frame order. */
  lemma {:induction false} FramesProgress(n: nat, framerate: int, duration: int)
    requires framerate > 0 && duration > 0
    ensures Pick(FramesEvents(n, framerate, duration), ProgressWrite) == ProgressBytes(n, framerate, duration)
  {
    if n > 0 {
      var prefix, last := FramesEvents(n - 1, framerate, duration), FrameEvents(n - 1, framerate, duration);
      FramesProgress(n - 1, framerate, duration);
      FrameProgress(n - 1, framerate, duration);
      PickAppend(prefix, last, ProgressWrite);
    }
  }

  /** Within the video phase the stored progress never decreases. */
  lemma VideoPhaseProgressMonotone(framerate: int, duration: int)
    requires framerate > 0 && duration > 0
    ensures var progress := Pick(VideoPhase(framerate, duration), ProgressWrite);
      |progress| == FrameCount(duration, framerate)
      && forall i, j :: 0 <= i <= j < |progress| ==> progress[i] <= progress[j]
  {
    var n := FrameCount(duration, framerate);
    FramesProgress(n, framerate, duration);
    ProgressBytesInFrameOrder(n, framerate, duration);
    forall i: nat, j: nat | i <= j < n
      ensures VideoProgress(i, framerate, duration) <= VideoProgress(j, framerate, duration)
    {
      VideoProgressMonotone(i, j, framerate, duration);
    }
  }

  // ---------------------------------------------------------------------------
  // A whole run

  /** Steps of the audio loop encode no frame, write no phase and post nothing. */
  lemma AudioStepsSelectNothing(trace: seq<Event>)
    requires forall e :: e in trace ==> AudioStep(e)
    ensures Pick(trace, EncodedVideo) == [] && Pick(trace, PhaseWrite) == [] && PostBuffer !in trace
  {
    PickNone(trace, EncodedVideo);
    PickNone(trace, PhaseWrite);
  }

  /** Steps of the video loop encode no audio, write no phase and post nothing. */
  lemma VideoStepsSelectNothing(trace: seq<Event>)
    requires forall e :: e in trace ==> VideoStep(e)
    ensures Pick(trace, EncodedAudio) == [] && Pick(trace, PhaseWrite) == [] && PostBuffer !in trace
  {
    PickNone(trace, EncodedAudio);
    PickNone(trace, PhaseWrite);
  }

  /** Steps of the drain listener encode nothing, write no phase and post nothing. */
  lemma DrainStepsSelectNothing(trace: seq<Event>)
    requires forall e :: e in trace ==> DrainStep(e)
    ensures Pick(trace, EncodedAudio) == [] && Pick(trace, EncodedVideo) == []
    ensures Pick(trace, PhaseWrite) == [] && PostBuffer !in trace
  {
    PickNone(trace, EncodedAudio);
    PickNone(trace, EncodedVideo);
    PickNone(trace, PhaseWrite);
  }

  /** What the audio phase encodes, and that it neither encodes video, writes a phase nor posts. */
  lemma AudioPhasePicks(ts: seq<int>, duration: int)
    requires duration > 0
    ensures Pick(AudioPhase(ts, duration), EncodedAudio) == AudioKept(ts, duration)
    ensures Pick(AudioPhase(ts, duration), EncodedVideo) == []
    ensures Pick(AudioPhase(ts, duration), PhaseWrite) == []
    ensures PostBuffer !in AudioPhase(ts, duration)
  {
    var units := if ts == [] then [] else UnitsEvents(AudioKept(ts, duration), ts[0], duration);
    assert AudioPhase(ts, duration) == units + [ReadAudio];
    if ts != [] {
      UnitsEncoded(AudioKept(ts, duration), ts[0], duration);
      UnitsSteps(AudioKept(ts, duration), ts[0], duration);
    }
    PickAppend(units, [ReadAudio], EncodedAudio);
    PickOne(ReadAudio, EncodedAudio);
    assert forall e :: e in units + [ReadAudio] ==> AudioStep(e);
    AudioStepsSelectNothing(units + [ReadAudio]);
  }

  /** What the video phase encodes, and that it neither encodes audio, writes a phase nor posts. */
  lemma VideoPhasePicks(framerate: int, duration: int)
    requires framerate > 0 && duration > 0
    ensures Pick(VideoPhase(framerate, duration), EncodedAudio) == []
    ensures Pick(VideoPhase(framerate, duration), EncodedVideo)
            == RenderedFrames(FrameCount(duration, framerate), framerate)
    ensures Pick(VideoPhase(framerate, duration), PhaseWrite) == []
    ensures PostBuffer !in VideoPhase(framerate, duration)
  {
    var n := FrameCount(duration, framerate);
    FramesEncoded(n, framerate, duration);
    FramesSteps(n, framerate, duration);
    VideoStepsSelectNothing(VideoPhase(framerate, duration));
  }

  /** The drain phase writes phase 2 and encodes and posts nothing. */
  lemma DrainPhasePicks(queueSize: nat, sizes: seq<nat>, registerLength: nat)
    ensures Pick(DrainPhase(queueSize, sizes, registerLength), EncodedAudio) == []
    ensures Pick(DrainPhase(queueSize, sizes, registerLength), EncodedVideo) == []
    ensures Pick(DrainPhase(queueSize, sizes, registerLength), PhaseWrite) == [2]
    ensures PostBuffer !in DrainPhase(queueSize, sizes, registerLength)
  {
    var head := [Write(PhaseIndex, 2), AddDequeueListener, Flush];
    var listen := DrainListen(queueSize, sizes, registerLength >= 2);
    assert DrainPhase(queueSize, sizes, registerLength) == head + listen;
    DrainSteps(queueSize, sizes, registerLength >= 2);
    DrainStepsSelectNothing(listen);
    DrainStartPicks();
    PickAppend(head, listen, EncodedAudio);
    PickAppend(head, listen, EncodedVideo);
    PickAppend(head, listen, PhaseWrite);
  }

  /** Starting the drain writes phase 2 and encodes nothing. */
  lemma DrainStartPicks()
    ensures Pick([Write(PhaseIndex, 2), AddDequeueListener, Flush], EncodedAudio) == []
    ensures Pick([Write(PhaseIndex, 2), AddDequeueListener, Flush], EncodedVideo) == []
    ensures Pick([Write(PhaseIndex, 2), AddDequeueListener, Flush], PhaseWrite) == [2]
  {
    PickThree(Write(PhaseIndex, 2), AddDequeueListener, Flush, EncodedAudio);
    PickThree(Write(PhaseIndex, 2), AddDequeueListener, Flush, EncodedVideo);
    PickThree(Write(PhaseIndex, 2), AddDequeueListener, Flush, PhaseWrite);
  }

  /** The finish writes phase 3 and encodes nothing. */
  lemma FinishPhasePicks()
    ensures Pick(FinishPhase(), EncodedAudio) == []
    ensures Pick(FinishPhase(), EncodedVideo) == []
    ensures Pick(FinishPhase(), PhaseWrite) == [3]
  {
    PickFour(Write(PhaseIndex, 3), Finalize, CloseVideoEncoder, PostBuffer, EncodedAudio);
    PickFour(Write(PhaseIndex, 3), Finalize, CloseVideoEncoder, PostBuffer, EncodedVideo);
    PickFour(Write(PhaseIndex, 3), Finalize, CloseVideoEncoder, PostBuffer, PhaseWrite);
  }

  /** A three-step trace projects to what its steps select, in order. */
  lemma PickThree<T>(a: Event, b: Event, c: Event, select: Event -> Option<T>)
    ensures Pick([a, b, c], select) == Picked(select(a)) + (Picked(select(b)) + Picked(select(c)))
  {
    PickCons(a, [b, c], select);
    PickCons(b, [c], select);
    PickOne(c, select);
    assert [a] + [b, c] == [a, b, c];
    assert [b] + [c] == [b, c];
  }

  /** A four-step trace projects to what its steps select, in order. */
  lemma PickFour<T>(a: Event, b: Event, c: Event, d: Event, select: Event -> Option<T>)
    ensures Pick([a, b, c, d], select)
            == Picked(select(a)) + (Picked(select(b)) + (Picked(select(c)) + Picked(select(d))))
  {
    PickCons(a, [b, c, d], select);
    PickThree(b, c, d, select);
    assert [a] + [b, c, d] == [a, b, c, d];
  }

  /** A one-step trace projects to what its step selects. */
  lemma PickOne<T>(e: Event, select: Event -> Option<T>)
    ensures Pick([e], select) == Picked(select(e))
  {
    PickCons(e, [], select);
    assert [e] + [] == [e];
  }

  /** A successful run projects, phase by phase, onto what each phase selects. */
  lemma RunPicks<T>(audio: seq<int>, framerate: int, queueSize: nat, sizes: seq<nat>, registerLength: nat,
                    select: Event -> Option<T>,
                    configured: seq<T>, audioPart: seq<T>, phase1: seq<T>, videoPart: seq<T>, drainPart: seq<T>,
                    finishPart: seq<T>)
    requires framerate > 0
    requires Pick([ConfigureVideo, ConfigureAudio], select) == configured
    requires Pick(AudioPhase(audio, DrawFrame.Duration), select) == audioPart
    requires Pick([Write(PhaseIndex, 1)], select) == phase1
    requires Pick(VideoPhase(framerate, DrawFrame.Duration), select) == videoPart
    requires Pick(DrainPhase(queueSize, sizes, registerLength), select) == drainPart
    requires Pick(FinishPhase(), select) == finishPart
    ensures Pick(RunTrace(audio, framerate, true, queueSize, sizes, registerLength), select)
            == configured + audioPart + phase1 + videoPart + drainPart + finishPart
  {
    var s0 := [ConfigureVideo, ConfigureAudio];
    var s1 := s0 + AudioPhase(audio, DrawFrame.Duration);
    var s2 := s1 + [Write(PhaseIndex, 1)];
    var s3 := s2 + VideoPhase(framerate, DrawFrame.Duration);
    var s4 := s3 + DrainPhase(queueSize, sizes, registerLength);
    PickAppend(s0, AudioPhase(audio, DrawFrame.Duration), select);
    PickAppend(s1, [Write(PhaseIndex, 1)], select);
    PickAppend(s2, VideoPhase(framerate, DrawFrame.Duration), select);
    PickAppend(s3, DrainPhase(queueSize, sizes, registerLength), select);
    PickAppend(s4, FinishPhase(), select);
  }

  /** What a successful run encodes of the audio stream. */
  lemma SuccessEncodesKeptAudio(audio: seq<int>, framerate: int, queueSize: nat, sizes: seq<nat>,
                                registerLength: nat)
    requires framerate > 0
    ensures Pick(RunTrace(audio, framerate, true, queueSize, sizes, registerLength), EncodedAudio)
            == AudioKept(audio, DrawFrame.Duration)
  {
    var kept := AudioKept(audio, DrawFrame.Duration);
    assert Pick([ConfigureVideo, ConfigureAudio], EncodedAudio) == [] by {
      PickNone([ConfigureVideo, ConfigureAudio], EncodedAudio);
    }
    assert Pick([Write(PhaseIndex, 1)], EncodedAudio) == [] by {
      PickNone([Write(PhaseIndex, 1)], EncodedAudio);
    }
    assert Pick(AudioPhase(audio, DrawFrame.Duration), EncodedAudio) == kept by {
      AudioPhasePicks(audio, DrawFrame.Duration);
    }
    assert Pick(VideoPhase(framerate, DrawFrame.Duration), EncodedAudio) == [] by {
      VideoPhasePicks(framerate, DrawFrame.Duration);
    }
    assert Pick(DrainPhase(queueSize, sizes, registerLength), EncodedAudio) == [] by {
      DrainPhasePicks(queueSize, sizes, registerLength);
    }
    assert Pick(FinishPhase(), EncodedAudio) == [] by {
      FinishPhasePicks();
    }
    RunPicks(audio, framerate, queueSize, sizes, registerLength, EncodedAudio, [], kept, [], [], [], []);
    AmongEmpty(kept);
  }

  /** A successful run encodes exactly the kept audio units, in stream order; a failed one encodes none. */
  lemma RunEncodesKeptAudio(audio: seq<int>, framerate: int, hasWebGL: bool,
                            queueSize: nat, sizes: seq<nat>, registerLength: nat)
    ensures Pick(RunTrace(audio, framerate, hasWebGL, queueSize, sizes, registerLength), EncodedAudio)
            == if framerate > 0 && hasWebGL then AudioKept(audio, DrawFrame.Duration) else []
  {
    if framerate > 0 && hasWebGL {
      SuccessEncodesKeptAudio(audio, framerate, queueSize, sizes, registerLength);
    } else {
      PickNone([ConfigureVideo, ConfigureAudio], EncodedAudio);
    }
  }

  /** What a successful run encodes of the rendered video. */
  lemma SuccessEncodesFrames(audio: seq<int>, framerate: int, queueSize: nat, sizes: seq<nat>,
                             registerLength: nat)
    requires framerate > 0
    ensures Pick(RunTrace(audio, framerate, true, queueSize, sizes, registerLength), EncodedVideo)
            == RenderedFrames(FrameCount(DrawFrame.Duration, framerate), framerate)
  {
    var frames := RenderedFrames(FrameCount(DrawFrame.Duration, framerate), framerate);
    assert Pick([ConfigureVideo, ConfigureAudio], EncodedVideo) == [] by {
      PickNone([ConfigureVideo, ConfigureAudio], EncodedVideo);
    }
    assert Pick([Write(PhaseIndex, 1)], EncodedVideo) == [] by {
      PickNone([Write(PhaseIndex, 1)], EncodedVideo);
    }
    assert Pick(AudioPhase(audio, DrawFrame.Duration), EncodedVideo) == [] by {
      AudioPhasePicks(audio, DrawFrame.Duration);
    }
    assert Pick(VideoPhase(framerate, DrawFrame.Duration), EncodedVideo) == frames by {
      VideoPhasePicks(framerate, DrawFrame.Duration);
    }
    assert Pick(DrainPhase(queueSize, sizes, registerLength), EncodedVideo) == [] by {
      DrainPhasePicks(queueSize, sizes, registerLength);
    }
    assert Pick(FinishPhase(), EncodedVideo) == [] by {
      FinishPhasePicks();
    }
    RunPicks(audio, framerate, queueSize, sizes, registerLength, EncodedVideo, [], [], [], frames, [], []);
    AmongEmpty(frames);
  }

  /**
   * A successful run encodes FrameCount frames, the i-th stamped i/framerate
   * seconds and built from the canvas as drawn at that time; a failed one encodes none.
   */
  lemma RunEncodesFrames(audio: seq<int>, framerate: int, hasWebGL: bool,
                         queueSize: nat, sizes: seq<nat>, registerLength: nat)
    ensures var frames := Pick(RunTrace(audio, framerate, hasWebGL, queueSize, sizes, registerLength), EncodedVideo);
      if framerate > 0 && hasWebGL then
        |frames| == FrameCount(DrawFrame.Duration, framerate)
        && forall i :: 0 <= i < |frames| ==>
             var t := FrameTimestamp(i, framerate); frames[i] == VideoFrame(t, Some(t))
      else frames == []
  {
    if framerate > 0 && hasWebGL {
      SuccessEncodesFrames(audio, framerate, queueSize, sizes, registerLength);
      RenderedFramesShowTheirTimestamps(FrameCount(DrawFrame.Duration, framerate), framerate);
    } else {
      PickNone([ConfigureVideo, ConfigureAudio], EncodedVideo);
    }
  }

  /** The phase bytes a successful run writes. */
  lemma SuccessPhases(audio: seq<int>, framerate: int, queueSize: nat, sizes: seq<nat>, registerLength: nat)
    requires framerate > 0
    ensures Pick(RunTrace(audio, framerate, true, queueSize, sizes, registerLength), PhaseWrite)
            == [] + [] + [1] + [] + [2] + [3]
  {
    assert Pick([ConfigureVideo, ConfigureAudio], PhaseWrite) == [] by {
      PickNone([ConfigureVideo, ConfigureAudio], PhaseWrite);
    }
    assert Pick([Write(PhaseIndex, 1)], PhaseWrite) == [1] by {
      PickOne(Write(PhaseIndex, 1), PhaseWrite);
    }
    assert Pick(AudioPhase(audio, DrawFrame.Duration), PhaseWrite) == [] by {
      AudioPhasePicks(audio, DrawFrame.Duration);
    }
    assert Pick(VideoPhase(framerate, DrawFrame.Duration), PhaseWrite) == [] by {
      VideoPhasePicks(framerate, DrawFrame.Duration);
    }
    assert Pick(DrainPhase(queueSize, sizes, registerLength), PhaseWrite) == [2] by {
      DrainPhasePicks(queueSize, sizes, registerLength);
    }
    assert Pick(FinishPhase(), PhaseWrite) == [3] by {
      FinishPhasePicks();
    }
    RunPicks(audio, framerate, queueSize, sizes, registerLength, PhaseWrite, [], [], [1], [], [2], [3]);
  }

  /** A successful run writes the phase byte exactly three times, 1, 2 and 3 in that order; a failed one never. */
  lemma RunPhases(audio: seq<int>, framerate: int, hasWebGL: bool,
                  queueSize: nat, sizes: seq<nat>, registerLength: nat)
    ensures Pick(RunTrace(audio, framerate, hasWebGL, queueSize, sizes, registerLength), PhaseWrite)
            == if framerate > 0 && hasWebGL then [1, 2, 3] else []
  {
    if framerate > 0 && hasWebGL {
      SuccessPhases(audio, framerate, queueSize, sizes, registerLength);
      Singletons(1 as byte, 2, 3);
    } else {
      PickNone([ConfigureVideo, ConfigureAudio], PhaseWrite);
    }
  }

  /** One projection among empty ones, in the audio or in the video position. Sequence bookkeeping only: stated as a lemma so that the solver proves it in a small context. */
  lemma AmongEmpty<T>(x: seq<T>)
    ensures [] + x + [] + [] + [] + [] == x
    ensures [] + [] + [] + x + [] + [] == x
  {
  }

  /** Three single values, with empty projections between them. Sequence bookkeeping only: stated as a lemma so that the solver proves it in a small context. */
  lemma Singletons<T>(x: T, y: T, z: T)
    ensures [] + [] + [x] + [] + [y] + [z] == [x, y, z]
  {
  }

  /** A successful run posts the buffer once, as its last step; a failed one never does. */
  lemma RunPostsOnce(audio: seq<int>, framerate: int, hasWebGL: bool,
                     queueSize: nat, sizes: seq<nat>, registerLength: nat)
    ensures var trace := RunTrace(audio, framerate, hasWebGL, queueSize, sizes, registerLength);
      if framerate > 0 && hasWebGL
      then trace != [] && trace[|trace| - 1] == PostBuffer && PostBuffer !in trace[..|trace| - 1]
      else PostBuffer !in trace
  {
    if framerate > 0 && hasWebGL {
      var trace := RunTrace(audio, framerate, true, queueSize, sizes, registerLength);
      var body := [ConfigureVideo, ConfigureAudio]
        + AudioPhase(audio, DrawFrame.Duration) + [Write(PhaseIndex, 1)]
        + VideoPhase(framerate, DrawFrame.Duration)
        + DrainPhase(queueSize, sizes, registerLength);
      assert PostBuffer !in body by {
        AudioPhasePicks(audio, DrawFrame.Duration);
        VideoPhasePicks(framerate, DrawFrame.Duration);
        DrainPhasePicks(queueSize, sizes, registerLength);
      }
      var before := body + [Write(PhaseIndex, 3), Finalize, CloseVideoEncoder];
      assert PostBuffer !in before;
      assert trace == before + [PostBuffer];
      assert trace[..|trace| - 1] == before;
    }
  }

  /** Replaying one more step applies that step's store, if any, to the register replayed so far. */
  lemma ReplaySnoc(register: seq<byte>, trace: seq<Event>, e: Event)
    ensures Replay(register, trace + [e]) == Store(Replay(register, trace), e)
  {
    assert (trace + [e])[..|trace|] == trace;
  }

  /** Whatever came before, the finish leaves the phase byte reading 3. */
  lemma FinishLeavesPhaseThree(initial: seq<byte>, before: seq<Event>)
    requires |initial| > PhaseIndex
    ensures Replay(initial, before + FinishPhase())[PhaseIndex] == 3
  {
    var stored := before + [Write(PhaseIndex, 3)];
    assert before + FinishPhase() == stored + [Finalize] + [CloseVideoEncoder] + [PostBuffer];
    ReplaySnoc(initial, before, Write(PhaseIndex, 3));
    ReplaySnoc(initial, stored, Finalize);
    ReplaySnoc(initial, stored + [Finalize], CloseVideoEncoder);
    ReplaySnoc(initial, stored + [Finalize] + [CloseVideoEncoder], PostBuffer);
  }

  /**
   * After a successful run the register's phase byte reads 3, whatever the
   * shared buffer held before, as long as the buffer has a phase byte.
   */
  lemma RunLeavesPhaseThree(audio: seq<int>, framerate: int, queueSize: nat, sizes: seq<nat>,
                            initial: seq<byte>)
    requires framerate > 0 && |initial| > PhaseIndex
    ensures Replay(initial, RunTrace(audio, framerate, true, queueSize, sizes, |initial|))[PhaseIndex] == 3
  {
    FinishLeavesPhaseThree(initial, [ConfigureVideo, ConfigureAudio]
      + AudioPhase(audio, DrawFrame.Duration) + [Write(PhaseIndex, 1)]
      + VideoPhase(framerate, DrawFrame.Duration)
      + DrainPhase(queueSize, sizes, |initial|));
  }
}
