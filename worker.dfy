/**
 * The 'message' handler of app/worker.ts as an object: one Orchestrator is
 * one invocation of the handler.  Its fields are the handler's state that
 * outlives a single step: the Uint8ClampedArray view over the shared buffer
 * (the progress register) and the frame source module it draws with.  The
 * browser objects (encoders, muxer, stream reader) are not modelled inside;
 * each call on them is an event appended to the ghost `trace`.
 */
module Worker {
  import opened Wrappers
  import opened Progress
  import opened DrawFrame
  import opened WorkerSpec

  /** The message data, without the audio stream and the shared buffer, which are passed apart. */
  datatype Configuration = Configuration(
    audioBitrate: int,
    bitrate: int,
    framerate: int,
    samplerate: int,
    numberOfChannels: int,
    contentType: string,
    width: int,
    height: int)

  /**
   * The error a non-positive framerate is taken to raise before any step
   * (as `encoder.configure` throwing).  The message is the browser's own;
   * this text stands for it.
   */
  const InvalidFramerate: Error := TypeError("invalid framerate")

  /** Regrouping a concatenation after the steps `t`. Sequence bookkeeping only: stated as a lemma so that the solver proves it in a small context. */
  lemma Associate<T>(t: seq<T>, a: seq<T>, b: seq<T>, c: seq<T>, d: seq<T>, e: seq<T>, f: seq<T>)
    ensures t + (a + b + c + d + e + f) == t + a + b + c + d + e + f
  {
  }

  /** Three single steps and then `rest`, after the steps `done`. Sequence bookkeeping only: stated as a lemma so that the solver proves it in a small context. */
  lemma FlushedSteps<T>(done: seq<T>, a: T, b: T, c: T, rest: seq<T>)
    ensures done + [a] + [b] + [c] + rest == done + ([a, b, c] + rest)
  {
    assert [a] + [b] + [c] == [a, b, c];
  }

  /** Six single steps after the steps `done`. Sequence bookkeeping only: stated as a lemma so that the solver proves it in a small context. */
  lemma SixSteps<T>(done: seq<T>, a: T, b: T, c: T, d: T, e: T, f: T)
    ensures done + [a] + [b] + [c] + [d] + [e] + [f] == done + [a, b, c, d, e, f]
  {
    assert [a] + [b] + [c] + [d] + [e] + [f] == [a, b, c, d, e, f];
  }

  class Orchestrator {
    const config: Configuration
    /** `loadingArray`: byte 0 is progress, byte 1 is phase. */
    const loading: array<byte>
    const frameSource: FrameSource
    /** The shared buffer's contents when the handler started. */
    ghost const initial: seq<byte>
    /** The handler's observable steps so far. */
    ghost var trace: seq<Event>

    /** The register holds exactly what the stores in the trace left in it. */
    ghost predicate Valid()
      reads this, loading
    {
      loading[..] == Replay(initial, trace)
    }

    constructor (config: Configuration, sharedBuffer: array<byte>, frameSource: FrameSource)
      ensures Valid() && trace == []
      ensures this.config == config && loading == sharedBuffer && this.frameSource == frameSource
      ensures initial == sharedBuffer[..]
    {
      this.config := config;
      loading := sharedBuffer;
      this.frameSource := frameSource;
      initial := sharedBuffer[..];
      trace := [];
    }

    /** A call on a browser object: recorded, nothing stored. */
    ghost method Emit(e: Event)
      requires Valid() && !e.Write?
      modifies this`trace
      ensures Valid() && trace == old(trace) + [e]
    {
      trace := trace + [e];
      assert trace[..|trace| - 1] == old(trace);
    }

    /** `loadingArray[index] = value`: a store past the end of the array is ignored. */
    method SetByte(index: nat, value: byte)
      requires Valid()
      modifies this`trace, loading
      ensures Valid() && trace == old(trace) + [Write(index, value)]
      ensures loading[..] == if index < loading.Length then old(loading[..])[index := value] else old(loading[..])
    {
      if index < loading.Length {
        loading[index] := value;
      }
      trace := trace + [Write(index, value)];
      assert trace[..|trace| - 1] == old(trace);
    }

    /** The body of the audio loop for a unit within the duration, after it has been read. */
    method EncodeUnit(timestamp: int, offset: int, duration: int)
      requires Valid() && duration > 0
      modifies this`trace, loading
      ensures Valid()
      ensures trace == old(trace) + UnitEvents(timestamp, offset, duration)
    {
      Emit(EncodeAudio(timestamp));
      Emit(CloseAudio(timestamp));
      SetByte(ProgressIndex, AudioProgress(timestamp, offset, duration));
    }

    /**
     * The audio loop: read units until the stream ends or a unit's offset
     * from the first unit exceeds the duration; encode, close and report
     * every unit before that.
     */
    method AudioLoop(audio: seq<int>, duration: int)
      requires Valid() && duration > 0
      modifies this`trace, loading
      ensures Valid()
      ensures trace == old(trace) + AudioPhase(audio, duration)
    {
      var isFirst, offset, k := true, 0, 0;
      ghost var start := old(trace);
      while true
        invariant Valid()
        invariant 0 <= k <= |audio|
        invariant isFirst <==> k == 0
        invariant !isFirst ==> offset == audio[0]
        invariant forall i :: 0 <= i < k ==> audio[i] - audio[0] <= duration
        invariant trace == start + UnitsEvents(audio[..k], offset, duration)
        decreases |audio| - k
      {
        Emit(ReadAudio);
        if k == |audio| {
          AudioPhaseEnd(audio, duration, k, offset, start);
          break;
        }
        var timestamp := audio[k];
        if isFirst {
          offset := timestamp;
        }
        if timestamp - offset > duration {
          AudioPhaseEnd(audio, duration, k, offset, start);
          break;
        }
        EncodeUnit(timestamp, offset, duration);
        UnitsEventsStep(audio, k, offset, duration, start);
        k, isFirst := k + 1, false;
      }
    }

    /**
     * The body of the video loop for frame `frameNo`: draw, build a frame
     * from the canvas, encode it, close it, report progress, and wait for one
     * 'dequeue'.
     */
    method RenderFrame(canvas: Canvas, frameNo: nat, duration: int)
      requires Valid() && duration > 0 && config.framerate > 0
      requires frameSource.drawer == Some(Drawer(canvas))
      modifies this`trace, loading, canvas
      ensures Valid() && frameSource.drawer == old(frameSource.drawer)
      ensures trace == old(trace) + FrameEvents(frameNo, config.framerate, duration)
      ensures canvas.picture == Some(FrameTimestamp(frameNo, config.framerate))
    {
      ghost var start := trace;
      var timestamp := FrameTimestamp(frameNo, config.framerate);
      Emit(Draw(timestamp));
      var drawn := frameSource.DrawFrame(timestamp);
      assert drawn == Pass;
      var frame := VideoFrame(timestamp, canvas.picture);
      Emit(NewFrame(frame));
      Emit(EncodeVideo(frame));
      Emit(CloseFrame(frame));
      var progress := VideoProgress(frameNo, config.framerate, duration);
      SetByte(ProgressIndex, progress);
      Emit(AwaitDequeue);
      SixSteps(start, Draw(timestamp), NewFrame(frame), EncodeVideo(frame), CloseFrame(frame),
               Write(ProgressIndex, progress), AwaitDequeue);
    }

    /**
     * The video loop: for every frame index up to duration·framerate/1e6,
     * draw, build a frame from the canvas, encode it, close it, report
     * progress and wait for one 'dequeue'.
     */
    method VideoLoop(canvas: Canvas, duration: int)
      requires Valid() && duration > 0 && config.framerate > 0
      requires frameSource.drawer == Some(Drawer(canvas))
      modifies this`trace, loading, canvas
      ensures Valid()
      ensures trace == old(trace) + VideoPhase(config.framerate, duration)
    {
      var frames := (duration * config.framerate) as real / 1_000_000.0;
      var frameNo := 0;
      while frameNo as real <= frames
        invariant Valid()
        invariant 0 <= frameNo <= FrameCount(duration, config.framerate)
        invariant trace == old(trace) + FramesEvents(frameNo, config.framerate, duration)
        invariant frameSource.drawer == Some(Drawer(canvas))
        decreases FrameCount(duration, config.framerate) - frameNo
      {
        FrameLoopBound(frameNo, duration, config.framerate);
        RenderFrame(canvas, frameNo, duration);
        frameNo := frameNo + 1;
      }
      FrameLoopBound(frameNo, duration, config.framerate);
    }

    /**
     * The drain listener's body for one 'dequeue' event, the encoder queue
     * holding `size` units: it removes itself if the phase byte does not read
     * 2 or the queue is empty, and otherwise stores the drain progress.
     * `listening` says whether it is still installed afterwards.
     */
    method OnDequeue(queueSize: nat, size: nat) returns (listening: bool)
      requires Valid()
      modifies this`trace, loading
      ensures Valid()
      ensures listening == (loading.Length > PhaseIndex && old(loading[PhaseIndex]) == 2 && size != 0)
      ensures trace == old(trace)
        + if listening then [Write(ProgressIndex, DrainProgress(queueSize, size))] else [RemoveDequeueListener]
      ensures loading.Length > PhaseIndex ==> loading[PhaseIndex] == old(loading[PhaseIndex])
    {
      if loading.Length <= PhaseIndex || loading[PhaseIndex] != 2 || size == 0 {
        Emit(RemoveDequeueListener);
        return false;
      }
      SetByte(ProgressIndex, DrainProgress(queueSize, size));
      listening := true;
    }

    /**
     * The 'dequeue' events seen while the encoder flushes, the queue holding
     * `sizes[i]` units at the i-th, delivered to the drain listener until it
     * removes itself.
     */
    method DeliverDequeues(queueSize: nat, sizes: seq<nat>)
      requires Valid()
      requires loading.Length > PhaseIndex ==> loading[PhaseIndex] == 2
      modifies this`trace, loading
      ensures Valid()
      ensures trace == old(trace) + DrainListen(queueSize, sizes, loading.Length > PhaseIndex)
    {
      ghost var draining := loading.Length > PhaseIndex;
      ghost var all := old(trace) + DrainListen(queueSize, sizes, draining);
      var k, listening := 0, true;
      assert sizes[0..] == sizes;
      while k < |sizes| && listening
        invariant Valid()
        invariant 0 <= k <= |sizes|
        invariant draining ==> loading[PhaseIndex] == 2
        invariant listening ==> trace + DrainListen(queueSize, sizes[k..], draining) == all
        invariant !listening ==> trace == all
        decreases |sizes| - k
      {
        DrainListenStep(queueSize, sizes, k, draining, trace);
        listening := OnDequeue(queueSize, sizes[k]);
        k := k + 1;
      }
      if listening {
        assert sizes[k..] == [];
        assert trace + [] == trace;
      }
    }

    /** Phase 2: capture the queue size, add the drain listener and flush. */
    method Drain(encodeQueueSize: nat, sizes: seq<nat>)
      requires Valid()
      modifies this`trace, loading
      ensures Valid()
      ensures trace == old(trace) + DrainPhase(encodeQueueSize, sizes, loading.Length)
    {
      ghost var start := trace;
      SetByte(PhaseIndex, 2);
      var queueSize := encodeQueueSize;
      Emit(AddDequeueListener);
      Emit(Flush);
      FlushedSteps(start, Write(PhaseIndex, 2), AddDequeueListener, Flush,
                   DrainListen(queueSize, sizes, loading.Length > PhaseIndex));
      DeliverDequeues(queueSize, sizes);
    }

    /** Phase 3, then finalize the muxer, close the video encoder and post the buffer. */
    method Finish()
      requires Valid()
      modifies this`trace, loading
      ensures Valid() && trace == old(trace) + FinishPhase()
      ensures loading.Length > PhaseIndex ==> loading[PhaseIndex] == 3
    {
      SetByte(PhaseIndex, 3);
      Emit(Finalize);
      Emit(CloseVideoEncoder);
      Emit(PostBuffer);
    }

    /** Everything after a successful setup: the audio loop, phase 1, the video loop, the drain and the finish. */
    method EncodeAll(canvas: Canvas, audio: seq<int>, duration: int, encodeQueueSize: nat, sizes: seq<nat>)
      requires Valid() && duration > 0 && config.framerate > 0
      requires frameSource.drawer == Some(Drawer(canvas))
      modifies this`trace, loading, canvas
      ensures Valid()
      ensures trace == old(trace)
        + AudioPhase(audio, duration) + [Write(PhaseIndex, 1)]
        + VideoPhase(config.framerate, duration)
        + DrainPhase(encodeQueueSize, sizes, loading.Length)
        + FinishPhase()
      ensures loading.Length > PhaseIndex ==> loading[PhaseIndex] == 3
    {
      AudioLoop(audio, duration);
      SetByte(PhaseIndex, 1);
      VideoLoop(canvas, duration);
      Drain(encodeQueueSize, sizes);
      Finish();
    }

    /**
     * One invocation of the handler, given the units the audio stream yields,
     * whether the new canvas has a WebGL context, the encoder queue size when
     * draining starts and the queue sizes seen while flushing.
     */
    method Run(audio: seq<int>, hasWebGL: bool, encodeQueueSize: nat, sizes: seq<nat>)
      returns (r: Outcome<Error>)
      requires Valid()
      modifies this`trace, loading, frameSource
      ensures Valid()
      ensures trace == old(trace)
        + RunTrace(audio, config.framerate, hasWebGL, encodeQueueSize, sizes, loading.Length)
      ensures r == if config.framerate <= 0 then Fail(InvalidFramerate)
                   else if hasWebGL then Pass else Fail(NoWebGL)
      ensures r == Pass ==> frameSource.drawer.Some? && fresh(frameSource.drawer.value.canvas)
      ensures r != Pass ==> frameSource.drawer == old(frameSource.drawer)
      ensures r == Pass && loading.Length > PhaseIndex ==> loading[PhaseIndex] == 3
    {
      var canvas := new Canvas(config.width, config.height, hasWebGL);
      if config.framerate <= 0 {
        assert trace + [] == trace;
        return Fail(InvalidFramerate);
      }
      Emit(ConfigureVideo);
      Emit(ConfigureAudio);
      var setup := frameSource.Setup(canvas);
      ghost var before := old(trace);
      assert trace == before + [ConfigureVideo, ConfigureAudio];
      if setup.Failure? {
        return Fail(setup.error);
      }
      EncodeAll(canvas, audio, setup.value, encodeQueueSize, sizes);
      r := Pass;
      Associate(before, [ConfigureVideo, ConfigureAudio], AudioPhase(audio, Duration), [Write(PhaseIndex, 1)],
                VideoPhase(config.framerate, Duration), DrainPhase(encodeQueueSize, sizes, loading.Length),
                FinishPhase());
    }
  }
}
