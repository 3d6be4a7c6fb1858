/**
 * What the worker's message handler in app/worker.ts does, stated as pure
 * functions: which audio units it encodes, how many video frames it renders
 * and at which timestamps, the progress values it stores, and the whole
 * sequence of observable steps of one run as a trace of events.
 *
 * Timestamps are microseconds.  The handler's arithmetic is on JavaScript
 * numbers; here it is exact (integers and reals).
 */
module WorkerSpec {
  import opened Wrappers
  import opened Progress
  import DrawFrame

  /** A VideoFrame: its timestamp and the canvas's `picture` (the timestamp of the last draw) when it was built. */
  datatype VideoFrame = VideoFrame(timestamp: real, image: Option<real>)

  /** One observable step of the handler. */
  datatype Event =
    | ConfigureVideo                      // encoder.configure
    | ConfigureAudio                      // audioEncoder.configure
    | ReadAudio                           // reader.read()
    | EncodeAudio(chunkTime: int)         // audioEncoder.encode(chunk)
    | CloseAudio(chunkTime: int)          // chunk.close()
    | Draw(timestamp: real)               // drawFrame(timestamp)
    | NewFrame(frame: VideoFrame)         // new VideoFrame(canvas, { timestamp })
    | EncodeVideo(frame: VideoFrame)      // encoder.encode(frame)
    | CloseFrame(frame: VideoFrame)       // frame.close()
    | AwaitDequeue                        // one 'dequeue' event awaited
    | Write(index: nat, value: byte)      // loadingArray[index] = value
    | AddDequeueListener                  // the drain listener is added
    | RemoveDequeueListener               // the drain listener removes itself
    | Flush                               // encoder.flush()
    | Finalize                            // muxer.finalize()
    | CloseVideoEncoder                   // encoder.close()
    | PostBuffer                          // self.postMessage(buffer, transfer)

  // ---------------------------------------------------------------------------
  // Audio: the kept prefix of the stream

  /** The units of `ts`, up to the first one whose offset from `epoch` exceeds `duration`. */
  function KeptFrom(ts: seq<int>, epoch: int, duration: int): (kept: seq<int>)
    ensures kept <= ts
    ensures forall i :: 0 <= i < |kept| ==> kept[i] - epoch <= duration
    ensures |kept| < |ts| ==> ts[|kept|] - epoch > duration
  {
    if ts == [] || ts[0] - epoch > duration then []
    else [ts[0]] + KeptFrom(ts[1..], epoch, duration)
  }

  /**
   * The audio units the handler encodes, given the timestamps the stream
   * yields before it ends: the epoch is the first unit's timestamp, and the
   * loop stops at the first unit whose offset is greater than the duration.
   */
  function AudioKept(ts: seq<int>, duration: int): (kept: seq<int>)
    ensures kept <= ts
    ensures forall i :: 0 <= i < |kept| ==> kept[i] - ts[0] <= duration
    ensures |kept| < |ts| ==> ts[|kept|] - ts[0] > duration
  {
    if ts == [] then [] else KeptFrom(ts, ts[0], duration)
  }

  /**
   * The kept prefix is the only prefix of that shape: a prefix of length `k`
   * whose units are all within the duration and that ends either with the
   * stream or just before a unit beyond it is exactly AudioKept.
   */
  lemma AudioKeptUnique(ts: seq<int>, duration: int, k: nat)
    requires k <= |ts|
    requires forall i :: 0 <= i < k ==> ts[i] - ts[0] <= duration
    requires k == |ts| || ts[k] - ts[0] > duration
    ensures AudioKept(ts, duration) == ts[..k]
  {
  }

  /**
   * The progress byte stored after encoding the unit at `timestamp`: 0 at the
   * first unit, 255 from the end of the duration on.
   */
  function AudioProgress(timestamp: int, epoch: int, duration: int): (b: byte)
    requires duration > 0
    ensures timestamp <= epoch ==> b == 0
    ensures timestamp - epoch >= duration ==> b == 255
  {
    var offset := timestamp - epoch;
    assert offset >= duration ==> offset * 255 >= duration * 255;
    assert offset >= duration ==> (offset * 255) as real / duration as real >= 255.0;
    ToUint8Clamp((offset * 255) as real / duration as real)
  }

  // ---------------------------------------------------------------------------
  // Video: frame count and frame timestamps

  /** The number of frames the video loop renders: indices 0..floor(duration·framerate/1e6). */
  function FrameCount(duration: int, framerate: int): (n: nat)
    requires duration >= 0 && framerate > 0
    ensures n >= 1
  {
    duration * framerate / 1_000_000 + 1
  }

  /**
   * The loop test `frameNo <= duration * framerate / 1_000_000`, on exact
   * numbers, holds exactly for the first FrameCount indices.
   */
  lemma FrameLoopBound(frameNo: nat, duration: int, framerate: int)
    requires duration >= 0 && framerate > 0
    ensures frameNo as real <= (duration * framerate) as real / 1_000_000.0
            <==> frameNo < FrameCount(duration, framerate)
  {
    var n := duration * framerate;
    assert frameNo as real <= n as real / 1_000_000.0 <==> frameNo * 1_000_000 <= n;
  }

  /** The timestamp of frame `frameNo`, in microseconds: frame 0 at 0, never negative. */
  function FrameTimestamp(frameNo: nat, framerate: int): (t: real)
    requires framerate > 0
    ensures t >= 0.0
    ensures frameNo == 0 <==> t == 0.0
  {
    (frameNo * 1_000_000) as real / framerate as real
  }

  /** The frames the video loop encodes, one per index below `n`. */
  function RenderedFrames(n: nat, framerate: int): (frames: seq<VideoFrame>)
    requires framerate > 0
    ensures |frames| == n
  {
    if n == 0 then []
    else
      var t := FrameTimestamp(n - 1, framerate);
      RenderedFrames(n - 1, framerate) + [VideoFrame(t, Some(t))]
  }

  /** Frame `i` is stamped with its own timestamp and built from the canvas as drawn by the call at that timestamp. */
  lemma {:induction false} RenderedFramesShowTheirTimestamps(n: nat, framerate: int)
    requires framerate > 0
    ensures forall i :: 0 <= i < n ==>
      var t := FrameTimestamp(i, framerate);
      RenderedFrames(n, framerate)[i] == VideoFrame(t, Some(t))
  {
    if n > 0 {
      RenderedFramesShowTheirTimestamps(n - 1, framerate);
      var earlier := RenderedFrames(n - 1, framerate);
      var t := FrameTimestamp(n - 1, framerate);
      forall i | 0 <= i < n - 1
        ensures (earlier + [VideoFrame(t, Some(t))])[i] == earlier[i]
      {
      }
    }
  }

  /** The progress byte stored after frame `frameNo`: 0 at frame 0, 255 from the end of the duration on. */
  function VideoProgress(frameNo: nat, framerate: int, duration: int): (b: byte)
    requires framerate > 0 && duration > 0
    ensures frameNo == 0 ==> b == 0
    ensures FrameTimestamp(frameNo, framerate) >= duration as real ==> b == 255
  {
    ToUint8Clamp(FrameTimestamp(frameNo, framerate) * 255.0 / duration as real)
  }

  /** The progress bytes the video loop stores, one per frame below `n`. */
  function ProgressBytes(n: nat, framerate: int, duration: int): (bytes: seq<byte>)
    requires framerate > 0 && duration > 0
    ensures |bytes| == n
  {
    if n == 0 then [] else ProgressBytes(n - 1, framerate, duration) + [VideoProgress(n - 1, framerate, duration)]
  }

  /** The `i`-th progress byte is the one stored after frame `i`. */
  lemma {:induction false} ProgressBytesInFrameOrder(n: nat, framerate: int, duration: int)
    requires framerate > 0 && duration > 0
    ensures forall i :: 0 <= i < n ==> ProgressBytes(n, framerate, duration)[i] == VideoProgress(i, framerate, duration)
  {
    if n > 0 {
      ProgressBytesInFrameOrder(n - 1, framerate, duration);
      var earlier := ProgressBytes(n - 1, framerate, duration);
      forall i | 0 <= i < n - 1
        ensures (earlier + [VideoProgress(n - 1, framerate, duration)])[i] == earlier[i]
      {
      }
    }
  }

  // ---------------------------------------------------------------------------
  // Drain: progress while the video encoder flushes

  /**
   * The progress byte the drain listener stores when the encoder queue holds
   * `size` units, `queueSize` having been captured when draining began.  With
   * `queueSize` zero the quotient is -Infinity in JavaScript, which stores 0.
   */
  function DrainProgress(queueSize: nat, size: nat): (b: byte)
    ensures queueSize == 0 || size >= queueSize ==> b == 0
    ensures queueSize > 0 && size == 0 ==> b == 255
  {
    if queueSize == 0 then 0
    else ToUint8Clamp(((queueSize - size) * 255) as real / queueSize as real)
  }

  // ---------------------------------------------------------------------------
  // Traces

  /** The steps for an audio unit within the duration, once it has been read. */
  function UnitEvents(timestamp: int, epoch: int, duration: int): seq<Event>
    requires duration > 0
  {
    [EncodeAudio(timestamp), CloseAudio(timestamp),
     Write(ProgressIndex, AudioProgress(timestamp, epoch, duration))]
  }

  function UnitsEvents(units: seq<int>, epoch: int, duration: int): seq<Event>
    requires duration > 0
  {
    if units == [] then []
    else UnitsEvents(units[..|units| - 1], epoch, duration)
         + [ReadAudio] + UnitEvents(units[|units| - 1], epoch, duration)
  }

  /** The audio loop: every kept unit, then the read that ends the loop. */
  function AudioPhase(ts: seq<int>, duration: int): seq<Event>
    requires duration > 0
  {
    (if ts == [] then [] else UnitsEvents(AudioKept(ts, duration), ts[0], duration)) + [ReadAudio]
  }

  /** One more unit of the loop, after the events `done`. */
  lemma UnitsEventsStep(units: seq<int>, k: nat, epoch: int, duration: int, done: seq<Event>)
    requires k < |units| && duration > 0
    ensures done + UnitsEvents(units[..k + 1], epoch, duration)
            == done + UnitsEvents(units[..k], epoch, duration) + [ReadAudio] + UnitEvents(units[k], epoch, duration)
  {
    assert units[..k + 1][..k] == units[..k];
  }

  /** The audio loop ends after `k` units exactly when AudioKept has `k` units. */
  lemma AudioPhaseEnd(ts: seq<int>, duration: int, k: nat, epoch: int, done: seq<Event>)
    requires k <= |ts| && duration > 0
    requires k > 0 ==> epoch == ts[0]
    requires forall i :: 0 <= i < k ==> ts[i] - ts[0] <= duration
    requires k == |ts| || ts[k] - ts[0] > duration
    ensures done + UnitsEvents(ts[..k], epoch, duration) + [ReadAudio] == done + AudioPhase(ts, duration)
  {
    AudioKeptUnique(ts, duration, k);
    if ts == [] {
      assert ts[..k] == [];
    } else if k == 0 {
      assert false;
    }
  }

  /** The steps for frame `frameNo`: draw, build, encode, close, store progress, await. */
  function FrameEvents(frameNo: nat, framerate: int, duration: int): seq<Event>
    requires framerate > 0 && duration > 0
  {
    var t := FrameTimestamp(frameNo, framerate);
    var frame := VideoFrame(t, Some(t));
    [Draw(t), NewFrame(frame), EncodeVideo(frame), CloseFrame(frame),
     Write(ProgressIndex, VideoProgress(frameNo, framerate, duration)), AwaitDequeue]
  }

  function FramesEvents(n: nat, framerate: int, duration: int): seq<Event>
    requires framerate > 0 && duration > 0
  {
    if n == 0 then []
    else FramesEvents(n - 1, framerate, duration) + FrameEvents(n - 1, framerate, duration)
  }

  /** The video loop. */
  function VideoPhase(framerate: int, duration: int): seq<Event>
    requires framerate > 0 && duration > 0
  {
    FramesEvents(FrameCount(duration, framerate), framerate, duration)
  }

  /**
   * The drain listener's reaction to the 'dequeue' events seen during the
   * flush, given the queue size at each: it removes itself at the first event
   * where the phase byte does not read 2 or the queue is empty, and otherwise
   * stores the drain progress.
   */
  function DrainListen(queueSize: nat, sizes: seq<nat>, phaseIsDraining: bool): (listened: seq<Event>)
    ensures |listened| <= |sizes|
    ensures sizes != [] ==> listened != []
  {
    if sizes == [] then []
    else if !phaseIsDraining || sizes[0] == 0 then [RemoveDequeueListener]
    else [Write(ProgressIndex, DrainProgress(queueSize, sizes[0]))]
         + DrainListen(queueSize, sizes[1..], phaseIsDraining)
  }

  /** How the listener handles the event at index `k`, after the events `done`. */
  lemma DrainListenStep(queueSize: nat, sizes: seq<nat>, k: nat, phaseIsDraining: bool, done: seq<Event>)
    requires k < |sizes|
    ensures done + DrainListen(queueSize, sizes[k..], phaseIsDraining)
            == if !phaseIsDraining || sizes[k] == 0 then done + [RemoveDequeueListener]
               else done + [Write(ProgressIndex, DrainProgress(queueSize, sizes[k]))]
                    + DrainListen(queueSize, sizes[k + 1..], phaseIsDraining)
  {
    assert sizes[k..][1..] == sizes[k + 1..];
  }

  /**
   * The drain phase on a register of `registerLength` bytes.  Byte 1 reads
   * back 2 exactly when the register has a byte 1.
   */
  function DrainPhase(queueSize: nat, sizes: seq<nat>, registerLength: nat): seq<Event>
  {
    [Write(PhaseIndex, 2), AddDequeueListener, Flush]
    + DrainListen(queueSize, sizes, registerLength >= 2)
  }

  /** The steps after the flush completes. */
  function FinishPhase(): seq<Event>
  {
    [Write(PhaseIndex, 3), Finalize, CloseVideoEncoder, PostBuffer]
  }

  /**
   * One run of the handler.  A non-positive framerate is taken to fail
   * before any step, as the video encoder's `configure` throwing.  Otherwise both encoders
   * are configured; if the canvas has no WebGL context, setup throws and the
   * run ends there; otherwise the audio loop, phase 1, the video loop, the
   * drain, and the finish follow.
   */
  function RunTrace(audio: seq<int>, framerate: int, hasWebGL: bool,
                    queueSize: nat, sizes: seq<nat>, registerLength: nat): seq<Event>
  {
    if framerate <= 0 then []
    else if !hasWebGL then [ConfigureVideo, ConfigureAudio]
    else [ConfigureVideo, ConfigureAudio]
         + AudioPhase(audio, DrawFrame.Duration) + [Write(PhaseIndex, 1)]
         + VideoPhase(framerate, DrawFrame.Duration)
         + DrainPhase(queueSize, sizes, registerLength)
         + FinishPhase()
  }

  // ---------------------------------------------------------------------------
  // The register as a function of the trace

  /** A store into a Uint8ClampedArray; an index past its end is ignored. */
  function Store(register: seq<byte>, e: Event): (r: seq<byte>)
    ensures |r| == |register|
  {
    if e.Write? && e.index < |register| then register[e.index := e.value] else register
  }

  /** The register after the stores of `trace`, starting from `register`. */
  function Replay(register: seq<byte>, trace: seq<Event>): (r: seq<byte>)
    ensures |r| == |register|
  {
    if trace == [] then register
    else Store(Replay(register, trace[..|trace| - 1]), trace[|trace| - 1])
  }

  // ---------------------------------------------------------------------------
  // Projections of a trace

  /** The values `select` picks out of a trace, in order. */
  function Pick<T>(trace: seq<Event>, select: Event -> Option<T>): seq<T>
  {
    if trace == [] then [] else Picked(select(trace[0])) + Pick(trace[1..], select)
  }

  function Picked<T>(o: Option<T>): seq<T>
  {
    match o case Some(x) => [x] case None => []
  }

  function EncodedAudio(e: Event): Option<int>
  {
    if e.EncodeAudio? then Some(e.chunkTime) else None
  }

  function EncodedVideo(e: Event): Option<VideoFrame>
  {
    if e.EncodeVideo? then Some(e.frame) else None
  }

  function PhaseWrite(e: Event): Option<byte>
  {
    if e.Write? && e.index == PhaseIndex then Some(e.value) else None
  }

  function ProgressWrite(e: Event): Option<byte>
  {
    if e.Write? && e.index == ProgressIndex then Some(e.value) else None
  }
}
