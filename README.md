# Video renderer worker — Dafny model

This project models the core of a browser app that renders a short video in a
Web Worker. When the page posts a configuration, the worker's `message`
handler (`app/worker.ts`) does the following:

- configures a VP9 video encoder and an Opus audio encoder;
- sets up a WebGL frame source on an OffscreenCanvas (`app/draw-frame.ts`), which fixes the duration at 5 s;
- encodes the audio stream's units up to the duration;
- renders and encodes one frame per 1/framerate seconds, inclusive of the last index, waiting for one `dequeue` event per frame;
- drains the encoder while a listener reports its progress;
- finalizes the MP4 muxer and posts the resulting buffer.

Throughout, it reports to the page through a two-byte register over a shared buffer. Byte 0 is the progress (0..255). Byte 1 is the phase: 1 = video, 2 = draining, 3 = done.

The model has these parts:

- `progress.dfy` (`Progress`): the register's element type and the Uint8ClampedArray store conversion. A stored number is clamped to 0..255 and rounded half to even, on exact reals.
- `draw_frame.dfy` (`DrawFrame`): the frame source as a `FrameSource` object.
  - Its `drawer` field is the module-level `draw` callback that `setup` installs and `drawFrame` calls.
  - The canvas is a `Canvas` object whose `picture` records the timestamp of the `drawFrame` call that last drew into it. The drawn image itself does not depend on the timestamp.
- `worker_spec.dfy` (`WorkerSpec`): the handler's behaviour as pure functions:
  - the kept audio prefix;
  - the frame count and frame timestamps;
  - the progress values;
  - the drain listener;
  - the whole run as a trace of observable events (`RunTrace`);
  - the register as the replay of the stores in a trace.
- `worker.dfy` (`Worker`): the handler itself as an `Orchestrator` object.
  - The register is an `array<byte>` that the methods store into in place.
  - Each call the handler makes on the encoders, the stream reader, the video frames, the muxer and the frame source is an event in a ghost `trace`. Constructing those objects, `getReader()` and `getContext('webgl')` are not recorded; the WebGL context's availability is a constant of the canvas.
  - Each method is proved to extend the trace by exactly the events its specification function gives.
  - Each method keeps the invariant that the register holds the replay of the trace's stores.
- `worker_properties.dfy` (`WorkerProperties`): properties of those functions:
  - the audio cutoff, the frame count and timestamps, and monotone progress;
  - when the drain listener removes itself;
  - what a whole run encodes, which phases it writes, and that it posts exactly once, last.

One might expect an audio unit whose offset from the first unit equals the duration to be dropped. `app/worker.ts:78` stops only when the offset is strictly greater than the duration, so such a unit is encoded; `WorkerProperties.AudioBoundaryInclusive` proves this of the model.

## Model

| member | source | states |
|---|---|---|
| Progress.RoundHalfEven | app/worker.ts:81 | the stored integer is within 0.5 of the number assigned, and an exact tie goes to the even neighbour |
| Progress.ToUint8Clamp | app/worker.ts:70 | a store into the Uint8ClampedArray gives 0 for non-positive numbers, 255 for numbers of 255 and above, and the nearest integer in between |
| Progress.RoundHalfEvenMonotone | app/worker.ts:81 | rounding never reverses the order of two numbers |
| Progress.ToUint8ClampMonotone | app/worker.ts:93 | a larger assigned number never stores as a smaller byte |
| Progress.ToUint8ClampExact | app/worker.ts:83 | an integer 0..255 (the phase values 1, 2, 3) is stored unchanged |
| DrawFrame.Canvas.constructor | app/worker.ts:28 | a new OffscreenCanvas of the configured size with nothing drawn |
| DrawFrame.FrameSource.constructor | app/draw-frame.ts:3 | before any setup no drawing callback is installed |
| DrawFrame.FrameSource.Setup | app/draw-frame.ts:10-37 | without a WebGL context it fails with TypeError "WebGL is not supported" and installs nothing; otherwise it installs a drawer for this canvas (replacing any earlier one) and returns 5_000_000 µs |
| DrawFrame.FrameSource.DrawFrame | app/draw-frame.ts:43-46 | with nothing installed it fails with TypeError "Please setup the canvas"; otherwise the installed canvas records that it was last drawn by the call at the given timestamp; the drawer stays installed |
| WorkerSpec.KeptFrom | app/worker.ts:73-82 | the kept units are a prefix of the stream, all within the duration of the epoch, and the first unit not kept (if any) is beyond it |
| WorkerSpec.AudioKept | app/worker.ts:73-82 | with the first unit's timestamp as the epoch: the encoded units are a prefix of the stream, all at offsets no greater than the duration, ending with the stream or just before the first unit beyond it |
| WorkerSpec.AudioKeptUnique | app/worker.ts:73-82 | any prefix with those two properties is exactly the kept prefix |
| WorkerSpec.AudioPhaseEnd | app/worker.ts:73-82 | the loop that has encoded k units and then stops (stream done or unit beyond the duration) has produced exactly the audio phase |
| WorkerSpec.AudioProgress | app/worker.ts:81 | the progress stored after a unit is its offset from the first unit, times 255 over the duration, as stored; it is 0 at the first unit and 255 from the end of the duration on |
| WorkerSpec.UnitEvents | app/worker.ts:79-81 | defines one kept unit's steps after its read: encode, close, store its progress |
| WorkerSpec.UnitsEvents | app/worker.ts:73-81 | defines the steps of a run of kept units: for each, its read and then its steps |
| WorkerSpec.AudioPhase | app/worker.ts:72-82 | defines the audio loop: the steps of every kept unit, with the first unit's timestamp as the epoch, then the read that ends the loop |
| WorkerSpec.FrameCount | app/worker.ts:86-87 | the video loop always renders at least one frame (index 0) |
| WorkerSpec.FrameLoopBound | app/worker.ts:86-87 | the loop test `frameNo <= duration * framerate / 1_000_000` holds exactly for the first FrameCount indices |
| WorkerSpec.FrameTimestamp | app/worker.ts:88 | frame i's timestamp is i·1_000_000/framerate µs: never negative, and 0 exactly for frame 0 |
| WorkerSpec.RenderedFrames | app/worker.ts:87-92 | one encoded frame per rendered index |
| WorkerSpec.RenderedFramesShowTheirTimestamps | app/worker.ts:88-90 | frame i is stamped i·1e6/framerate and is built from the canvas as drawn by the `drawFrame` call at that same timestamp, so the draw at t comes before the frame built at t |
| WorkerSpec.VideoProgress | app/worker.ts:93 | the progress stored after a frame is its timestamp times 255 over the duration, as stored; it is 0 at frame 0 and 255 from the end of the duration on |
| WorkerSpec.ProgressBytes | app/worker.ts:87-93 | one progress byte per rendered frame |
| WorkerSpec.ProgressBytesInFrameOrder | app/worker.ts:93 | the i-th progress byte is timestamp_i·255/duration as stored |
| WorkerSpec.FrameEvents | app/worker.ts:88-94 | defines one frame's steps: draw at its timestamp, build the frame from the canvas, encode, close, store progress, await a dequeue |
| WorkerSpec.FramesEvents | app/worker.ts:87-95 | defines the steps of frames 0..n-1, in index order |
| WorkerSpec.VideoPhase | app/worker.ts:86-95 | defines the video loop: the steps of the first FrameCount frames |
| WorkerSpec.DrainProgress | app/worker.ts:98-101 | the drain progress is (queueSize − size)·255/queueSize as stored: 0 while the queue is as full as when draining began, 255 once it is empty; with a captured queue size of 0 the quotient is −Infinity, which stores 0 |
| WorkerSpec.DrainListen | app/worker.ts:99-102 | the listener's steps over the flush's dequeue events: at most one per event, and at least one when any event arrives |
| WorkerSpec.DrainListenStep | app/worker.ts:99-102 | per `dequeue` event the listener either removes itself (phase byte not 2, or queue empty) or stores the drain progress and stays |
| WorkerSpec.DrainPhase | app/worker.ts:97-103 | defines the drain: phase 2, add the listener, flush, then the listener's steps; the listener sees byte 1 read 2 exactly when the register has a byte 1 |
| WorkerSpec.FinishPhase | app/worker.ts:104-109 | defines the finish: phase 3, finalize, close the video encoder, post the buffer |
| WorkerSpec.RunTrace | app/worker.ts:27-110 | defines a whole run: nothing for a non-positive framerate; configure both encoders and stop when setup finds no WebGL; otherwise audio loop, phase 1, video loop, drain and finish |
| WorkerSpec.Store | app/worker.ts:70 | a store never changes the register's length; a store past its end is ignored |
| WorkerSpec.Replay | app/worker.ts:70 | replaying stores never changes the register's length |
| Worker.Orchestrator.constructor | app/worker.ts:70 | the register is a view over the shared buffer, with its contents as the page left them |
| Worker.Orchestrator.SetByte | app/worker.ts:81 | `loadingArray[i] = v` updates byte i if it exists and nothing otherwise, and records the store |
| Worker.Orchestrator.EncodeUnit | app/worker.ts:79-81 | encode, close, then store the unit's progress |
| Worker.Orchestrator.AudioLoop | app/worker.ts:72-82 | the loop's steps are exactly AudioPhase: every kept unit read, encoded, closed and reported, then the read that ends the loop |
| Worker.Orchestrator.RenderFrame | app/worker.ts:88-94 | draws, builds the frame from the canvas (showing that timestamp), encodes, closes, stores progress, awaits one dequeue |
| Worker.Orchestrator.VideoLoop | app/worker.ts:86-95 | the loop's steps are exactly the FrameCount frames of VideoPhase, in index order |
| Worker.Orchestrator.OnDequeue | app/worker.ts:99-102 | the listener stays installed iff byte 1 reads 2 and the queue is non-empty, storing the drain progress then, and removing itself otherwise |
| Worker.Orchestrator.DeliverDequeues | app/worker.ts:99-103 | the flush's dequeue events produce exactly DrainListen |
| Worker.Orchestrator.Drain | app/worker.ts:97-103 | phase 2, capture the queue size, add the listener, flush, then the listener's steps |
| Worker.Orchestrator.Finish | app/worker.ts:104-109 | phase 3, finalize, close the encoder, post the buffer; byte 1 then reads 3 |
| Worker.Orchestrator.EncodeAll | app/worker.ts:72-109 | audio phase, phase 1, video phase, drain, finish, in that order |
| Worker.Orchestrator.Run | app/worker.ts:27-110 | the handler's steps are exactly RunTrace. A non-positive framerate is taken to make `configure` throw, before any step. Without WebGL the handler rejects with setup's TypeError after configuring. Otherwise it completes, with byte 1 reading 3 |
| WorkerProperties.FirstAudioUnitKept | app/worker.ts:77-81 | the first unit fixes the epoch, is always encoded and reports progress 0 |
| WorkerProperties.AudioStopsAtFirstUnitBeyond | app/worker.ts:78 | no unit at or after one beyond the duration is encoded |
| WorkerProperties.AudioBoundaryInclusive | app/worker.ts:78 | a unit exactly at the duration is encoded; after a unit beyond it, even a unit within it is not |
| WorkerProperties.AudioScenario | app/worker.ts:73-82 | units at offsets 0, 0.5 s, 1.1 s with a 1 s duration: the first two are encoded |
| WorkerProperties.DefaultFrameCount | app/worker.ts:86-87 | with the 5 s setup duration at 24 fps, 121 frames (indices 0..120) are rendered |
| WorkerProperties.OneSecondAtTenFps | app/worker.ts:86-88 | 1 s at 10 fps: 11 frames at 0, 100000, …, 1000000 µs |
| WorkerProperties.FrameTimestampsIncrease | app/worker.ts:88 | frame timestamps start at 0 and strictly increase |
| WorkerProperties.FramesCoverDuration | app/worker.ts:86-88 | every rendered frame lies within the duration and the first index not rendered lies beyond it |
| WorkerProperties.VideoProgressMonotone | app/worker.ts:93 | video progress starts at 0 and never decreases with the frame index |
| WorkerProperties.DrainProgressMonotone | app/worker.ts:98-101 | drain progress is 0 for the captured queue size and grows as the queue empties |
| WorkerProperties.DrainListenerRemoval | app/worker.ts:99-102 | the listener removes itself iff some event finds the phase byte not 2 or the queue empty; before that it only stores progress; it handles no event after removing itself |
| WorkerProperties.UnitsEncoded | app/worker.ts:79 | the audio loop submits exactly the units it keeps, in order |
| WorkerProperties.FramesEncoded | app/worker.ts:89-91 | the video loop submits exactly the rendered frames, in order |
| WorkerProperties.FramesProgress | app/worker.ts:93 | the video loop stores exactly the per-frame progress bytes, in order |
| WorkerProperties.VideoPhaseProgressMonotone | app/worker.ts:87-93 | within the video phase the stored progress bytes are FrameCount many and non-decreasing |
| WorkerProperties.AudioPhasePicks | app/worker.ts:73-82 | the audio phase encodes the kept units, no frame, writes no phase and posts nothing |
| WorkerProperties.VideoPhasePicks | app/worker.ts:86-95 | the video phase encodes the rendered frames, no audio, writes no phase and posts nothing |
| WorkerProperties.DrainPhasePicks | app/worker.ts:97-103 | the drain writes phase 2 only and encodes and posts nothing |
| WorkerProperties.FinishPhasePicks | app/worker.ts:104-109 | the finish writes phase 3 only and encodes nothing |
| WorkerProperties.RunEncodesKeptAudio | app/worker.ts:27-110 | a completed run encodes exactly the kept audio units in stream order; a failed run encodes none |
| WorkerProperties.RunEncodesFrames | app/worker.ts:27-110 | a completed run encodes FrameCount frames, frame i stamped i·1e6/framerate and built from the canvas as drawn at that timestamp; a failed run encodes none |
| WorkerProperties.RunPhases | app/worker.ts:27-110 | a completed run writes the phase byte exactly three times: 1, 2, 3; a failed run never does |
| WorkerProperties.RunPostsOnce | app/worker.ts:105-109 | a completed run posts the buffer exactly once, as its last step; a failed run never posts |
| WorkerProperties.FinishLeavesPhaseThree | app/worker.ts:104 | whatever came before, the finish leaves byte 1 reading 3 |
| WorkerProperties.RunLeavesPhaseThree | app/worker.ts:104 | after a completed run byte 1 of any register of two or more bytes reads 3 |

## Left out

- The WebGL drawing is abstracted to "the canvas was last drawn by the call at this timestamp". The installed `draw` (`app/draw-frame.ts:27-35`) ignores its timestamp and draws the same triangle every time, so this records the order of draws and frames, not images that differ. This covers the shader program, the fetch of the shader sources, the vertex buffer and the draw calls (`app/draw-frame.ts:14-35`). Failures of the fetch or of shader compilation are not modelled.
- The muxer and the encoders' internals are not modelled: the muxer options, codec strings, output callbacks and the chunks they deliver (`app/worker.ts:29-66`). Their `error` callbacks, which throw, are not modelled either.
- Other malformed configurations (a zero width or height, say) and a codec the browser does not support are not modelled. An unsupported codec is reported later, through the encoder's `error` callback. Only the framerate case is modelled, because the model's arithmetic depends on it.
- Worker.Orchestrator.Run: the framerate is taken to be an integer, like the 24 that `app/page.tsx:9` passes. `app/worker.ts:10` declares it a `number`, so the model cannot express a fractional rate such as 29.97.
- Worker.Orchestrator.Run: a non-positive framerate is assumed to fail before any step of the handler, as a TypeError from the video encoder's `configure`. The source does not show where it fails: it may already be `new Muxer` at `app/worker.ts:29`. The error's message is the browser's own; `Worker.InvalidFramerate` stands for it.
- Worker.Orchestrator.Run: the audio stream is given as the sequence of unit timestamps it yields before it ends. Stream read errors and the units' sample data are left out.
- JavaScript numbers are IEEE doubles; the model computes on exact integers and reals. Progress values and frame timestamps can therefore differ in the last rounding bit.
- A VideoFrame's timestamp is an integer in WebCodecs. The model keeps the exact frame timestamp, so the conversion of `frameNo * 1_000_000 / framerate` to an integer is left out.
- Concurrency is not modelled:
  - a second `message` event running a second handler concurrently over the same frame source;
  - the interleaving of `dequeue` events with the main loop;
  - liveness (that `dequeue` events eventually arrive, or that `flush` resolves).
- The sequence of queue sizes seen by the drain listener is a parameter. Which `dequeue` events the encoder fires is the browser's decision.
- The page that posts the configuration and reads the register is not part of this model.
