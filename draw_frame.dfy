/**
 * The frame source of app/draw-frame.ts.  The module keeps one mutable
 * drawing callback, installed by `setup` and called by `drawFrame`; here
 * that module-level state is the `drawer` field of a FrameSource object.
 * The WebGL drawing itself is abstracted: drawing at a timestamp leaves the
 * canvas recording that timestamp.  The installed `draw` ignores its
 * timestamp and draws the same triangle every time, so this records which
 * call last drew into the canvas, not an image that depends on it.
 */
module DrawFrame {
  import opened Wrappers

  /** Length of the rendered video in microseconds, fixed by `setup`. */
  const Duration: int := 5 * 1_000_000

  /** The errors the frame source throws, with their messages. */
  datatype Error = TypeError(message: string)

  const NoWebGL: Error := TypeError("WebGL is not supported")
  const NotSetUp: Error := TypeError("Please setup the canvas")

  /**
   * An OffscreenCanvas.  `picture` is the timestamp of the `drawFrame` call
   * that last drew into it; the image drawn is the same for every timestamp.
   */
  class Canvas {
    const width: int
    const height: int
    /** Whether `getContext('webgl')` yields a context for this canvas. */
    const hasWebGL: bool
    var picture: Option<real>

    constructor (width: int, height: int, hasWebGL: bool)
      ensures this.width == width && this.height == height && this.hasWebGL == hasWebGL
      ensures picture == None
    {
      this.width, this.height, this.hasWebGL := width, height, hasWebGL;
      picture := None;
    }
  }

  /** The drawing callback `setup` installs; it draws into the canvas it was set up with. */
  datatype Drawer = Drawer(canvas: Canvas)

  class FrameSource {
    /** The module-level `draw`; None until a `setup` has succeeded. */
    var drawer: Option<Drawer>

    constructor ()
      ensures drawer == None
    {
      drawer := None;
    }

    /**
     * `setup(canvas)`: fails with a TypeError when the canvas has no WebGL
     * context, before anything is installed; otherwise installs a drawer for
     * this canvas, replacing any earlier one, and returns the duration.
     */
    method Setup(canvas: Canvas) returns (r: Result<int, Error>)
      modifies this
      ensures canvas.hasWebGL ==> r == Success(Duration) && drawer == Some(Drawer(canvas))
      ensures !canvas.hasWebGL ==> r == Failure(NoWebGL) && drawer == old(drawer)
    {
      if !canvas.hasWebGL {
        return Failure(NoWebGL);
      }
      drawer := Some(Drawer(canvas));
      r := Success(Duration);
    }

    /**
     * `drawFrame(timestamp)`: throws while nothing is installed; otherwise
     * calls the installed drawer with the same timestamp, which draws into
     * the drawer's canvas; the canvas records the timestamp of this call.
     * The installed drawer stays.
     */
    method DrawFrame(timestamp: real) returns (r: Outcome<Error>)
      modifies if drawer.Some? then {drawer.value.canvas} else {}
      ensures drawer == old(drawer)
      ensures old(drawer).None? ==> r == Fail(NotSetUp)
      ensures old(drawer).Some? ==> r == Pass && drawer.value.canvas.picture == Some(timestamp)
    {
      if drawer.None? {
        return Fail(NotSetUp);
      }
      drawer.value.canvas.picture := Some(timestamp);
      r := Pass;
    }
  }
}
