/**
 * Reading a video into a list of frames and writing a list of frames out, over an
 * abstract capture device and writer. A frame is its shape; pixel content plays no
 * part in either operation.
 */
module VideoUtils {
  import opened Wrappers

  /** A decoded frame, as far as these operations look at it: `shape[:2]`. */
  datatype Frame = Frame(height: nat, width: nat)

  /** The exceptions the two operations raise, with their messages. */
  datatype VideoError =
    | FileNotFound(message: string)
    | ValueError(message: string)
    | IOError(message: string)

  /**
   * What the capture device makes of a path: whether it opens, and what successive
   * `read()` calls return (a frame, or a failed read). Reads past the end fail.
   */
  datatype VideoSource = VideoSource(opens: bool, stream: seq<Option<Frame>>)

  // ---------------------------------------------------------------- read_video

  /** The frames a read loop collects: every successful read up to the first failure. */
  function FramesUntilFailure(stream: seq<Option<Frame>>): (frames: seq<Frame>)
    ensures |frames| <= |stream|
    ensures forall i :: 0 <= i < |frames| ==> stream[i] == Some(frames[i])
    ensures |frames| < |stream| ==> stream[|frames|].None?
  {
    if stream == [] || stream[0].None? then []
    else
      var rest := FramesUntilFailure(stream[1..]);
      assert forall i :: 1 <= i <= |rest| ==> stream[i] == stream[1..][i - 1];
      [stream[0].value] + rest
  }

  /** The frames are fixed by the stream: any prefix of successful stream ended by a failure or the end is the answer. */
  lemma {:induction false} FramesUntilFailureUnique(stream: seq<Option<Frame>>, frames: seq<Frame>)
    requires |frames| <= |stream|
    requires forall i :: 0 <= i < |frames| ==> stream[i] == Some(frames[i])
    requires |frames| < |stream| ==> stream[|frames|].None?
    ensures FramesUntilFailure(stream) == frames
  {
    if frames != [] {
      assert forall i :: 0 <= i < |frames| - 1 ==> stream[1..][i] == Some(frames[1..][i]);
      FramesUntilFailureUnique(stream[1..], frames[1..]);
      assert frames == [frames[0]] + frames[1..];
    }
  }

  /** `read_video`: the frames, or `FileNotFoundError` when the capture does not open, or `ValueError` when no frame was read. */
  function ReadVideoResult(path: string, src: VideoSource): (r: Result<seq<Frame>, VideoError>)
    ensures r.Ok? ==> r.value != []
  {
    if !src.opens then Err(FileNotFound("Cannot open video: " + path))
    else
      var frames := FramesUntilFailure(src.stream);
      if frames == [] then Err(ValueError("No frames read from " + path + " (file may be empty or corrupt)"))
      else Ok(frames)
  }

  /** `read_video` fails with `ValueError` exactly when the capture opens and its first read fails. */
  lemma ReadVideoEmpty(path: string, src: VideoSource)
    ensures ReadVideoResult(path, src).Err? && ReadVideoResult(path, src).error.ValueError?
        <==> src.opens && (src.stream == [] || src.stream[0].None?)
  {
  }

  /** A capture device opened on a source, reading it front to back. */
  class Capture {
    const isOpen: bool
    const stream: seq<Option<Frame>>
    var position: nat
    var released: bool

    constructor(src: VideoSource)
      ensures isOpen == src.opens && stream == src.stream
      ensures position == 0 && !released
    {
      isOpen := src.opens;
      stream := src.stream;
      position := 0;
      released := false;
    }

    /** `cap.read()`: the next frame, or a failure at a failed read or past the end. */
    method Read() returns (ret: bool, frame: Option<Frame>)
      modifies this
      ensures ret <==> frame.Some?
      ensures ret <==> old(position) < |stream| && stream[old(position)].Some?
      ensures ret ==> frame == stream[old(position)] && position == old(position) + 1
      ensures !ret ==> position == old(position)
      ensures released == old(released)
    {
      if position < |stream| && stream[position].Some? {
        ret, frame := true, stream[position];
        position := position + 1;
      } else {
        ret, frame := false, None;
      }
    }

    method Release()
      modifies this
      ensures released && position == old(position)
    {
      released := true;
    }
  }

  /** `read_video` over the capture device: read until a read fails, release, refuse an empty result. */
  method ReadVideo(path: string, src: VideoSource) returns (r: Result<seq<Frame>, VideoError>)
    ensures r == ReadVideoResult(path, src)
  {
    var cap := new Capture(src);
    if !cap.isOpen {
      return Err(FileNotFound("Cannot open video: " + path));
    }
    var frames: seq<Frame> := [];
    while true
      invariant cap.stream == src.stream && cap.position <= |cap.stream|
      invariant FramesUntilFailure(cap.stream) == frames + FramesUntilFailure(cap.stream[cap.position..])
      decreases |cap.stream| - cap.position
    {
      var position := cap.position;
      var ret, frame := cap.Read();
      if !ret {
        assert FramesUntilFailure(cap.stream[position..]) == [];
        assert frames + [] == frames;
        assert frames == FramesUntilFailure(src.stream);
        break;
      }
      assert cap.stream[position..][1..] == cap.stream[cap.position..];
      frames := frames + [frame.value];
    }
    cap.Release();
    if frames == [] {
      return Err(ValueError("No frames read from " + path + " (file may be empty or corrupt)"));
    }
    r := Ok(frames);
  }

  // ---------------------------------------------------------------- save_video

  /** The index of the first frame whose shape is not `(h, w)`. */
  function FirstMismatch(frames: seq<Frame>, h: nat, w: nat): (k: Option<nat>)
    ensures k.None? <==> forall i :: 0 <= i < |frames| ==> frames[i] == Frame(h, w)
    ensures k.Some? ==> k.value < |frames| && frames[k.value] != Frame(h, w)
                        && forall i :: 0 <= i < k.value ==> frames[i] == Frame(h, w)
  {
    if frames == [] then None
    else if frames[0] != Frame(h, w) then Some(0)
    else
      var k := FirstMismatch(frames[1..], h, w);
      assert forall i :: 1 <= i < |frames| ==> frames[i] == frames[1..][i - 1];
      if k.Some? then Some(k.value + 1) else None
  }

  /** How `save_video` ends: the three `raise`s, in the order the code reaches them. */
  function SaveVideoOutcome(frames: seq<Frame>, path: string, writerOpens: bool): (o: Outcome<VideoError>)
    ensures frames == [] ==> o.Fail? && o.error.ValueError?
    ensures (o.Fail? && o.error.IOError?) <==> frames != [] && !writerOpens
  {
    if frames == [] then Fail(ValueError("No frames supplied to save_video()"))
    else if !writerOpens then Fail(IOError("Could not open VideoWriter for " + path))
    else if FirstMismatch(frames, frames[0].height, frames[0].width).Some? then
      Fail(ValueError("All frames must have the same resolution"))
    else Pass
  }

  /** The frames that reach the writer: those before the first of another resolution. */
  function FramesWritten(frames: seq<Frame>, writerOpens: bool): (written: seq<Frame>)
    ensures written <= frames
    ensures forall i :: 0 <= i < |written| ==> written[i] == frames[0]
  {
    if frames == [] || !writerOpens then []
    else match FirstMismatch(frames, frames[0].height, frames[0].width)
      case Some(k) => frames[..k]
      case None => frames
  }

  /** `save_video` succeeds exactly when there are frames, the writer opens and all frames share the first one's resolution. */
  lemma SaveVideoSucceeds(frames: seq<Frame>, path: string, writerOpens: bool)
    ensures SaveVideoOutcome(frames, path, writerOpens).Pass? <==>
      frames != [] && writerOpens && forall i :: 0 <= i < |frames| ==> frames[i] == frames[0]
  {
    if frames != [] {
      var k := FirstMismatch(frames, frames[0].height, frames[0].width);
      assert frames[0] == Frame(frames[0].height, frames[0].width);
    }
  }

  /**
   * The writer receives all of the input on success, and on a resolution error at least
   * the first frame but never the offending one.
   */
  lemma FramesWrittenPrefix(frames: seq<Frame>, path: string, writerOpens: bool)
    ensures var written := FramesWritten(frames, writerOpens);
      (SaveVideoOutcome(frames, path, writerOpens).Pass? ==> written == frames)
      && (SaveVideoOutcome(frames, path, writerOpens) == Fail(ValueError("All frames must have the same resolution"))
          ==> 1 <= |written| < |frames| && frames[|written|] != frames[0])
  {
    if frames != [] && writerOpens {
      assert frames[0] == Frame(frames[0].height, frames[0].width);
    }
  }

  /** A video writer: its settings are fixed when it is opened; it collects the frames written to it. */
  class VideoWriter {
    const path: string
    const fourcc: string
    const fps: nat
    const width: nat
    const height: nat
    const isOpen: bool
    var written: seq<Frame>
    var released: bool

    constructor(path: string, fourcc: string, fps: nat, width: nat, height: nat, opens: bool)
      ensures this.path == path && this.fourcc == fourcc && this.fps == fps
      ensures this.width == width && this.height == height && this.isOpen == opens
      ensures written == [] && !released
    {
      this.path := path;
      this.fourcc := fourcc;
      this.fps := fps;
      this.width := width;
      this.height := height;
      this.isOpen := opens;
      written := [];
      released := false;
    }

    method Write(frame: Frame)
      modifies this
      ensures written == old(written) + [frame] && released == old(released)
    {
      written := written + [frame];
    }

    method Release()
      modifies this
      ensures released && written == old(written)
    {
      released := true;
    }
  }

  /**
   * `save_video`: the outcome, and the writer it opened (none when there were no frames),
   * set up for MJPG at 24 fps at the first frame's size, holding the frames written and
   * released only when every frame was written.
   */
  method SaveVideo(frames: seq<Frame>, path: string, writerOpens: bool) returns (r: Outcome<VideoError>, out: VideoWriter?)
    ensures r == SaveVideoOutcome(frames, path, writerOpens)
    ensures out == null <==> frames == []
    ensures out != null ==>
      out.path == path && out.fourcc == "MJPG" && out.fps == 24
      && out.width == frames[0].width && out.height == frames[0].height
      && out.written == FramesWritten(frames, writerOpens) && out.released == r.Pass?
  {
    if frames == [] {
      return Fail(ValueError("No frames supplied to save_video()")), null;
    }
    var h, w := frames[0].height, frames[0].width;
    out := new VideoWriter(path, "MJPG", 24, w, h, writerOpens);
    if !out.isOpen {
      return Fail(IOError("Could not open VideoWriter for " + path)), out;
    }
    var i := 0;
    while i < |frames|
      invariant 0 <= i <= |frames|
      invariant out.written == frames[..i] && !out.released
      invariant forall j :: 0 <= j < i ==> frames[j] == Frame(h, w)
    {
      if frames[i] != Frame(h, w) {
        assert FirstMismatch(frames, h, w) == Some(i);
        return Fail(ValueError("All frames must have the same resolution")), out;
      }
      out.Write(frames[i]);
      assert frames[..i + 1] == frames[..i] + [frames[i]];
      i := i + 1;
    }
    assert frames[..i] == frames;
    out.Release();
    r := Pass;
  }
}
