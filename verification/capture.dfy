/** The two capture backends of utils.py: a webcam read through OpenCV and an OAK device
    whose frames come from a plugin-supplied acquisition function. */
module Capture {
  import opened Common
  import opened Frames

  /** What the camera delivers for one read: the `grabbed` flag of `cv2.VideoCapture.read`,
      the raw image, and the detections waiting in the accelerator's queue (if any). */
  datatype RawFrame = RawFrame(grabbed: bool, image: Frame, detections: Option<seq<Detection>>)

  /** A plugin's acquisition strategy on an OAK device. */
  type AcquireFn = RawFrame -> Result<Acquired>

  /** `VideoCapture`: width and height are the camera's, capped at the ceiling. */
  class VideoCapture {
    const path: string
    const width: nat
    const height: nat
    var released: bool

    constructor (path: string, camWidth: nat, camHeight: nat)
      ensures this.path == path && !released
      ensures width <= MaxWidth && width <= camWidth && (width == camWidth || width == MaxWidth)
      ensures height <= MaxHeight && height <= camHeight && (height == camHeight || height == MaxHeight)
    {
      this.path := path;
      width := Min(camWidth, MaxWidth);
      height := Min(camHeight, MaxHeight);
      released := false;
    }

    /** `get_frame`: a failed grab raises RuntimeError; otherwise the size-corrected frame,
        with no detections. */
    method GetFrame(raw: RawFrame) returns (r: Result<Acquired>)
      ensures r.Err? <==> !raw.grabbed
      ensures r.Err? ==> r.error == RuntimeError
      ensures r.Ok? ==> r.value.frame == CorrectImgSize(raw.image) && r.value.detections == None
    {
      if !raw.grabbed {
        return Err(RuntimeError);
      }
      var frame := CorrectImgSize(raw.image);
      r := Ok(Acquired(frame, None));
    }

    /** `__exit__`: release the camera. */
    method Release()
      modifies this
      ensures released
    {
      released := true;
    }
  }

  /** `DepthaiCapture`: always declares the ceiling as its size; frames come from the
      acquisition function bound by `Setup`. */
  class DepthaiCapture {
    const mxid: string
    const width: nat
    const height: nat
    var acquisition: Option<AcquireFn>
    var setupRuns: nat
    var closed: bool

    constructor (mxid: string)
      ensures this.mxid == mxid
      ensures width == MaxWidth && height == MaxHeight
      ensures acquisition == None && setupRuns == 0 && !closed
    {
      this.mxid := mxid;
      width := MaxWidth;
      height := MaxHeight;
      acquisition := None;
      setupRuns := 0;
      closed := false;
    }

    /** `setup`: run the plugin's device setup once, then bind its acquisition function. */
    method Setup(acquire: AcquireFn)
      modifies this
      ensures acquisition == Some(acquire) && setupRuns == old(setupRuns) + 1
      ensures closed == old(closed)
    {
      setupRuns := setupRuns + 1;
      acquisition := Some(acquire);
    }

    /** `get_frame`: the bound acquisition's frame, size-corrected, with its detections.
        Before `Setup` there is no `acquisition` attribute (AttributeError). */
    method GetFrame(raw: RawFrame) returns (r: Result<Acquired>)
      ensures acquisition.None? ==> r == Err(AttributeError)
      ensures acquisition.Some? && acquisition.value(raw).Err? ==> r == acquisition.value(raw)
      ensures acquisition.Some? && acquisition.value(raw).Ok? ==>
        r.Ok? && r.value.frame == CorrectImgSize(acquisition.value(raw).value.frame)
        && r.value.detections == acquisition.value(raw).value.detections
    {
      if acquisition.None? {
        return Err(AttributeError);
      }
      var got := acquisition.value(raw);
      if got.Err? {
        return got;
      }
      r := Ok(Acquired(CorrectImgSize(got.value.frame), got.value.detections));
    }

    /** `__exit__`: close the device. */
    method Close()
      modifies this
      ensures closed && acquisition == old(acquisition) && setupRuns == old(setupRuns)
    {
      closed := true;
    }
  }
}
