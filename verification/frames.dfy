/** Frames as abstract records: the pixel buffer is replaced by its size, its channel order,
    whether it has been mirrored and the annotations drawn onto it. */
module Frames {
  import opened Common

  datatype ChannelOrder = Bgr | Rgb

  /** What a plugin draws onto a frame: a face box at two corners, or a text at a point. */
  datatype Annotation =
    | BoxMark(x1: int, y1: int, x2: int, y2: int)
    | TextMark(text: string, x: int, y: int)

  datatype Frame = Frame(height: nat, width: nat, order: ChannelOrder, mirrored: bool, marks: seq<Annotation>)

  /** One on-device detection, handed to the plugin unchanged. */
  datatype Detection = Detection(classId: nat, x1: int, y1: int, x2: int, y2: int)

  /** What a capture returns: a frame and, from an accelerator device, its detections. */
  datatype Acquired = Acquired(frame: Frame, detections: Option<seq<Detection>>)

  function Swapped(o: ChannelOrder): ChannelOrder
  {
    if o == Bgr then Rgb else Bgr
  }

  /** `cv2.cvtColor` with RGB2BGR or BGR2RGB: both exchange the first and third channel. */
  function SwapChannels(f: Frame): (r: Frame)
    ensures r.height == f.height && r.width == f.width && r.mirrored == f.mirrored && r.marks == f.marks
    ensures r.order != f.order
  {
    f.(order := Swapped(f.order))
  }

  /** `cv2.flip(frame, 1)`. */
  function FlipHorizontal(f: Frame): (r: Frame)
    ensures r.height == f.height && r.width == f.width && r.order == f.order && r.marks == f.marks
    ensures r.mirrored != f.mirrored
  {
    f.(mirrored := !f.mirrored)
  }

  function Min(a: int, b: int): int
  {
    if a <= b then a else b
  }

  /** `ImageHandler.correct_img_size`: each axis above its ceiling is brought down to the
      ceiling, independently of the other axis and of the aspect ratio. */
  function CorrectImgSize(f: Frame): (r: Frame)
    ensures r.height <= MaxHeight && r.height <= f.height && (r.height == f.height || r.height == MaxHeight)
    ensures r.width <= MaxWidth && r.width <= f.width && (r.width == f.width || r.width == MaxWidth)
    ensures r.order == f.order && r.mirrored == f.mirrored && r.marks == f.marks
    ensures f.height <= MaxHeight && f.width <= MaxWidth ==> r == f
  {
    if f.height > MaxHeight || f.width > MaxWidth then
      f.(height := Min(f.height, MaxHeight), width := Min(f.width, MaxWidth))
    else f
  }

  /** Correcting twice is correcting once. */
  lemma CorrectImgSizeIdempotent(f: Frame)
    ensures CorrectImgSize(CorrectImgSize(f)) == CorrectImgSize(f)
  {
  }
}
