/** The face-detection plugins (plugins/openvino_face_detection/plugin.py and its earlier
    revision plugins/face_detection/plugin.py): pick the face with the largest box and draw
    its box and the user's name, as the hotkey triggers say. The detector is left out; its
    boxes are an input. */
module Face {
  import opened Common
  import opened Frames
  import Nms
  import Plugins

  /** The name the earlier revision uses when none is given. */
  const DefaultName: string := "Code Ninja"

  /** `box_areas.index(max(box_areas))`: the first box of the largest `box_area`. */
  function Largest(boxes: seq<Nms.Box>): (idx: nat)
    requires |boxes| > 0
    ensures idx < |boxes|
    ensures forall j :: 0 <= j < |boxes| ==> Nms.BoxArea(boxes[j]) <= Nms.BoxArea(boxes[idx])
    ensures forall j :: 0 <= j < idx ==> Nms.BoxArea(boxes[j]) < Nms.BoxArea(boxes[idx])
    decreases |boxes|
  {
    if |boxes| == 1 then 0
    else
      var k := 1 + Largest(boxes[1..]);
      assert forall j :: 1 <= j < |boxes| ==> boxes[j] == boxes[1..][j - 1];
      if Nms.BoxArea(boxes[0]) >= Nms.BoxArea(boxes[k]) then 0 else k
  }

  /** The box annotation of `draw_bbox` at a box's two corners. */
  function BoxOf(b: Nms.Box): Annotation
  {
    BoxMark(b.x1, b.y1, b.x2, b.y2)
  }

  /** The name annotation of `cv2.putText`, anchored at the box's top-left corner. */
  function NameOf(b: Nms.Box, name: string): Annotation
  {
    TextMark(name, b.x1, b.y1)
  }

  /** The drawing step shared by both revisions: with no boxes the frame is untouched;
      otherwise the largest box is drawn if `drawBox`, then the name above it if `drawName`. */
  function Decorate(f: Frame, boxes: seq<Nms.Box>, drawBox: bool, drawName: bool, name: string): (r: Frame)
    ensures |boxes| == 0 ==> r == f
    ensures r == f.(marks := r.marks)
    ensures |r.marks| >= |f.marks| && r.marks[..|f.marks|] == f.marks
    ensures |boxes| > 0 ==>
      var face := boxes[Largest(boxes)];
      var added := r.marks[|f.marks|..];
      && (BoxOf(face) in added <==> drawBox)
      && (NameOf(face, name) in added <==> drawName)
      && |added| == (if drawBox then 1 else 0) + (if drawName then 1 else 0)
      // the box is drawn before the name
      && (drawBox ==> added[0] == BoxOf(face))
  {
    if |boxes| == 0 then f
    else
      var face := boxes[Largest(boxes)];
      var withBox := if drawBox then f.marks + [BoxOf(face)] else f.marks;
      var withName := if drawName then withBox + [NameOf(face, name)] else withBox;
      assert withName[|f.marks|..] ==
        (if drawBox then [BoxOf(face)] else []) + (if drawName then [NameOf(face, name)] else []);
      f.(marks := withName)
  }

  /** `FaceDetection` of the current revision. */
  class FaceDetection {
    const modelDir: string
    const kind: string
    const name: Option<string>

    /** `__init__`: the base constructor, then the name exactly as given (the "Code Ninja"
        branch stores the same value) and the webcam family. */
    constructor(name: Option<string>)
      ensures this.name == name && kind == Webcam && modelDir == Plugins.ModelDir
    {
      modelDir := Plugins.ModelDir;
      if name == Some(DefaultName) {
        this.name := Some(DefaultName);
      } else {
        this.name := name;
      }
      kind := Webcam;
    }

    /** `process(image, detection, trigger)` given the detector's boxes: trigger 0 draws the
        box, trigger 2 the name when the name is truthy; trigger 1 is not read. */
    function Process(f: Frame, boxes: seq<Nms.Box>, trigger: (bool, bool, bool)): (r: Frame)
      ensures |boxes| == 0 ==> r == f
      ensures r == f.(marks := r.marks) && |r.marks| >= |f.marks| && r.marks[..|f.marks|] == f.marks
      ensures |boxes| > 0 ==>
        var face := boxes[Largest(boxes)];
        var added := r.marks[|f.marks|..];
        && (BoxOf(face) in added <==> trigger.0)
        && (Truthy(name) ==> (NameOf(face, name.value) in added <==> trigger.2))
        && (!Truthy(name) ==> forall a :: a in added ==> a.BoxMark?)
        && |added| == (if trigger.0 then 1 else 0) + (if trigger.2 && Truthy(name) then 1 else 0)
        // the box is drawn before the name
        && (trigger.0 ==> added[0] == BoxOf(face))
    {
      Decorate(f, boxes, trigger.0, trigger.2 && Truthy(name), if name.Some? then name.value else "")
    }
  }

  /** Trigger 1 of the current revision changes nothing. */
  lemma ProcessIgnoresSecondTrigger(p: FaceDetection, f: Frame, boxes: seq<Nms.Box>, a: bool, c: bool)
    ensures p.Process(f, boxes, (a, true, c)) == p.Process(f, boxes, (a, false, c))
  {
  }

  /** `FaceDetection` of the earlier revision, whose trigger has two components. */
  class EarlierFaceDetection {
    const modelDir: string
    const name: string

    /** `__init__`: a missing name becomes "Code Ninja"; any other value is kept. */
    constructor(name: Option<string>)
      ensures name.Some? ==> this.name == name.value
      ensures name.None? ==> this.name == DefaultName
      ensures modelDir == Plugins.ModelDir
    {
      modelDir := Plugins.ModelDir;
      if name.Some? {
        this.name := name.value;
      } else {
        this.name := DefaultName;
      }
    }

    /** `process(image, trigger)` given the detector's boxes: trigger 0 draws the box,
        trigger 1 the name when it is not empty. */
    function Process(f: Frame, boxes: seq<Nms.Box>, trigger: (bool, bool)): (r: Frame)
      ensures |boxes| == 0 ==> r == f
      ensures r == f.(marks := r.marks) && |r.marks| >= |f.marks| && r.marks[..|f.marks|] == f.marks
      ensures |boxes| > 0 ==>
        var face := boxes[Largest(boxes)];
        var added := r.marks[|f.marks|..];
        && (BoxOf(face) in added <==> trigger.0)
        && (name != "" ==> (NameOf(face, name) in added <==> trigger.1))
        && (name == "" ==> forall a :: a in added ==> a.BoxMark?)
        && |added| == (if trigger.0 then 1 else 0) + (if trigger.1 && name != "" then 1 else 0)
        // the box is drawn before the name
        && (trigger.0 ==> added[0] == BoxOf(face))
    {
      Decorate(f, boxes, trigger.0, trigger.1 && name != "", name)
    }
  }

  /** A plugin built without a name always draws "Code Ninja" when trigger 1 is set. */
  lemma EarlierDefaultNameDrawn(p: EarlierFaceDetection, f: Frame, boxes: seq<Nms.Box>)
    requires p.name == DefaultName && |boxes| > 0
    ensures NameOf(boxes[Largest(boxes)], DefaultName) in p.Process(f, boxes, (false, true)).marks
  {
    var r := p.Process(f, boxes, (false, true));
    assert r.marks == f.marks + r.marks[|f.marks|..];
  }
}
