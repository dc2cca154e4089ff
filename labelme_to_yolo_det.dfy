/**
  LabelMe to YOLO detection labels: every shape's first two points are read as
  the corners of a box, converted to a normalised centre and size, and written
  as one five-field line `class cx cy w h`.
 */
module LabelmeToYoloDet {
  import opened Common
  import opened Text
  import opened LabelMe
  import opened YoloRecord

  /** A box in YOLO form: centre and size, each divided by the image dimension. */
  datatype Xywh = Xywh(cx: real, cy: real, w: real, h: real)

  datatype DetError =
    | MissingCorner(name: string)    // `points[1]` raises IndexError
    | UnknownClass(name: string)     // `classes.index(label)` raises ValueError

  function Abs(r: real): real { if r < 0.0 then -r else r }
  function Min(a: real, b: real): real { if a <= b then a else b }
  function Max(a: real, b: real): real { if a <= b then b else a }

  /**
    `xyxy2xywh`: corners to normalised centre and size. Scaled back to
    pixels, the centre is the corners' midpoint and the size their extent,
    whichever corner comes first.
   */
  function Xyxy2Xywh(p1: Point2, p2: Point2, width: int, height: int): (b: Xywh)
    requires width > 0 && height > 0
    ensures b.w >= 0.0 && b.h >= 0.0
    ensures b.cx * (width as real) == (p1.x + p2.x) / 2.0 && b.cy * (height as real) == (p1.y + p2.y) / 2.0
    ensures b.w * (width as real) == Max(p1.x, p2.x) - Min(p1.x, p2.x)
    ensures b.h * (height as real) == Max(p1.y, p2.y) - Min(p1.y, p2.y)
  {
    var w := width as real;
    var h := height as real;
    Xywh((p1.x + p2.x) / 2.0 / w, (p1.y + p2.y) / 2.0 / h, Abs(p2.x - p1.x) / w, Abs(p2.y - p1.y) / h)
  }

  /**
    The normalised box spans exactly the corners' extent on each axis,
    whichever corner comes first, so its size is never negative.
   */
  lemma Xyxy2XywhExtent(p1: Point2, p2: Point2, width: int, height: int)
    requires width > 0 && height > 0
    ensures var b := Xyxy2Xywh(p1, p2, width, height);
      && b.w >= 0.0 && b.h >= 0.0
      && (b.cx - b.w / 2.0) * (width as real) == Min(p1.x, p2.x)
      && (b.cx + b.w / 2.0) * (width as real) == Max(p1.x, p2.x)
      && (b.cy - b.h / 2.0) * (height as real) == Min(p1.y, p2.y)
      && (b.cy + b.h / 2.0) * (height as real) == Max(p1.y, p2.y)
  {
    ExtentOnAxis(p1.x, p2.x, width as real);
    ExtentOnAxis(p1.y, p2.y, height as real);
  }

  lemma ExtentOnAxis(a: real, c: real, d: real)
    requires d > 0.0
    ensures Abs(c - a) / d >= 0.0
    ensures ((a + c) / 2.0 / d - Abs(c - a) / d / 2.0) * d == Min(a, c)
    ensures ((a + c) / 2.0 / d + Abs(c - a) / d / 2.0) * d == Max(a, c)
  {
    var mid := (a + c) / 2.0 / d;
    var half := Abs(c - a) / d / 2.0;
    assert mid * d == (a + c) / 2.0;
    assert half * d == Abs(c - a) / 2.0;
    assert (mid - half) * d == mid * d - half * d;
    assert (mid + half) * d == mid * d + half * d;
  }

  /** Swapping the two corners gives the same box. */
  lemma Xyxy2XywhSwap(p1: Point2, p2: Point2, width: int, height: int)
    requires width > 0 && height > 0
    ensures Xyxy2Xywh(p1, p2, width, height) == Xyxy2Xywh(p2, p1, width, height)
  {
    assert Abs(p2.x - p1.x) == Abs(p1.x - p2.x);
    assert Abs(p2.y - p1.y) == Abs(p1.y - p2.y);
  }

  /** The four values of a detection record, in output order. */
  function BoxValues(b: Xywh): seq<real> {
    [b.cx, b.cy, b.w, b.h]
  }

  /** The line written for one shape, or the error its conversion raises. */
  function DetLine(s: Shape, classes: seq<string>, width: int, height: int, fmt6: real -> string): (r: Result<string, DetError>)
    requires width > 0 && height > 0
    ensures r.Ok? <==> |s.points| >= 2 && s.name in classes
    ensures r.Err? && |s.points| < 2 ==> r.error == MissingCorner(s.name)
    ensures r.Err? && |s.points| >= 2 ==> r.error == UnknownClass(s.name)
  {
    if |s.points| < 2 then Err(MissingCorner(s.name))
    else
      var b := Xyxy2Xywh(s.points[0], s.points[1], width, height);
      match IndexOf(classes, s.name)
      case None => Err(UnknownClass(s.name))
      case Some(id) => Ok(RecordLine(id, BoxValues(b), fmt6))
  }

  /**
    A written detection line has five fields: the first index of the label in
    `classes`, then the formatted centre and size of the first two points.
   */
  lemma DetLineFields(s: Shape, classes: seq<string>, width: int, height: int, fmt6: real -> string)
    requires width > 0 && height > 0
    requires SpaceFree(fmt6)
    requires |s.points| >= 2 && s.name in classes
    ensures var line := DetLine(s, classes, width, height, fmt6).value;
      var b := Xyxy2Xywh(s.points[0], s.points[1], width, height);
      var id := IndexOf(classes, s.name).value;
      classes[id] == s.name && s.name !in classes[..id] &&
      SplitOn(line[..|line| - 1], ' ') ==
        [NatToString(id), fmt6(b.cx), fmt6(b.cy), fmt6(b.w), fmt6(b.h)]
  {
    var b := Xyxy2Xywh(s.points[0], s.points[1], width, height);
    var id := IndexOf(classes, s.name).value;
    RecordLineFields(id, BoxValues(b), fmt6);
  }

  /** Shape `k` is the first that fails, with error `e`. */
  predicate FirstFailure(shapes: seq<Shape>, classes: seq<string>, width: int, height: int, fmt6: real -> string, k: nat, e: DetError)
    requires width > 0 && height > 0
    requires k < |shapes|
  {
    && DetLine(shapes[k], classes, width, height, fmt6) == Err(e)
    && forall j :: 0 <= j < k ==> DetLine(shapes[j], classes, width, height, fmt6).Ok?
  }

  /**
    `convert_labelme_to_yolo`: one line per shape, in document order; the
    first shape that cannot be converted decides the error.
   */
  method ConvertLabelmeToYolo(shapes: seq<Shape>, classes: seq<string>, width: int, height: int, fmt6: real -> string)
      returns (r: Result<seq<string>, DetError>)
    requires width > 0 && height > 0
    ensures r.Ok? <==> forall k :: 0 <= k < |shapes| ==> DetLine(shapes[k], classes, width, height, fmt6).Ok?
    ensures r.Ok? ==> |r.value| == |shapes|
    ensures r.Ok? ==> forall k :: 0 <= k < |shapes| ==>
      r.value[k] == DetLine(shapes[k], classes, width, height, fmt6).value
    ensures r.Err? ==> exists k :: 0 <= k < |shapes| && FirstFailure(shapes, classes, width, height, fmt6, k, r.error)
  {
    var lines: seq<string> := [];
    for i := 0 to |shapes|
      invariant |lines| == i
      invariant forall k :: 0 <= k < i ==> DetLine(shapes[k], classes, width, height, fmt6).Ok?
      invariant forall k :: 0 <= k < i ==> lines[k] == DetLine(shapes[k], classes, width, height, fmt6).value
    {
      var line := DetLine(shapes[i], classes, width, height, fmt6);
      if line.Err? {
        assert FirstFailure(shapes, classes, width, height, fmt6, i, line.error);
        return Err(line.error);
      }
      lines := lines + [line.value];
    }
    return Ok(lines);
  }
}
