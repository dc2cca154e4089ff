/**
  YOLO detection labels back to a LabelMe document: every non-blank line
  `class x y w h` becomes one rectangle shape whose two points are the
  pixel corners of the box.
 */
module YoloDetToLabelme {
  import opened Common
  import opened Text
  import opened LabelMe
  import opened LabelmeToYoloDet

  datatype ConvError =
    | MalformedLine(line: string)    // `map(float, box.split())` does not give five numbers
    | ClassOutOfRange(index: int)    // `classes[int(class_id)]` raises IndexError

  /** One parsed label line: the class id as read by `float`, and the box. */
  datatype YoloBox = YoloBox(classId: real, box: Xywh)

  /**
    `xywh2xyxy` on an already parsed box: the pixel corners. The corners are
    `w * W` apart and centred on `x * W`, so they are ordered whenever the
    size is non-negative.
   */
  function Corners(b: Xywh, width: int, height: int): (c: (Point2, Point2))
    requires width > 0 && height > 0
    ensures c.1.x - c.0.x == b.w * (width as real) && c.1.y - c.0.y == b.h * (height as real)
    ensures (c.0.x + c.1.x) / 2.0 == b.cx * (width as real)
    ensures (c.0.y + c.1.y) / 2.0 == b.cy * (height as real)
    ensures b.w >= 0.0 ==> c.0.x <= c.1.x
    ensures b.h >= 0.0 ==> c.0.y <= c.1.y
  {
    var w := width as real;
    var h := height as real;
    var c := (Point2((b.cx - b.w / 2.0) * w, (b.cy - b.h / 2.0) * h),
              Point2((b.cx + b.w / 2.0) * w, (b.cy + b.h / 2.0) * h));
    CornerSpan(b.cx, b.w, w);
    CornerSpan(b.cy, b.h, h);
    c
  }

  lemma CornerSpan(mid: real, size: real, d: real)
    requires d > 0.0
    ensures (mid + size / 2.0) * d - (mid - size / 2.0) * d == size * d
    ensures ((mid - size / 2.0) * d + (mid + size / 2.0) * d) / 2.0 == mid * d
    ensures size >= 0.0 ==> (mid - size / 2.0) * d <= (mid + size / 2.0) * d
  {
    assert (mid + size / 2.0) * d == mid * d + size / 2.0 * d;
    assert (mid - size / 2.0) * d == mid * d - size / 2.0 * d;
    if size >= 0.0 {
      assert size / 2.0 * d >= 0.0;
    }
  }

  /**
    For corners given in order, `xyxy2xywh` followed by `xywh2xyxy` gives the
    corners back.
   */
  lemma CornersOfXywh(p1: Point2, p2: Point2, width: int, height: int)
    requires width > 0 && height > 0
    requires p1.x <= p2.x && p1.y <= p2.y
    ensures Corners(Xyxy2Xywh(p1, p2, width, height), width, height) == (p1, p2)
  {
    Xyxy2XywhExtent(p1, p2, width, height);
  }

  /**
    For a box of non-negative size, `xywh2xyxy` followed by `xyxy2xywh` gives
    the box back.
   */
  lemma XywhOfCorners(b: Xywh, width: int, height: int)
    requires width > 0 && height > 0
    requires b.w >= 0.0 && b.h >= 0.0
    ensures var c := Corners(b, width, height);
      Xyxy2Xywh(c.0, c.1, width, height) == b
  {
    var c := Corners(b, width, height);
    UnscaleAxis(c.0.x, c.1.x, b.cx, b.w, width as real);
    UnscaleAxis(c.0.y, c.1.y, b.cy, b.h, height as real);
  }

  lemma UnscaleAxis(lo: real, hi: real, mid: real, size: real, d: real)
    requires d > 0.0
    requires hi - lo == size * d && (lo + hi) / 2.0 == mid * d && size >= 0.0
    ensures (lo + hi) / 2.0 / d == mid
    ensures Abs(hi - lo) / d == size
  {
    assert hi - lo >= 0.0;
  }

  /** `int(value)` on a float: truncation toward zero. */
  function Trunc(r: real): (i: int)
    ensures r >= 0.0 ==> 0.0 <= i as real <= r < i as real + 1.0
    ensures r < 0.0 ==> i as real - 1.0 < r <= i as real <= 0.0
  {
    if r >= 0.0 then r.Floor else -((-r).Floor)
  }

  /** `xs[i]` with Python's negative indexing, or None where it raises IndexError. */
  function PyIndex<T>(xs: seq<T>, i: int): (r: Option<T>)
    ensures r.Some? <==> -|xs| <= i < |xs|
    ensures 0 <= i < |xs| ==> r == Some(xs[i])
    ensures -|xs| <= i < 0 ==> r == Some(xs[|xs| + i])
  {
    if 0 <= i < |xs| then Some(xs[i])
    else if -|xs| <= i < 0 then Some(xs[|xs| + i])
    else None
  }

  /** All fields of a line parsed by `parseFloat`, or None if one of them fails. */
  function ParseFields(tokens: seq<string>, parseFloat: string -> Option<real>): (r: Option<seq<real>>)
    ensures r.Some? <==> forall i :: 0 <= i < |tokens| ==> parseFloat(tokens[i]).Some?
    ensures r.Some? ==> |r.value| == |tokens|
    ensures r.Some? ==> forall i :: 0 <= i < |tokens| ==> r.value[i] == parseFloat(tokens[i]).value
  {
    if tokens == [] then Some([])
    else
      match parseFloat(tokens[0])
      case None => None
      case Some(v) =>
        match ParseFields(tokens[1..], parseFloat)
        case None => None
        case Some(rest) => Some([v] + rest)
  }

  /**
    `class_id, x, y, w, h = map(float, box.split())`: the line parses iff it
    has exactly five whitespace-separated fields and each is a number.
   */
  function ParseLine(line: string, parseFloat: string -> Option<real>): (r: Result<YoloBox, ConvError>)
    ensures var tokens := SplitWs(line);
      r.Ok? <==> |tokens| == 5 && forall i :: 0 <= i < 5 ==> parseFloat(tokens[i]).Some?
    ensures r.Ok? ==> var tokens := SplitWs(line);
      r.value == YoloBox(parseFloat(tokens[0]).value,
        Xywh(parseFloat(tokens[1]).value, parseFloat(tokens[2]).value,
             parseFloat(tokens[3]).value, parseFloat(tokens[4]).value))
    ensures r.Err? ==> r.error == MalformedLine(line)
  {
    var tokens := SplitWs(line);
    if |tokens| != 5 then Err(MalformedLine(line))
    else
      match ParseFields(tokens, parseFloat)
      case None => Err(MalformedLine(line))
      case Some(v) => Ok(YoloBox(v[0], Xywh(v[1], v[2], v[3], v[4])))
  }

  /** The rectangle shape built from one stripped, non-blank label line. */
  function LineShape(line: string, classes: seq<string>, width: int, height: int, parseFloat: string -> Option<real>): (r: Result<Shape, ConvError>)
    requires width > 0 && height > 0
    ensures r.Ok? <==> (ParseLine(line, parseFloat).Ok? &&
      PyIndex(classes, Trunc(ParseLine(line, parseFloat).value.classId)).Some?)
    ensures r.Err? && ParseLine(line, parseFloat).Ok? ==>
      r.error == ClassOutOfRange(Trunc(ParseLine(line, parseFloat).value.classId))
    ensures ParseLine(line, parseFloat).Err? ==> r == Err(ParseLine(line, parseFloat).error)
  {
    var yb :- ParseLine(line, parseFloat);
    var c := Corners(yb.box, width, height);
    var index := Trunc(yb.classId);
    match PyIndex(classes, index)
    case None => Err(ClassOutOfRange(index))
    case Some(name) => Ok(Shape(name, [c.0, c.1], None, "rectangle", map[]))
  }

  /** `s.replace(pat, rep)`: every non-overlapping occurrence, scanning from the left. */
  function ReplaceAll(s: string, pat: string, rep: string): string
    requires pat != ""
    decreases |s|
  {
    if |s| < |pat| then s
    else if s[..|pat|] == pat then rep + ReplaceAll(s[|pat|..], pat, rep)
    else [s[0]] + ReplaceAll(s[1..], pat, rep)
  }

  /** A text with no dot in it holds no occurrence of a dotted pattern. */
  lemma {:induction false} ReplaceAllNoDot(s: string, pat: string, rep: string)
    requires pat != "" && pat[0] == '.'
    requires '.' !in s
    ensures ReplaceAll(s, pat, rep) == s
  {
    if |s| >= |pat| {
      assert s[..|pat|][0] == s[0] != '.';
      assert '.' !in s[1..] by {
        forall i | 0 <= i < |s[1..]| ensures s[1..][i] != '.' { assert s[1..][i] == s[i + 1]; }
      }
      ReplaceAllNoDot(s[1..], pat, rep);
      assert [s[0]] + s[1..] == s;
    }
  }

  /** The `imagePath` of a label file `stem.txt` whose stem has no dot is `stem.jpg`. */
  lemma {:induction false} ImagePathOfStem(stem: string)
    requires '.' !in stem
    ensures ReplaceAll(stem + ".txt", ".txt", ".jpg") == stem + ".jpg"
  {
    if |stem| == 0 {
      assert stem + ".txt" == ".txt";
      assert ReplaceAll("", ".txt", ".jpg") == "";
    } else {
      var s := stem + ".txt";
      assert s[..4] != ".txt" by { assert s[0] == stem[0] != '.'; }
      assert s[1..] == stem[1..] + ".txt";
      assert '.' !in stem[1..] by {
        forall i | 0 <= i < |stem[1..]| ensures stem[1..][i] != '.' { assert stem[1..][i] == stem[i + 1]; }
      }
      ImagePathOfStem(stem[1..]);
      assert [stem[0]] + stem[1..] == stem;
    }
  }

  /** Each stripped line converted on its own. */
  function LineShapes(lines: seq<string>, classes: seq<string>, width: int, height: int, parseFloat: string -> Option<real>): (r: seq<Result<Shape, ConvError>>)
    requires width > 0 && height > 0
    ensures |r| == |lines|
  {
    seq(|lines|, k requires 0 <= k < |lines| => LineShape(lines[k], classes, width, height, parseFloat))
  }

  /** The shapes of the stripped lines, in order, or the error of the first line that fails. */
  function ShapesOf(lines: seq<string>, classes: seq<string>, width: int, height: int, parseFloat: string -> Option<real>): Result<seq<Shape>, ConvError>
    requires width > 0 && height > 0
  {
    AllOk(LineShapes(lines, classes, width, height, parseFloat))
  }

  /**
    The lines convert iff each line does, giving one shape per line in
    order; otherwise the first line that fails decides the error.
   */
  lemma ShapesOfSpec(lines: seq<string>, classes: seq<string>, width: int, height: int, parseFloat: string -> Option<real>)
    requires width > 0 && height > 0
    ensures var steps := LineShapes(lines, classes, width, height, parseFloat);
      var r := ShapesOf(lines, classes, width, height, parseFloat);
      && (forall k :: 0 <= k < |lines| ==> steps[k] == LineShape(lines[k], classes, width, height, parseFloat))
      && (r.Ok? <==> forall k :: 0 <= k < |lines| ==> steps[k].Ok?)
      && (r.Ok? ==> |r.value| == |lines| && forall k :: 0 <= k < |lines| ==> r.value[k] == steps[k].value)
      && (r.Err? ==> exists k :: 0 <= k < |lines| && FirstErr(steps, k) && r.error == steps[k].error)
  {
    AllOkSpec(LineShapes(lines, classes, width, height, parseFloat));
  }

  /**
    The body of `convert_yolo_to_labelme` once the lines are stripped: a
    fresh document from the template, with the image path, height and width
    set and the shapes of the lines appended in order.
   */
  method BuildDocument(txtName: string, lines: seq<string>, classes: seq<string>, width: int, height: int, parseFloat: string -> Option<real>)
      returns (r: Result<Document, ConvError>)
    requires width > 0 && height > 0
    ensures var shapes := ShapesOf(lines, classes, width, height, parseFloat);
      && (r.Ok? <==> shapes.Ok?)
      && (r.Err? ==> r.error == shapes.error)
    ensures r.Ok? ==> fresh(r.value)
    ensures r.Ok? ==> var doc := r.value;
      && doc.version == "5.3.1" && doc.flags == map[] && doc.imageData == None
      && doc.imagePath == Some(ReplaceAll(txtName, ".txt", ".jpg"))
      && doc.imageHeight == Some(height) && doc.imageWidth == Some(width)
      && doc.shapes == ShapesOf(lines, classes, width, height, parseFloat).value
  {
    var doc: Document := new Document.Template();
    doc.imagePath := Some(ReplaceAll(txtName, ".txt", ".jpg"));
    doc.imageHeight := Some(height);
    doc.imageWidth := Some(width);
    doc.shapes := [];
    var err := AppendShapes(doc, lines, classes, width, height, parseFloat);
    if err.Some? {
      return Err(err.value);
    }
    return Ok(doc);
  }

  /**
    The loop of `convert_yolo_to_labelme`: append the shape of every line to
    the document, in order, stopping at the first line that fails.
   */
  method AppendShapes(doc: Document, lines: seq<string>, classes: seq<string>, width: int, height: int, parseFloat: string -> Option<real>)
      returns (err: Option<ConvError>)
    requires width > 0 && height > 0
    modifies doc`shapes
    ensures var shapes := ShapesOf(lines, classes, width, height, parseFloat);
      && (err.None? <==> shapes.Ok?)
      && (err.Some? ==> err.value == shapes.error)
      && (err.None? ==> doc.shapes == old(doc.shapes) + shapes.value)
  {
    ghost var start := doc.shapes;
    ghost var steps := LineShapes(lines, classes, width, height, parseFloat);
    for i := 0 to |lines|
      invariant AllOk(steps[..i]).Ok? && doc.shapes == start + AllOk(steps[..i]).value
    {
      assert steps[..i + 1][..i] == steps[..i];
      var shape := LineShape(lines[i], classes, width, height, parseFloat);
      assert steps[i] == shape;
      if shape.Err? {
        AllOkPrefixErr(steps, i + 1);
        return Some(shape.error);
      }
      doc.shapes := doc.shapes + [shape.value];
    }
    assert steps[..|lines|] == steps;
    return None;
  }

  /** `convert_yolo_to_labelme`: the document built from the file's stripped, non-blank lines. */
  method ConvertYoloToLabelme(txtName: string, fileLines: seq<string>, classes: seq<string>, width: int, height: int, parseFloat: string -> Option<real>)
      returns (r: Result<Document, ConvError>)
    requires width > 0 && height > 0
    ensures var shapes := ShapesOf(StrippedLines(fileLines), classes, width, height, parseFloat);
      && (r.Ok? <==> shapes.Ok?)
      && (r.Err? ==> r.error == shapes.error)
    ensures r.Ok? ==> fresh(r.value)
    ensures r.Ok? ==> var doc := r.value;
      && doc.version == "5.3.1" && doc.flags == map[] && doc.imageData == None
      && doc.imagePath == Some(ReplaceAll(txtName, ".txt", ".jpg"))
      && doc.imageHeight == Some(height) && doc.imageWidth == Some(width)
      && doc.shapes == ShapesOf(StrippedLines(fileLines), classes, width, height, parseFloat).value
  {
    var lines := StrippedLines(fileLines);
    r := BuildDocument(txtName, lines, classes, width, height, parseFloat);
  }

  /**
    Every shape of a converted document is a rectangle with no group id,
    whose label is the class the truncated id indexes (negative ids count
    from the end, as in Python) and whose two points are the corners the
    line's box decodes to; these are ordered when the box has a
    non-negative size.
   */
  lemma LineShapeIsRectangle(line: string, classes: seq<string>, width: int, height: int, parseFloat: string -> Option<real>)
    requires width > 0 && height > 0
    requires LineShape(line, classes, width, height, parseFloat).Ok?
    ensures var s := LineShape(line, classes, width, height, parseFloat).value;
      var b := ParseLine(line, parseFloat).value.box;
      && s.shapeType == "rectangle" && s.groupId == None && s.flags == map[]
      && s.name in classes
      && s.name == PyIndex(classes, Trunc(ParseLine(line, parseFloat).value.classId)).value
      && s.points == [Corners(b, width, height).0, Corners(b, width, height).1]
      && (b.w >= 0.0 && b.h >= 0.0 ==> s.points[0].x <= s.points[1].x && s.points[0].y <= s.points[1].y)
  {
    var yb := ParseLine(line, parseFloat).value;
    var i := Trunc(yb.classId);
    if i < 0 {
      assert classes[|classes| + i] in classes;
    } else {
      assert classes[i] in classes;
    }
  }

  /**
    Converting a line's rectangle back with the detection encoder gives the
    line's box again, when the box has a non-negative size.
   */
  lemma LineShapeRoundTrip(line: string, classes: seq<string>, width: int, height: int, parseFloat: string -> Option<real>)
    requires width > 0 && height > 0
    requires LineShape(line, classes, width, height, parseFloat).Ok?
    requires var b := ParseLine(line, parseFloat).value.box; b.w >= 0.0 && b.h >= 0.0
    ensures var s := LineShape(line, classes, width, height, parseFloat).value;
      Xyxy2Xywh(s.points[0], s.points[1], width, height) == ParseLine(line, parseFloat).value.box
  {
    XywhOfCorners(ParseLine(line, parseFloat).value.box, width, height);
  }
}
