/**
  LabelMe to YOLO segmentation labels: every shape's polygon is divided by
  the image size and written as one line `class x1 y1 x2 y2 ...`.
 */
module LabelmeToYoloSeg {
  import opened Common
  import opened Text
  import opened LabelMe
  import opened YoloRecord

  datatype SegError =
    | UnknownClass(name: string)     // `classes.index(label)` raises ValueError

  /** One coordinate divided by an image dimension. */
  function Scale(a: real, d: int): real
    requires d > 0
  {
    a / (d as real)
  }

  /** A normalised coordinate multiplied back by an image dimension. */
  function Unscale(c: real, d: int): real {
    c * (d as real)
  }

  /** Multiplying a scaled coordinate by the dimension gives it back. */
  lemma ScaleBack(a: real, d: int)
    requires d > 0
    ensures Unscale(Scale(a, d), d) == a
  {
  }

  /** The flat coordinate list `[x1/w, y1/h, x2/w, y2/h, ...]` of a polygon. */
  function Normalized(polygon: seq<Point2>, width: int, height: int): (r: seq<real>)
    requires width > 0 && height > 0
    ensures |r| == 2 * |polygon|
  {
    if polygon == [] then []
    else
      var last := polygon[|polygon| - 1];
      Normalized(polygon[..|polygon| - 1], width, height) + [Scale(last.x, width), Scale(last.y, height)]
  }

  /** Point `i` of the polygon gives coordinates `2 * i` and `2 * i + 1`. */
  lemma {:induction false} NormalizedAt(polygon: seq<Point2>, width: int, height: int, i: nat)
    requires width > 0 && height > 0
    requires i < |polygon|
    ensures var r := Normalized(polygon, width, height);
      r[2 * i] == Scale(polygon[i].x, width) && r[2 * i + 1] == Scale(polygon[i].y, height)
  {
    if i < |polygon| - 1 {
      var init := polygon[..|polygon| - 1];
      NormalizedAt(init, width, height, i);
      assert init[i] == polygon[i];
    }
  }

  /** The polygon a flat coordinate list describes, scaled back to pixels. */
  function Denormalized(coords: seq<real>, width: int, height: int): (p: seq<Point2>)
    ensures |p| == |coords| / 2
  {
    if |coords| < 2 then []
    else
      var n := |coords|;
      Denormalized(coords[..n - 2], width, height) + [Point2(Unscale(coords[n - 2], width), Unscale(coords[n - 1], height))]
  }

  /** Scaling the normalised coordinates back gives the polygon again. */
  lemma {:induction false} NormalizedRoundTrip(polygon: seq<Point2>, width: int, height: int)
    requires width > 0 && height > 0
    ensures Denormalized(Normalized(polygon, width, height), width, height) == polygon
  {
    if polygon != [] {
      var init := polygon[..|polygon| - 1];
      var last := polygon[|polygon| - 1];
      var n := Normalized(polygon, width, height);
      var m := |n|;
      assert m >= 2;
      NormalizedRoundTrip(init, width, height);
      assert n == Normalized(init, width, height) + [Scale(last.x, width), Scale(last.y, height)];
      assert n[..m - 2] == Normalized(init, width, height);
      assert n[m - 2] == Scale(last.x, width) && n[m - 1] == Scale(last.y, height);
      var q := Point2(Unscale(n[m - 2], width), Unscale(n[m - 1], height));
      assert Denormalized(n, width, height) == Denormalized(n[..m - 2], width, height) + [q];
      ScaleBack(last.x, width);
      ScaleBack(last.y, height);
      assert q == last;
      assert polygon == init + [last];
    }
  }

  /** `normalize_polygon`: each point contributes its two scaled coordinates, in order. */
  method NormalizePolygon(polygon: seq<Point2>, width: int, height: int) returns (r: seq<real>)
    requires width > 0 && height > 0
    ensures r == Normalized(polygon, width, height)
  {
    r := [];
    for i := 0 to |polygon|
      invariant r == Normalized(polygon[..i], width, height)
    {
      var x := polygon[i].x / (width as real);
      var y := polygon[i].y / (height as real);
      assert polygon[..i + 1][..i] == polygon[..i];
      r := r + [x, y];
    }
    assert polygon[..|polygon|] == polygon;
  }

  /** The line written for one shape, or the error its conversion raises. */
  function SegLine(s: Shape, classes: seq<string>, width: int, height: int, fmt6: real -> string): (r: Result<string, SegError>)
    requires width > 0 && height > 0
    ensures r.Ok? <==> s.name in classes
    ensures r.Err? ==> r.error == UnknownClass(s.name)
  {
    match IndexOf(classes, s.name)
    case None => Err(UnknownClass(s.name))
    case Some(id) => Ok(RecordLine(id, Normalized(s.points, width, height), fmt6))
  }

  /**
    A written segmentation line for a non-empty polygon has `1 + 2 * |points|`
    fields: the first index of the label, then the formatted coordinates.
   */
  lemma SegLineFields(s: Shape, classes: seq<string>, width: int, height: int, fmt6: real -> string)
    requires width > 0 && height > 0
    requires SpaceFree(fmt6)
    requires |s.points| >= 1 && s.name in classes
    ensures var line := SegLine(s, classes, width, height, fmt6).value;
      var id := IndexOf(classes, s.name).value;
      var fields := SplitOn(line[..|line| - 1], ' ');
      classes[id] == s.name && s.name !in classes[..id] &&
      |fields| == 1 + 2 * |s.points| &&
      fields == [NatToString(id)] + FormatFields(Normalized(s.points, width, height), fmt6)
  {
    var id := IndexOf(classes, s.name).value;
    RecordLineFields(id, Normalized(s.points, width, height), fmt6);
  }

  /** A shape with no points still gives a line: the class id and a trailing space. */
  lemma SegLineEmptyPolygon(s: Shape, classes: seq<string>, width: int, height: int, fmt6: real -> string)
    requires width > 0 && height > 0
    requires s.points == [] && s.name in classes
    ensures SegLine(s, classes, width, height, fmt6).value ==
      NatToString(IndexOf(classes, s.name).value) + " \n"
  {
  }

  /** Shape `k` is the first that fails, with error `e`. */
  predicate FirstFailure(shapes: seq<Shape>, classes: seq<string>, width: int, height: int, fmt6: real -> string, k: nat, e: SegError)
    requires width > 0 && height > 0
    requires k < |shapes|
  {
    && SegLine(shapes[k], classes, width, height, fmt6) == Err(e)
    && forall j :: 0 <= j < k ==> SegLine(shapes[j], classes, width, height, fmt6).Ok?
  }

  /**
    `convert_labelme_to_yolo_seg`: one line per shape, in document order; the
    first shape whose label is not a class decides the error.
   */
  method ConvertLabelmeToYoloSeg(shapes: seq<Shape>, classes: seq<string>, width: int, height: int, fmt6: real -> string)
      returns (r: Result<seq<string>, SegError>)
    requires width > 0 && height > 0
    ensures r.Ok? <==> forall k :: 0 <= k < |shapes| ==> shapes[k].name in classes
    ensures r.Ok? ==> |r.value| == |shapes|
    ensures r.Ok? ==> forall k :: 0 <= k < |shapes| ==>
      r.value[k] == SegLine(shapes[k], classes, width, height, fmt6).value
    ensures r.Err? ==> exists k :: 0 <= k < |shapes| && FirstFailure(shapes, classes, width, height, fmt6, k, r.error)
  {
    var lines: seq<string> := [];
    for i := 0 to |shapes|
      invariant |lines| == i
      invariant forall k :: 0 <= k < i ==> shapes[k].name in classes
      invariant forall k :: 0 <= k < i ==> lines[k] == SegLine(shapes[k], classes, width, height, fmt6).value
    {
      var id := IndexOf(classes, shapes[i].name);
      if id.None? {
        assert FirstFailure(shapes, classes, width, height, fmt6, i, UnknownClass(shapes[i].name));
        return Err(UnknownClass(shapes[i].name));
      }
      var coords := NormalizePolygon(shapes[i].points, width, height);
      var line := RecordLine(id.value, coords, fmt6);
      assert SegLine(shapes[i], classes, width, height, fmt6) == Ok(line);
      lines := lines + [line];
    }
    return Ok(lines);
  }
}
