/**
  LabelMe to YOLO keypoint (pose) labels. Shapes are sorted into rectangles
  (the objects) and points (the keypoints); every point is joined to every
  rectangle that contains it, and one record is written per rectangle: its
  class, its normalised box, then one `(x, y, visibility)` triple per
  keypoint name of the vocabulary.
 */
module LabelmeToYoloPose {
  import opened Common
  import opened Text
  import opened LabelMe
  import opened YoloRecord
  import Det = LabelmeToYoloDet

  datatype PoseError =
    | NoSeparator                    // `classes.index("")` raises ValueError
    | NullGroupId                    // `int(None)` raises TypeError
    | InvalidVisibility(code: int)   // a `group_id` greater than 2
    | MissingPoints(name: string)    // `shape["points"][i]` raises IndexError
    | UnknownClass(name: string)     // `classes.index(label)` raises ValueError

  // ---------------------------------------------------------------------
  // The vocabulary file

  /** `classes.txt` of a pose dataset: object classes, a blank line, keypoint names. */
  datatype Vocabulary = Vocabulary(classes: seq<string>, pointOrder: seq<string>)

  /**
    The vocabulary splits at the first empty line: the classes are the lines
    before it and the keypoint order is every line after it.
   */
  function SplitVocabulary(lines: seq<string>): (r: Result<Vocabulary, PoseError>)
    ensures r.Ok? <==> "" in lines
    ensures r.Err? ==> r.error == NoSeparator
    ensures r.Ok? ==> r.value.classes + [""] + r.value.pointOrder == lines && "" !in r.value.classes
  {
    match IndexOf(lines, "")
    case None => Err(NoSeparator)
    case Some(i) =>
      assert lines[..i] + [""] + lines[i + 1..] == lines;
      Ok(Vocabulary(lines[..i], lines[i + 1..]))
  }

  // ---------------------------------------------------------------------
  // Visibility codes

  /**
    The `group_id` check as written: `int(shape["group_id"])` runs first, so
    a missing `group_id` raises before the default of 2 can be applied.
   */
  function CheckVisibilityAsWritten(groupId: Option<int>): (r: Result<int, PoseError>)
    ensures r.Ok? <==> groupId.Some? && groupId.value <= 2
    ensures r.Ok? ==> r.value == groupId.value
    ensures groupId.None? ==> r == Err(NullGroupId)
  {
    match groupId
    case None => Err(NullGroupId)
    case Some(v) => if v > 2 then Err(InvalidVisibility(v)) else Ok(v)
  }

  /**
    The visibility of a shape, as evidently intended: a missing `group_id`
    means fully visible (2); a code above 2 is rejected; nothing bounds the
    codes from below.
   */
  function Visibility(groupId: Option<int>): (r: Result<int, PoseError>)
    ensures r.Ok? <==> groupId.None? || groupId.value <= 2
    ensures groupId.None? ==> r == Ok(2)
    ensures groupId.Some? && r.Ok? ==> r.value == groupId.value
    ensures r.Err? ==> r.error == InvalidVisibility(groupId.value)
  {
    match groupId
    case None => Ok(2)
    case Some(v) => if v > 2 then Err(InvalidVisibility(v)) else Ok(v)
  }

  /** The two agree on every given code; as written, a missing code is an error. */
  lemma VisibilityFinding(v: int)
    ensures CheckVisibilityAsWritten(Some(v)) == Visibility(Some(v))
    ensures CheckVisibilityAsWritten(None) == Err(NullGroupId) && Visibility(None) == Ok(2)
  {
  }

  /**
    Which `group_id` check a conversion runs: the check as written, or the
    evidently intended one. `convert_labelme_to_yolo` runs `AsWritten`.
   */
  datatype VisibilityRule = AsWritten | Intended

  /** The visibility check of a rule: the two rules differ only on a missing `group_id`. */
  function CheckVisibility(rule: VisibilityRule, groupId: Option<int>): (r: Result<int, PoseError>)
    ensures groupId.Some? ==> r == Visibility(groupId)
    ensures groupId.None? ==> (r.Ok? <==> rule == Intended)
    ensures groupId.None? && rule == AsWritten ==> r == Err(NullGroupId)
  {
    match rule
    case AsWritten => CheckVisibilityAsWritten(groupId)
    case Intended => Visibility(groupId)
  }

  // ---------------------------------------------------------------------
  // Sorting shapes into rectangles and points

  /** A keypoint: its label, its `[x, y]` and its visibility code. */
  datatype KeyPoint = KeyPoint(name: string, xy: Point2, vis: int)

  /** The keypoint slots of a rectangle, keyed by keypoint label. */
  type Slots = map<string, Option<KeyPoint>>

  /** A rectangle: its label, its two corners as drawn, and its keypoint slots. */
  datatype Rect = Rect(name: string, c1: Point2, c2: Point2, slots: Slots)

  /** What one LabelMe shape contributes. */
  datatype Parsed = AsRect(rect: Rect) | AsPoint(point: KeyPoint) | Ignored

  /** `{po: None for po in point_order}`: a slot per keypoint name, all absent. */
  function EmptySlots(pointOrder: seq<string>): (m: Slots)
    ensures forall po :: po in pointOrder <==> po in m
    ensures forall po :: po in m ==> m[po] == None
  {
    map po | po in pointOrder :: None
  }

  /** The rectangle filed for a `rectangle` shape: its first two points, every slot absent. */
  function RectOf(s: Shape, pointOrder: seq<string>): Rect
    requires |s.points| >= 2
  {
    Rect(s.name, s.points[0], s.points[1], EmptySlots(pointOrder))
  }

  /** The keypoint filed for a `point` shape: its first point and its visibility. */
  function PointOf(rule: VisibilityRule, s: Shape): KeyPoint
    requires |s.points| >= 1 && CheckVisibility(rule, s.groupId).Ok?
  {
    KeyPoint(s.name, s.points[0], CheckVisibility(rule, s.groupId).value)
  }

  /** One shape of the document, after its visibility check. */
  function ParseShape(rule: VisibilityRule, s: Shape, pointOrder: seq<string>): (r: Result<Parsed, PoseError>)
    ensures CheckVisibility(rule, s.groupId).Err? ==> r == Err(CheckVisibility(rule, s.groupId).error)
    ensures r.Ok? <==> (CheckVisibility(rule, s.groupId).Ok? &&
      (s.shapeType == "rectangle" ==> |s.points| >= 2) && (s.shapeType == "point" ==> |s.points| >= 1))
    ensures r.Err? && CheckVisibility(rule, s.groupId).Ok? ==> r.error == MissingPoints(s.name)
    ensures r.Ok? ==> (r.value.AsRect? <==> s.shapeType == "rectangle")
    ensures r.Ok? ==> (r.value.AsPoint? <==> s.shapeType == "point")
    ensures r.Ok? && r.value.AsRect? ==> r.value.rect == RectOf(s, pointOrder)
    ensures r.Ok? && r.value.AsPoint? ==> r.value.point == PointOf(rule, s)
  {
    var vis :- CheckVisibility(rule, s.groupId);
    if s.shapeType == "rectangle" then
      if |s.points| < 2 then Err(MissingPoints(s.name))
      else Ok(AsRect(RectOf(s, pointOrder)))
    else if s.shapeType == "point" then
      if |s.points| < 1 then Err(MissingPoints(s.name))
      else Ok(AsPoint(PointOf(rule, s)))
    else Ok(Ignored)
  }

  /** The rectangles and the points of a shape list, each in document order. */
  function SortShapes(rule: VisibilityRule, shapes: seq<Shape>, pointOrder: seq<string>): Result<(seq<Rect>, seq<KeyPoint>), PoseError>
  {
    if shapes == [] then Ok(([], []))
    else
      var sorted :- SortShapes(rule, shapes[..|shapes| - 1], pointOrder);
      var parsed :- ParseShape(rule, shapes[|shapes| - 1], pointOrder);
      match parsed
      case AsRect(rect) => Ok((sorted.0 + [rect], sorted.1))
      case AsPoint(p) => Ok((sorted.0, sorted.1 + [p]))
      case Ignored => Ok(sorted)
  }

  /** Shape `k` is the first whose parse fails, with error `e`. */
  predicate FirstBadShape(rule: VisibilityRule, shapes: seq<Shape>, pointOrder: seq<string>, k: nat, e: PoseError)
    requires k < |shapes|
  {
    && ParseShape(rule, shapes[k], pointOrder) == Err(e)
    && forall j :: 0 <= j < k ==> ParseShape(rule, shapes[j], pointOrder).Ok?
  }

  /** The shapes of one `shape_type`, in document order. */
  function OfType(shapes: seq<Shape>, shapeType: string): (r: seq<Shape>)
    ensures |r| <= |shapes|
    ensures forall s :: s in r ==> s in shapes && s.shapeType == shapeType
  {
    if shapes == [] then []
    else
      var last := shapes[|shapes| - 1];
      OfType(shapes[..|shapes| - 1], shapeType) + (if last.shapeType == shapeType then [last] else [])
  }

  /**
    Sorting succeeds iff every shape passes its visibility and point checks;
    otherwise the first failing shape decides the error.
   */
  lemma {:induction false} SortShapesSpec(rule: VisibilityRule, shapes: seq<Shape>, pointOrder: seq<string>)
    ensures var r := SortShapes(rule, shapes, pointOrder);
      && (r.Ok? <==> forall k :: 0 <= k < |shapes| ==> ParseShape(rule, shapes[k], pointOrder).Ok?)
      && (r.Err? ==> exists k :: 0 <= k < |shapes| && FirstBadShape(rule, shapes, pointOrder, k, r.error))
  {
    if shapes != [] {
      var init := shapes[..|shapes| - 1];
      var last := shapes[|shapes| - 1];
      SortShapesSpec(rule, init, pointOrder);
      assert forall k :: 0 <= k < |init| ==> init[k] == shapes[k];
      var r := SortShapes(rule, shapes, pointOrder);
      if SortShapes(rule, init, pointOrder).Err? {
        var k :| 0 <= k < |init| && FirstBadShape(rule, init, pointOrder, k, SortShapes(rule, init, pointOrder).error);
        assert FirstBadShape(rule, shapes, pointOrder, k, r.error);
      } else if ParseShape(rule, last, pointOrder).Err? {
        assert FirstBadShape(rule, shapes, pointOrder, |shapes| - 1, r.error);
      }
    }
  }

  /**
    The sorted rectangles are the document's `rectangle` shapes, in document
    order: rectangle `j` has the label and first two points of the `j`-th
    rectangle shape and every slot absent.
   */
  lemma {:induction false} SortedRects(rule: VisibilityRule, shapes: seq<Shape>, pointOrder: seq<string>)
    requires SortShapes(rule, shapes, pointOrder).Ok?
    ensures var rects := SortShapes(rule, shapes, pointOrder).value.0;
      var rs := OfType(shapes, "rectangle");
      && |rects| == |rs|
      && forall j :: 0 <= j < |rs| ==> |rs[j].points| >= 2 && rects[j] == RectOf(rs[j], pointOrder)
  {
    if shapes != [] {
      var init := shapes[..|shapes| - 1];
      var last := shapes[|shapes| - 1];
      SortedRects(rule, init, pointOrder);
      var before := SortShapes(rule, init, pointOrder).value.0;
      var rects := SortShapes(rule, shapes, pointOrder).value.0;
      var rsInit := OfType(init, "rectangle");
      var rs := OfType(shapes, "rectangle");
      assert ParseShape(rule, last, pointOrder).Ok?;
      if last.shapeType == "rectangle" {
        assert rs == rsInit + [last];
        assert rects == before + [RectOf(last, pointOrder)];
        forall j | 0 <= j < |rs| ensures |rs[j].points| >= 2 && rects[j] == RectOf(rs[j], pointOrder) {
          if j < |rsInit| {
            assert rs[j] == rsInit[j] && rects[j] == before[j];
          }
        }
      } else {
        assert rs == rsInit;
        assert rects == before;
      }
    }
  }

  /**
    The sorted points are the document's `point` shapes, in document order:
    point `k` has the label and first point of the `k`-th point shape and
    the visibility its rule gives.
   */
  lemma {:induction false} SortedPoints(rule: VisibilityRule, shapes: seq<Shape>, pointOrder: seq<string>)
    requires SortShapes(rule, shapes, pointOrder).Ok?
    ensures var points := SortShapes(rule, shapes, pointOrder).value.1;
      var ps := OfType(shapes, "point");
      && |points| == |ps|
      && forall k :: 0 <= k < |ps| ==>
           |ps[k].points| >= 1 && CheckVisibility(rule, ps[k].groupId).Ok? && points[k] == PointOf(rule, ps[k])
  {
    if shapes != [] {
      var init := shapes[..|shapes| - 1];
      var last := shapes[|shapes| - 1];
      SortedPoints(rule, init, pointOrder);
      var before := SortShapes(rule, init, pointOrder).value.1;
      var points := SortShapes(rule, shapes, pointOrder).value.1;
      var psInit := OfType(init, "point");
      var ps := OfType(shapes, "point");
      assert ParseShape(rule, last, pointOrder).Ok?;
      if last.shapeType == "point" {
        assert ps == psInit + [last];
        assert points == before + [PointOf(rule, last)];
        forall k | 0 <= k < |ps|
          ensures |ps[k].points| >= 1 && CheckVisibility(rule, ps[k].groupId).Ok? && points[k] == PointOf(rule, ps[k])
        {
          if k < |psInit| {
            assert ps[k] == psInit[k] && points[k] == before[k];
          }
        }
      } else {
        assert ps == psInit;
        assert points == before;
      }
    }
  }

  /** An error in a prefix is the error of the whole list. */
  lemma {:induction false} SortShapesPrefixErr(rule: VisibilityRule, shapes: seq<Shape>, pointOrder: seq<string>, n: nat)
    requires n <= |shapes|
    requires SortShapes(rule, shapes[..n], pointOrder).Err?
    ensures SortShapes(rule, shapes, pointOrder) == SortShapes(rule, shapes[..n], pointOrder)
  {
    if n < |shapes| {
      var init := shapes[..|shapes| - 1];
      assert init[..n] == shapes[..n];
      SortShapesPrefixErr(rule, init, pointOrder, n);
    } else {
      assert shapes[..n] == shapes;
    }
  }

  /** When every shape carries a `group_id`, the two rules sort alike. */
  lemma {:induction false} RulesAgree(shapes: seq<Shape>, pointOrder: seq<string>)
    requires forall k :: 0 <= k < |shapes| ==> shapes[k].groupId.Some?
    ensures SortShapes(AsWritten, shapes, pointOrder) == SortShapes(Intended, shapes, pointOrder)
  {
    if shapes != [] {
      var init := shapes[..|shapes| - 1];
      assert forall k :: 0 <= k < |init| ==> init[k] == shapes[k];
      RulesAgree(init, pointOrder);
      var last := shapes[|shapes| - 1];
      assert ParseShape(AsWritten, last, pointOrder) == ParseShape(Intended, last, pointOrder);
    }
  }

  /**
    The first loop of `convert_labelme_to_yolo`: check each shape's
    visibility as written, then file rectangles and points in document order.
   */
  method ClassifyShapes(shapes: seq<Shape>, pointOrder: seq<string>) returns (r: Result<(seq<Rect>, seq<KeyPoint>), PoseError>)
    ensures r == SortShapes(AsWritten, shapes, pointOrder)
  {
    var rects: seq<Rect> := [];
    var points: seq<KeyPoint> := [];
    for i := 0 to |shapes|
      invariant SortShapes(AsWritten, shapes[..i], pointOrder) == Ok((rects, points))
    {
      var s := shapes[i];
      assert shapes[..i + 1][..i] == shapes[..i];
      var vis := CheckVisibilityAsWritten(s.groupId);
      if vis.Err? {
        SortShapesPrefixErr(AsWritten, shapes, pointOrder, i + 1);
        return Err(vis.error);
      }
      if s.shapeType == "rectangle" {
        if |s.points| < 2 {
          SortShapesPrefixErr(AsWritten, shapes, pointOrder, i + 1);
          return Err(MissingPoints(s.name));
        }
        rects := rects + [Rect(s.name, s.points[0], s.points[1], EmptySlots(pointOrder))];
      } else if s.shapeType == "point" {
        if |s.points| < 1 {
          SortShapesPrefixErr(AsWritten, shapes, pointOrder, i + 1);
          return Err(MissingPoints(s.name));
        }
        points := points + [KeyPoint(s.name, s.points[0], vis.value)];
      }
    }
    assert shapes[..|shapes|] == shapes;
    return Ok((rects, points));
  }

  // ---------------------------------------------------------------------
  // Joining points to rectangles

  /** The containment test of the join: inclusive on every edge, in either corner order. */
  predicate Inside(c1: Point2, c2: Point2, p: Point2) {
    && Det.Min(c1.x, c2.x) <= p.x <= Det.Max(c1.x, c2.x)
    && Det.Min(c1.y, c2.y) <= p.y <= Det.Max(c1.y, c2.y)
  }

  /** A rectangle contains a point. */
  predicate Contains(r: Rect, p: Point2) {
    Inside(r.c1, r.c2, p)
  }

  /** Swapping the two corners of a rectangle does not change what it contains. */
  lemma ContainsSwap(r: Rect, p: Point2)
    ensures Contains(r, p) <==> Contains(r.(c1 := r.c2, c2 := r.c1), p)
  {
  }

  /** For corners drawn top-left to bottom-right, containment is the closed box between them. */
  lemma ContainsOrdered(r: Rect, p: Point2)
    requires r.c1.x <= r.c2.x && r.c1.y <= r.c2.y
    ensures Contains(r, p) <==> r.c1.x <= p.x <= r.c2.x && r.c1.y <= p.y <= r.c2.y
  {
  }

  /** Every corner of a rectangle lies in it: the edges are inclusive. */
  lemma ContainsCorners(r: Rect)
    ensures Contains(r, r.c1) && Contains(r, r.c2)
    ensures Contains(r, Point2(r.c1.x, r.c2.y)) && Contains(r, Point2(r.c2.x, r.c1.y))
  {
  }

  /** `retangle[label] = point` when the rectangle contains the point. */
  function Place(rect: Rect, p: KeyPoint): Rect {
    if Contains(rect, p.xy) then rect.(slots := rect.slots[p.name := Some(p)]) else rect
  }

  /** One pass of the inner loop: the point stored in every rectangle containing it. */
  function JoinPoint(rects: seq<Rect>, p: KeyPoint): (r: seq<Rect>)
    ensures |r| == |rects|
  {
    seq(|rects|, j requires 0 <= j < |rects| => Place(rects[j], p))
  }

  /** The whole join: the points taken in document order. */
  function JoinAll(rects: seq<Rect>, points: seq<KeyPoint>): (r: seq<Rect>)
    ensures |r| == |rects|
  {
    if points == [] then rects
    else JoinPoint(JoinAll(rects, points[..|points| - 1]), points[|points| - 1])
  }

  /** The join seen from one rectangle: every point placed into it in turn. */
  function PlaceAll(rect: Rect, points: seq<KeyPoint>): Rect {
    if points == [] then rect
    else Place(PlaceAll(rect, points[..|points| - 1]), points[|points| - 1])
  }

  /** Placing points keeps a rectangle's label and corners. */
  lemma {:induction false} PlaceAllKeepsBox(rect: Rect, points: seq<KeyPoint>)
    ensures var r := PlaceAll(rect, points);
      r.name == rect.name && r.c1 == rect.c1 && r.c2 == rect.c2
  {
    if points != [] {
      PlaceAllKeepsBox(rect, points[..|points| - 1]);
    }
  }

  /** The join acts on each rectangle on its own. */
  lemma {:induction false} JoinAllPointwise(rects: seq<Rect>, points: seq<KeyPoint>, j: nat)
    requires j < |rects|
    ensures JoinAll(rects, points)[j] == PlaceAll(rects[j], points)
  {
    if points != [] {
      JoinAllPointwise(rects, points[..|points| - 1], j);
    }
  }

  /** Point `k` is the last point labelled `label` that the rectangle contains. */
  ghost predicate LastHit(rect: Rect, points: seq<KeyPoint>, key: string, k: int) {
    && 0 <= k < |points|
    && points[k].name == key && Contains(rect, points[k].xy)
    && forall m :: k < m < |points| ==> !(points[m].name == key && Contains(rect, points[m].xy))
  }

  /** No point labelled `label` lies in the rectangle. */
  ghost predicate NoHit(rect: Rect, points: seq<KeyPoint>, key: string) {
    forall m :: 0 <= m < |points| ==> !(points[m].name == key && Contains(rect, points[m].xy))
  }

  /** After the join, a slot holds the last contained point with its label. */
  lemma {:induction false} PlaceAllLastHit(rect: Rect, points: seq<KeyPoint>, key: string, k: int)
    requires LastHit(rect, points, key, k)
    ensures var r := PlaceAll(rect, points);
      key in r.slots && r.slots[key] == Some(points[k])
  {
    var n := |points|;
    var init := points[..n - 1];
    PlaceAllKeepsBox(rect, init);
    if k < n - 1 {
      assert LastHit(rect, init, key, k) by {
        forall m | k < m < |init| ensures !(init[m].name == key && Contains(rect, init[m].xy)) {
          assert init[m] == points[m];
        }
      }
      PlaceAllLastHit(rect, init, key, k);
    }
  }

  /** A slot whose label no contained point carries keeps its value, or stays missing. */
  lemma {:induction false} PlaceAllNoHit(rect: Rect, points: seq<KeyPoint>, key: string)
    requires NoHit(rect, points, key)
    ensures var r := PlaceAll(rect, points);
      (key in r.slots <==> key in rect.slots) && (key in rect.slots ==> r.slots[key] == rect.slots[key])
  {
    if points != [] {
      var n := |points|;
      var init := points[..n - 1];
      assert NoHit(rect, init, key) by {
        forall m | 0 <= m < |init| ensures !(init[m].name == key && Contains(rect, init[m].xy)) {
          assert init[m] == points[m];
        }
      }
      PlaceAllKeepsBox(rect, init);
      PlaceAllNoHit(rect, init, key);
    }
  }

  /** Placing points never removes a slot. */
  lemma {:induction false} PlaceAllKeepsSlots(rect: Rect, points: seq<KeyPoint>)
    ensures rect.slots.Keys <= PlaceAll(rect, points).slots.Keys
  {
    if points != [] {
      PlaceAllKeepsSlots(rect, points[..|points| - 1]);
    }
  }

  /** A point outside every rectangle leaves the join as it is. */
  lemma JoinAllOrphan(rects: seq<Rect>, points: seq<KeyPoint>, p: KeyPoint)
    requires forall j :: 0 <= j < |rects| ==> !Contains(rects[j], p.xy)
    ensures JoinAll(rects, points + [p]) == JoinAll(rects, points)
  {
    assert (points + [p])[..|points|] == points;
    var base := JoinAll(rects, points);
    forall j | 0 <= j < |rects| ensures JoinPoint(base, p)[j] == base[j] {
      JoinAllPointwise(rects, points, j);
      PlaceAllKeepsBox(rects[j], points);
    }
  }

  /** The coordinates of the points: the keys of `point_in_rectangle`. */
  function Coords(points: seq<KeyPoint>): set<Point2> {
    set k | 0 <= k < |points| :: points[k].xy
  }

  /** Appending a point adds its coordinate. */
  lemma CoordsAppend(points: seq<KeyPoint>, kp: KeyPoint)
    ensures Coords(points + [kp]) == Coords(points) + {kp.xy}
  {
    var ps := points + [kp];
    assert forall k :: 0 <= k < |points| ==> ps[k] == points[k];
    assert ps[|points|] == kp;
  }

  /** Some rectangle contains the coordinate. */
  predicate InAnyRect(rects: seq<Rect>, c: Point2) {
    exists j :: 0 <= j < |rects| && Contains(rects[j], c)
  }

  /**
    The coordinates reported as outside every rectangle: points at the same
    coordinate share one entry, so a coordinate is an orphan iff no point at
    it lies in any rectangle.
   */
  function Orphans(rects: seq<Rect>, points: seq<KeyPoint>): (o: set<Point2>)
    ensures forall c :: c in o <==> c in Coords(points) && !InAnyRect(rects, c)
  {
    set c | c in Coords(points) && !InAnyRect(rects, c)
  }

  /** The join keeps every rectangle's label and corners, so it contains the same coordinates. */
  lemma JoinAllKeepsBoxes(rects: seq<Rect>, points: seq<KeyPoint>, c: Point2)
    ensures forall j :: 0 <= j < |rects| ==>
      JoinAll(rects, points)[j].name == rects[j].name &&
      (Contains(JoinAll(rects, points)[j], c) <==> Contains(rects[j], c))
    ensures InAnyRect(JoinAll(rects, points), c) <==> InAnyRect(rects, c)
  {
    forall j | 0 <= j < |rects|
      ensures JoinAll(rects, points)[j].name == rects[j].name
      ensures Contains(JoinAll(rects, points)[j], c) <==> Contains(rects[j], c)
    {
      JoinAllPointwise(rects, points, j);
      PlaceAllKeepsBox(rects[j], points);
    }
  }

  /**
    The inner loop for one point: the point is written into every rectangle
    that contains it, and its coordinate is flagged if any rectangle does.
   */
  method PlacePoint(rects: seq<Rect>, p: KeyPoint, inside: map<Point2, bool>)
      returns (placed: seq<Rect>, flagged: map<Point2, bool>)
    requires p.xy in inside
    ensures placed == JoinPoint(rects, p)
    ensures flagged == if InAnyRect(rects, p.xy) then inside[p.xy := true] else inside
  {
    placed := rects;
    flagged := inside;
    for j := 0 to |rects|
      invariant |placed| == |rects|
      invariant forall m :: 0 <= m < j ==> placed[m] == Place(rects[m], p)
      invariant forall m :: j <= m < |rects| ==> placed[m] == rects[m]
      invariant flagged == if exists m :: 0 <= m < j && Contains(rects[m], p.xy) then inside[p.xy := true] else inside
    {
      if Contains(placed[j], p.xy) {
        placed := placed[j := placed[j].(slots := placed[j].slots[p.name := Some(p)])];
        flagged := flagged[p.xy := true];
      }
    }
  }

  /**
    The second and third loops of `convert_labelme_to_yolo`: every point is
    written into every rectangle that contains it, and its coordinate is
    flagged as inside; the unflagged coordinates are the orphans.
   */
  method JoinPoints(rects: seq<Rect>, points: seq<KeyPoint>) returns (joined: seq<Rect>, orphans: set<Point2>)
    ensures joined == JoinAll(rects, points)
    ensures orphans == Orphans(rects, points)
  {
    var inside: map<Point2, bool> := map c | c in Coords(points) :: false;
    joined := rects;
    for i := 0 to |points|
      invariant joined == JoinAll(rects, points[..i])
      invariant inside.Keys == Coords(points)
      invariant forall c :: c in inside ==> (inside[c] <==> c in Coords(points[..i]) && InAnyRect(rects, c))
    {
      var p := points[i];
      assert points[..i + 1] == points[..i] + [p];
      CoordsAppend(points[..i], p);
      JoinAllKeepsBoxes(rects, points[..i], p.xy);
      joined, inside := PlacePoint(joined, p, inside);
    }
    assert points[..|points|] == points;
    orphans := set c | c in inside && !inside[c];
  }

  // ---------------------------------------------------------------------
  // Encoding the records

  /** Every keypoint name of the vocabulary has a slot in the rectangle. */
  predicate HasSlots(rect: Rect, pointOrder: seq<string>) {
    forall i :: 0 <= i < |pointOrder| ==> pointOrder[i] in rect.slots
  }

  /**
    The triple written for one slot: the scaled, rounded coordinates and the
    visibility of a filled slot, or `0, 0, 0` for an absent one.
   */
  function Triple(slot: Option<KeyPoint>, width: int, height: int, round6: real -> real): (t: seq<real>)
    requires width > 0 && height > 0
    ensures |t| == 3
  {
    match slot
    case Some(p) => [round6(p.xy.x / (width as real)), round6(p.xy.y / (height as real)), p.vis as real]
    case None => [0.0, 0.0, 0.0]
  }

  /** The triples of the slots named by `pointOrder`, in that order. */
  function SlotValues(rect: Rect, pointOrder: seq<string>, width: int, height: int, round6: real -> real): (v: seq<real>)
    requires width > 0 && height > 0
    requires HasSlots(rect, pointOrder)
    ensures |v| == 3 * |pointOrder|
  {
    if pointOrder == [] then []
    else
      var n := |pointOrder|;
      SlotValues(rect, pointOrder[..n - 1], width, height, round6) + Triple(rect.slots[pointOrder[n - 1]], width, height, round6)
  }

  /** Keypoint `i` of the vocabulary occupies values `3i` to `3i + 2` of the slot part. */
  lemma {:induction false} SlotValuesAt(rect: Rect, pointOrder: seq<string>, width: int, height: int, round6: real -> real, i: nat)
    requires width > 0 && height > 0
    requires HasSlots(rect, pointOrder)
    requires i < |pointOrder|
    ensures SlotValues(rect, pointOrder, width, height, round6)[3 * i..3 * i + 3] ==
      Triple(rect.slots[pointOrder[i]], width, height, round6)
  {
    var n := |pointOrder|;
    var init := pointOrder[..n - 1];
    if i < n - 1 {
      SlotValuesAt(rect, init, width, height, round6, i);
      assert init[i] == pointOrder[i];
    }
  }

  /** The four rounded box values of a rectangle. */
  function BoxPart(rect: Rect, width: int, height: int, round6: real -> real): (v: seq<real>)
    requires width > 0 && height > 0
    ensures |v| == 4
  {
    var b := Det.Xyxy2Xywh(rect.c1, rect.c2, width, height);
    [round6(b.cx), round6(b.cy), round6(b.w), round6(b.h)]
  }

  /** The values of one record after its class id: box, then one triple per keypoint. */
  function RecordValues(rect: Rect, pointOrder: seq<string>, width: int, height: int, round6: real -> real): seq<real>
    requires width > 0 && height > 0
    requires HasSlots(rect, pointOrder)
  {
    BoxPart(rect, width, height, round6) + SlotValues(rect, pointOrder, width, height, round6)
  }

  /**
    The layout of a record: `4 + 3K` values, the box first, then the triple
    of keypoint `i` at positions `4 + 3i` to `4 + 3i + 2`.
   */
  lemma RecordLayout(rect: Rect, pointOrder: seq<string>, width: int, height: int, round6: real -> real)
    requires width > 0 && height > 0
    requires HasSlots(rect, pointOrder)
    ensures var v := RecordValues(rect, pointOrder, width, height, round6);
      && |v| == 4 + 3 * |pointOrder|
      && v[..4] == BoxPart(rect, width, height, round6)
      && forall i :: 0 <= i < |pointOrder| ==>
           v[4 + 3 * i..4 + 3 * i + 3] == Triple(rect.slots[pointOrder[i]], width, height, round6)
  {
    var v := RecordValues(rect, pointOrder, width, height, round6);
    var sv := SlotValues(rect, pointOrder, width, height, round6);
    forall i | 0 <= i < |pointOrder|
      ensures v[4 + 3 * i..4 + 3 * i + 3] == Triple(rect.slots[pointOrder[i]], width, height, round6)
    {
      SlotValuesAt(rect, pointOrder, width, height, round6, i);
      assert v[4 + 3 * i..4 + 3 * i + 3] == sv[3 * i..3 * i + 3];
    }
  }

  /** The inner loop of the writer: the box values, extended by one triple per keypoint name. */
  method EncodeRecord(rect: Rect, pointOrder: seq<string>, width: int, height: int, round6: real -> real) returns (values: seq<real>)
    requires width > 0 && height > 0
    requires HasSlots(rect, pointOrder)
    ensures values == RecordValues(rect, pointOrder, width, height, round6)
  {
    var b := Det.Xyxy2Xywh(rect.c1, rect.c2, width, height);
    values := [round6(b.cx), round6(b.cy), round6(b.w), round6(b.h)];
    for i := 0 to |pointOrder|
      invariant values == BoxPart(rect, width, height, round6) + SlotValues(rect, pointOrder[..i], width, height, round6)
    {
      assert pointOrder[..i + 1][..i] == pointOrder[..i];
      match rect.slots[pointOrder[i]]
      case Some(p) =>
        values := values + [round6(p.xy.x / (width as real)), round6(p.xy.y / (height as real)), p.vis as real];
      case None =>
        values := values + [0.0, 0.0, 0.0];
    }
    assert pointOrder[..|pointOrder|] == pointOrder;
  }

  /** The line written for one joined rectangle, or the error of its class lookup. */
  function RecordLineFor(rect: Rect, classes: seq<string>, pointOrder: seq<string>, width: int, height: int,
                         round6: real -> real, fmt6: real -> string): (r: Result<string, PoseError>)
    requires width > 0 && height > 0
    requires HasSlots(rect, pointOrder)
    ensures r.Ok? <==> rect.name in classes
    ensures r.Err? ==> r.error == UnknownClass(rect.name)
  {
    match IndexOf(classes, rect.name)
    case None => Err(UnknownClass(rect.name))
    case Some(id) => Ok(RecordLine(id, RecordValues(rect, pointOrder, width, height, round6), fmt6))
  }

  /** The lines of all rectangles, in order, up to the first unknown class. */
  function EncodeAll(rects: seq<Rect>, classes: seq<string>, pointOrder: seq<string>, width: int, height: int,
                     round6: real -> real, fmt6: real -> string): (r: Result<seq<string>, PoseError>)
    requires width > 0 && height > 0
    requires forall j :: 0 <= j < |rects| ==> HasSlots(rects[j], pointOrder)
    ensures r.Ok? ==> |r.value| == |rects|
  {
    if rects == [] then Ok([])
    else
      var n := |rects|;
      var init :- EncodeAll(rects[..n - 1], classes, pointOrder, width, height, round6, fmt6);
      var line :- RecordLineFor(rects[n - 1], classes, pointOrder, width, height, round6, fmt6);
      Ok(init + [line])
  }

  /** Rectangle `j` is the first whose label is not a class. */
  predicate FirstUnknown(rects: seq<Rect>, classes: seq<string>, j: nat)
    requires j < |rects|
  {
    rects[j].name !in classes && forall m :: 0 <= m < j ==> rects[m].name in classes
  }

  /**
    Encoding succeeds iff every rectangle's label is a class; otherwise the
    first rectangle with an unknown label decides the error.
   */
  lemma {:induction false} EncodeAllOutcome(rects: seq<Rect>, classes: seq<string>, pointOrder: seq<string>, width: int, height: int,
                                            round6: real -> real, fmt6: real -> string)
    requires width > 0 && height > 0
    requires forall j :: 0 <= j < |rects| ==> HasSlots(rects[j], pointOrder)
    ensures var r := EncodeAll(rects, classes, pointOrder, width, height, round6, fmt6);
      && (r.Ok? <==> forall j :: 0 <= j < |rects| ==> rects[j].name in classes)
      && (r.Err? ==> exists j :: 0 <= j < |rects| && FirstUnknown(rects, classes, j) && r.error == UnknownClass(rects[j].name))
  {
    if rects != [] {
      var n := |rects|;
      var init := rects[..n - 1];
      assert forall j :: 0 <= j < n - 1 ==> init[j] == rects[j];
      EncodeAllOutcome(init, classes, pointOrder, width, height, round6, fmt6);
      var ri := EncodeAll(init, classes, pointOrder, width, height, round6, fmt6);
      var line := RecordLineFor(rects[n - 1], classes, pointOrder, width, height, round6, fmt6);
      if ri.Err? {
        var j :| 0 <= j < |init| && FirstUnknown(init, classes, j) && ri.error == UnknownClass(init[j].name);
        assert FirstUnknown(rects, classes, j);
      } else if line.Err? {
        assert FirstUnknown(rects, classes, n - 1);
      }
    }
  }

  /** When every label is a class, line `j` is the record of rectangle `j`. */
  lemma {:induction false} EncodeAllLines(rects: seq<Rect>, classes: seq<string>, pointOrder: seq<string>, width: int, height: int,
                                          round6: real -> real, fmt6: real -> string)
    requires width > 0 && height > 0
    requires forall j :: 0 <= j < |rects| ==> HasSlots(rects[j], pointOrder)
    requires forall j :: 0 <= j < |rects| ==> rects[j].name in classes
    ensures var r := EncodeAll(rects, classes, pointOrder, width, height, round6, fmt6);
      r.Ok? && forall j :: 0 <= j < |rects| ==>
        r.value[j] == RecordLineFor(rects[j], classes, pointOrder, width, height, round6, fmt6).value
  {
    if rects != [] {
      var n := |rects|;
      var init := rects[..n - 1];
      assert forall j :: 0 <= j < n - 1 ==> init[j] == rects[j];
      EncodeAllLines(init, classes, pointOrder, width, height, round6, fmt6);
      var ri := EncodeAll(init, classes, pointOrder, width, height, round6, fmt6).value;
      var line := RecordLineFor(rects[n - 1], classes, pointOrder, width, height, round6, fmt6);
      var all := ri + [line.value];
      assert EncodeAll(rects, classes, pointOrder, width, height, round6, fmt6) == Ok(all);
      forall j | 0 <= j < n
        ensures all[j] == RecordLineFor(rects[j], classes, pointOrder, width, height, round6, fmt6).value
      {
        if j < n - 1 {
          assert all[j] == ri[j];
        }
      }
    }
  }

  /** An error in a prefix is the error of the whole list. */
  lemma {:induction false} EncodeAllPrefixErr(rects: seq<Rect>, classes: seq<string>, pointOrder: seq<string>, width: int, height: int,
                                              round6: real -> real, fmt6: real -> string, n: nat)
    requires width > 0 && height > 0
    requires forall j :: 0 <= j < |rects| ==> HasSlots(rects[j], pointOrder)
    requires n <= |rects|
    requires EncodeAll(rects[..n], classes, pointOrder, width, height, round6, fmt6).Err?
    ensures EncodeAll(rects, classes, pointOrder, width, height, round6, fmt6) ==
      EncodeAll(rects[..n], classes, pointOrder, width, height, round6, fmt6)
  {
    if n < |rects| {
      var init := rects[..|rects| - 1];
      assert init[..n] == rects[..n];
      EncodeAllPrefixErr(init, classes, pointOrder, width, height, round6, fmt6, n);
    } else {
      assert rects[..n] == rects;
    }
  }

  // ---------------------------------------------------------------------
  // The whole conversion

  /** The records of one document and the coordinates found outside every rectangle. */
  datatype PoseOutput = PoseOutput(lines: seq<string>, orphans: set<Point2>)

  /** The joined rectangles of a sorted document still have a slot per keypoint name. */
  lemma JoinedHaveSlots(rects: seq<Rect>, points: seq<KeyPoint>, pointOrder: seq<string>)
    requires forall j :: 0 <= j < |rects| ==> rects[j].slots == EmptySlots(pointOrder)
    ensures forall j :: 0 <= j < |rects| ==> HasSlots(JoinAll(rects, points)[j], pointOrder)
  {
    forall j | 0 <= j < |rects| ensures HasSlots(JoinAll(rects, points)[j], pointOrder) {
      JoinAllPointwise(rects, points, j);
      PlaceAllKeepsSlots(rects[j], points);
    }
  }

  /** Every rectangle of a sorted document starts with all of its slots absent. */
  lemma SortedSlotsEmpty(rule: VisibilityRule, shapes: seq<Shape>, pointOrder: seq<string>)
    ensures var r := SortShapes(rule, shapes, pointOrder);
      r.Ok? ==> forall j :: 0 <= j < |r.value.0| ==> r.value.0[j].slots == EmptySlots(pointOrder)
  {
    if SortShapes(rule, shapes, pointOrder).Ok? {
      SortedRects(rule, shapes, pointOrder);
    }
  }

  /** The conversion of one document under a visibility rule: sort, join, then encode every rectangle. */
  function Convert(rule: VisibilityRule, shapes: seq<Shape>, classes: seq<string>, pointOrder: seq<string>,
                   width: int, height: int, round6: real -> real, fmt6: real -> string): Result<PoseOutput, PoseError>
    requires width > 0 && height > 0
  {
    var sorted :- SortShapes(rule, shapes, pointOrder);
    SortedSlotsEmpty(rule, shapes, pointOrder);
    JoinedHaveSlots(sorted.0, sorted.1, pointOrder);
    var lines :- EncodeAll(JoinAll(sorted.0, sorted.1), classes, pointOrder, width, height, round6, fmt6);
    Ok(PoseOutput(lines, Orphans(sorted.0, sorted.1)))
  }

  /** The writer loop of `convert_labelme_to_yolo`: one record line per rectangle, in order. */
  method WriteRecords(joined: seq<Rect>, classes: seq<string>, pointOrder: seq<string>, width: int, height: int,
                      round6: real -> real, fmt6: real -> string) returns (r: Result<seq<string>, PoseError>)
    requires width > 0 && height > 0
    requires forall j :: 0 <= j < |joined| ==> HasSlots(joined[j], pointOrder)
    ensures r == EncodeAll(joined, classes, pointOrder, width, height, round6, fmt6)
  {
    var lines: seq<string> := [];
    for j := 0 to |joined|
      invariant EncodeAll(joined[..j], classes, pointOrder, width, height, round6, fmt6) == Ok(lines)
    {
      assert joined[..j + 1][..j] == joined[..j];
      var values := EncodeRecord(joined[j], pointOrder, width, height, round6);
      var id := IndexOf(classes, joined[j].name);
      if id.None? {
        EncodeAllPrefixErr(joined, classes, pointOrder, width, height, round6, fmt6, j + 1);
        return Err(UnknownClass(joined[j].name));
      }
      lines := lines + [RecordLine(id.value, values, fmt6)];
    }
    assert joined[..|joined|] == joined;
    return Ok(lines);
  }

  /**
    `convert_labelme_to_yolo`: sort the shapes with the visibility check as
    written, join the points to the rectangles, then write one record per
    rectangle in document order.
   */
  method ConvertLabelmeToYolo(shapes: seq<Shape>, classes: seq<string>, pointOrder: seq<string>, width: int, height: int,
                              round6: real -> real, fmt6: real -> string) returns (r: Result<PoseOutput, PoseError>)
    requires width > 0 && height > 0
    ensures r == Convert(AsWritten, shapes, classes, pointOrder, width, height, round6, fmt6)
  {
    var sorted := ClassifyShapes(shapes, pointOrder);
    if sorted.Err? {
      return Err(sorted.error);
    }
    var rects, points := sorted.value.0, sorted.value.1;
    var joined, orphans := JoinPoints(rects, points);
    SortedSlotsEmpty(AsWritten, shapes, pointOrder);
    JoinedHaveSlots(rects, points, pointOrder);
    var lines := WriteRecords(joined, classes, pointOrder, width, height, round6, fmt6);
    if lines.Err? {
      return Err(lines.error);
    }
    return Ok(PoseOutput(lines.value, orphans));
  }

  /**
    A document converts iff every shape passes its checks and every
    rectangle shape's label is a class; it then gives exactly one line per
    rectangle shape.
   */
  lemma ConvertOutcome(rule: VisibilityRule, shapes: seq<Shape>, classes: seq<string>, pointOrder: seq<string>,
                       width: int, height: int, round6: real -> real, fmt6: real -> string)
    requires width > 0 && height > 0
    ensures var r := Convert(rule, shapes, classes, pointOrder, width, height, round6, fmt6);
      var rs := OfType(shapes, "rectangle");
      && (r.Ok? <==> ((forall k :: 0 <= k < |shapes| ==> ParseShape(rule, shapes[k], pointOrder).Ok?) &&
                      forall j :: 0 <= j < |rs| ==> rs[j].name in classes))
      && (r.Ok? ==> |r.value.lines| == |rs|)
  {
    SortShapesSpec(rule, shapes, pointOrder);
    var sorted := SortShapes(rule, shapes, pointOrder);
    if sorted.Ok? {
      SortedRects(rule, shapes, pointOrder);
      var rects, points := sorted.value.0, sorted.value.1;
      JoinedHaveSlots(rects, points, pointOrder);
      var joined := JoinAll(rects, points);
      EncodeAllOutcome(joined, classes, pointOrder, width, height, round6, fmt6);
      forall j | 0 <= j < |rects| ensures joined[j].name == rects[j].name {
        JoinAllPointwise(rects, points, j);
        PlaceAllKeepsBox(rects[j], points);
      }
    }
  }

  /**
    As written, a shape without a `group_id` stops the conversion with
    `NullGroupId`, unless an earlier shape has already failed.
   */
  lemma ConvertNullGroupId(shapes: seq<Shape>, classes: seq<string>, pointOrder: seq<string>, width: int, height: int,
                           round6: real -> real, fmt6: real -> string, k: nat)
    requires width > 0 && height > 0
    requires k < |shapes| && shapes[k].groupId.None?
    requires forall j :: 0 <= j < k ==> ParseShape(AsWritten, shapes[j], pointOrder).Ok?
    ensures Convert(AsWritten, shapes, classes, pointOrder, width, height, round6, fmt6) == Err(NullGroupId)
  {
    SortShapesSpec(AsWritten, shapes, pointOrder);
    assert ParseShape(AsWritten, shapes[k], pointOrder) == Err(NullGroupId);
    var r := SortShapes(AsWritten, shapes, pointOrder);
    var m :| 0 <= m < |shapes| && FirstBadShape(AsWritten, shapes, pointOrder, m, r.error);
    assert m == k;
  }

  /** When every shape carries a `group_id`, the code as written and the corrected check convert alike. */
  lemma ConvertRulesAgree(shapes: seq<Shape>, classes: seq<string>, pointOrder: seq<string>, width: int, height: int,
                          round6: real -> real, fmt6: real -> string)
    requires width > 0 && height > 0
    requires forall k :: 0 <= k < |shapes| ==> shapes[k].groupId.Some?
    ensures Convert(AsWritten, shapes, classes, pointOrder, width, height, round6, fmt6) ==
      Convert(Intended, shapes, classes, pointOrder, width, height, round6, fmt6)
  {
    RulesAgree(shapes, pointOrder);
  }

  /**
    Record `j` of a converted document belongs to the `j`-th rectangle shape
    of the document: the first index of its label in `classes`, then the box
    of its first two points and one triple per keypoint name; when the
    formatter writes no spaces the line splits into exactly `5 + 3K` fields.
   */
  lemma ConvertRecord(rule: VisibilityRule, shapes: seq<Shape>, classes: seq<string>, pointOrder: seq<string>,
                      width: int, height: int, round6: real -> real, fmt6: real -> string, j: nat)
    requires width > 0 && height > 0
    requires SpaceFree(fmt6)
    requires Convert(rule, shapes, classes, pointOrder, width, height, round6, fmt6).Ok?
    requires j < |OfType(shapes, "rectangle")|
    ensures var box := OfType(shapes, "rectangle")[j];
      var sorted := SortShapes(rule, shapes, pointOrder).value;
      var out := Convert(rule, shapes, classes, pointOrder, width, height, round6, fmt6).value;
      && j < |sorted.0| && j < |out.lines| && |box.points| >= 2
      && var rect := JoinAll(sorted.0, sorted.1)[j];
         var line := out.lines[j];
         && rect.name == box.name && rect.c1 == box.points[0] && rect.c2 == box.points[1]
         && box.name in classes && HasSlots(rect, pointOrder)
         && var id := IndexOf(classes, box.name).value;
            && |RecordValues(rect, pointOrder, width, height, round6)| == 4 + 3 * |pointOrder|
            && line == RecordLine(id, RecordValues(rect, pointOrder, width, height, round6), fmt6)
            && |SplitOn(line[..|line| - 1], ' ')| == 5 + 3 * |pointOrder|
  {
    SortedRects(rule, shapes, pointOrder);
    var sorted := SortShapes(rule, shapes, pointOrder).value;
    var rects, points := sorted.0, sorted.1;
    JoinedHaveSlots(rects, points, pointOrder);
    var joined := JoinAll(rects, points);
    var rect := joined[j];
    JoinAllPointwise(rects, points, j);
    PlaceAllKeepsBox(rects[j], points);
    EncodeAllOutcome(joined, classes, pointOrder, width, height, round6, fmt6);
    EncodeAllLines(joined, classes, pointOrder, width, height, round6, fmt6);
    RecordLayout(rect, pointOrder, width, height, round6);
    var id := IndexOf(classes, rect.name).value;
    RecordLineFields(id, RecordValues(rect, pointOrder, width, height, round6), fmt6);
  }

  /** The box of a `rectangle` shape, its first two points, contains the point. */
  predicate InBox(box: Shape, p: Point2) {
    |box.points| >= 2 && Inside(box.points[0], box.points[1], p)
  }

  /** `p` is a point shape labelled `key` whose first point lies in the box of `box`. */
  predicate PointShapeIn(box: Shape, p: Shape, key: string) {
    |p.points| >= 1 && p.name == key && InBox(box, p.points[0])
  }

  /** `ps[k]` is the last point shape labelled `key`, in document order, that lies in `box`. */
  ghost predicate LastPointIn(box: Shape, ps: seq<Shape>, key: string, k: int) {
    && 0 <= k < |ps| && PointShapeIn(box, ps[k], key)
    && forall m :: k < m < |ps| ==> !PointShapeIn(box, ps[m], key)
  }

  /** No point shape labelled `key` lies in `box`. */
  ghost predicate NoPointIn(box: Shape, ps: seq<Shape>, key: string) {
    forall m :: 0 <= m < |ps| ==> !PointShapeIn(box, ps[m], key)
  }

  /**
    The keypoint slots of the record of the `j`-th rectangle shape: slot
    `po` holds the last point shape labelled `po`, in document order, that
    lies in the rectangle, and is absent when no such point shape exists.
   */
  lemma ConvertSlots(rule: VisibilityRule, shapes: seq<Shape>, pointOrder: seq<string>, j: nat, po: string)
    requires SortShapes(rule, shapes, pointOrder).Ok?
    requires j < |OfType(shapes, "rectangle")|
    requires po in pointOrder
    ensures var sorted := SortShapes(rule, shapes, pointOrder).value;
      var box := OfType(shapes, "rectangle")[j];
      var ps := OfType(shapes, "point");
      && j < |sorted.0|
      && var slots := JoinAll(sorted.0, sorted.1)[j].slots;
         && po in slots
         && (forall k :: LastPointIn(box, ps, po, k) ==>
               CheckVisibility(rule, ps[k].groupId).Ok? && slots[po] == Some(PointOf(rule, ps[k])))
         && (NoPointIn(box, ps, po) ==> slots[po] == None)
  {
    SortedRects(rule, shapes, pointOrder);
    SortedPoints(rule, shapes, pointOrder);
    var sorted := SortShapes(rule, shapes, pointOrder).value;
    var rects, points := sorted.0, sorted.1;
    var box := OfType(shapes, "rectangle")[j];
    var ps := OfType(shapes, "point");
    assert forall m :: 0 <= m < |ps| ==>
      (PointShapeIn(box, ps[m], po) <==> points[m].name == po && Contains(rects[j], points[m].xy));
    JoinAllPointwise(rects, points, j);
    PlaceAllKeepsSlots(rects[j], points);
    forall k | LastPointIn(box, ps, po, k)
      ensures CheckVisibility(rule, ps[k].groupId).Ok? && JoinAll(rects, points)[j].slots[po] == Some(PointOf(rule, ps[k]))
    {
      assert LastHit(rects[j], points, po, k);
      PlaceAllLastHit(rects[j], points, po, k);
    }
    if NoPointIn(box, ps, po) {
      assert NoHit(rects[j], points, po);
      PlaceAllNoHit(rects[j], points, po);
    }
  }

  /** A point shape that passes its checks adds one point at the end of the sorted points. */
  lemma SortShapesAppendPoint(rule: VisibilityRule, shapes: seq<Shape>, s: Shape, pointOrder: seq<string>)
    requires s.shapeType == "point" && |s.points| >= 1 && CheckVisibility(rule, s.groupId).Ok?
    requires SortShapes(rule, shapes, pointOrder).Ok?
    ensures var sorted := SortShapes(rule, shapes, pointOrder).value;
      SortShapes(rule, shapes + [s], pointOrder) == Ok((sorted.0, sorted.1 + [PointOf(rule, s)]))
  {
    var all := shapes + [s];
    assert all[..|all| - 1] == shapes;
  }

  /** A point outside every rectangle joins the orphans. */
  lemma OrphansAppend(rects: seq<Rect>, points: seq<KeyPoint>, kp: KeyPoint)
    requires !InAnyRect(rects, kp.xy)
    ensures Orphans(rects, points + [kp]) == Orphans(rects, points) + {kp.xy}
  {
    CoordsAppend(points, kp);
  }

  /** A point outside the box of every rectangle shape lies in no sorted rectangle. */
  lemma OutsideSortedRects(rule: VisibilityRule, shapes: seq<Shape>, pointOrder: seq<string>, p: Point2)
    requires SortShapes(rule, shapes, pointOrder).Ok?
    requires forall b :: b in OfType(shapes, "rectangle") ==> !InBox(b, p)
    ensures !InAnyRect(SortShapes(rule, shapes, pointOrder).value.0, p)
  {
    SortedRects(rule, shapes, pointOrder);
    var rects := SortShapes(rule, shapes, pointOrder).value.0;
    var rs := OfType(shapes, "rectangle");
    forall j | 0 <= j < |rects| ensures !Contains(rects[j], p) {
      assert rs[j] in rs;
    }
  }

  /**
    A point shape that passes its checks and lies outside the box of every
    rectangle shape changes nothing but the orphan set: the records and the
    error, if any, are those of the document without it.
   */
  lemma ConvertOrphan(rule: VisibilityRule, shapes: seq<Shape>, s: Shape, classes: seq<string>, pointOrder: seq<string>,
                      width: int, height: int, round6: real -> real, fmt6: real -> string)
    requires width > 0 && height > 0
    requires s.shapeType == "point" && |s.points| >= 1 && CheckVisibility(rule, s.groupId).Ok?
    requires SortShapes(rule, shapes, pointOrder).Ok?
    requires forall b :: b in OfType(shapes, "rectangle") ==> !InBox(b, s.points[0])
    ensures var before := Convert(rule, shapes, classes, pointOrder, width, height, round6, fmt6);
      var after := Convert(rule, shapes + [s], classes, pointOrder, width, height, round6, fmt6);
      && (after.Ok? <==> before.Ok?)
      && (after.Ok? ==> (after.value.lines == before.value.lines &&
            after.value.orphans == before.value.orphans + {s.points[0]}))
      && (after.Err? ==> after.error == before.error)
  {
    var sorted := SortShapes(rule, shapes, pointOrder).value;
    var rects, points := sorted.0, sorted.1;
    var kp := PointOf(rule, s);
    OutsideSortedRects(rule, shapes, pointOrder, kp.xy);
    SortShapesAppendPoint(rule, shapes, s, pointOrder);
    JoinAllOrphan(rects, points, kp);
    OrphansAppend(rects, points, kp);
  }
}
