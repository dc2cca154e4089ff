/**
  The LabelMe annotation document as the converters see it after `json.load`:
  a top-level object holding a list of shapes, each with a label, a list of
  `[x, y]` pixel points, an optional integer `group_id` and a `shape_type`.
 */
module LabelMe {
  import opened Common

  /** One `[x, y]` entry of a shape's `points`, in pixels. */
  datatype Point2 = Point2(x: real, y: real)

  /** One entry of a document's `shapes` list; `name` holds its `label`. */
  datatype Shape = Shape(
    name: string,            // the `label` key
    points: seq<Point2>,
    groupId: Option<int>,
    shapeType: string,
    flags: map<string, bool>)

  /** A LabelMe document: the JSON object the tools read, update and dump. */
  class Document {
    var version: string
    var flags: map<string, bool>
    var shapes: seq<Shape>
    var imagePath: Option<string>
    var imageData: Option<string>
    var imageHeight: Option<int>
    var imageWidth: Option<int>

    /** A fresh copy of the template a converted document starts from. */
    constructor Template()
      ensures version == "5.3.1" && flags == map[] && shapes == []
      ensures imagePath == None && imageData == None
      ensures imageHeight == None && imageWidth == None
    {
      version := "5.3.1";
      flags := map[];
      shapes := [];
      imagePath := None;
      imageData := None;
      imageHeight := None;
      imageWidth := None;
    }
  }
}
