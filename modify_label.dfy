/**
  Renaming or deleting one class across a directory of labels: in YOLO text
  labels the class is matched by its index in the class list, in LabelMe
  documents by the shape's label.
 */
module ModifyLabel {
  import opened Common
  import opened Text
  import opened LabelMe

  datatype ModifyError =
    | UnknownOldClass(name: string)   // `all_cls.index(old_str)` raises ValueError
    | BadClassId(line: string)        // `int(line.split(" ")[0])` raises ValueError
    | UnknownNewClass(name: string)   // `all_cls.index(new_str)` raises ValueError
    | NoClassList                     // a text label met with an empty class list

  // ---------------------------------------------------------------------------
  // Text labels
  // ---------------------------------------------------------------------------

  /** `int(line.split(" ")[0])`: the class id at the head of a label line. */
  function ClassOf(line: string): Option<int> {
    ParseInt(SplitOn(line, ' ')[0])
  }

  /**
    `re.sub(f"^{old_id}", new_id, line, flags=re.MULTILINE)` on a line that
    holds no line break, so that `^` can only match at its start.
   */
  function RenamePrefix(line: string, oldId: nat, newId: nat): string {
    var p := NatToString(oldId);
    if |p| <= |line| && line[..|p|] == p then NatToString(newId) + line[|p|..] else line
  }

  /**
    What one stripped line contributes to `new_lines`: itself, nothing (a
    deleted line), its renamed form, or the error the loop raises on it.
   */
  function LineStep(line: string, oldId: nat, newName: Option<string>, allCls: seq<string>): Result<Option<string>, ModifyError> {
    match ClassOf(line)
    case None => Err(BadClassId(line))
    case Some(c) =>
      if c != oldId then Ok(Some(line))
      else
        match newName
        case None => Ok(None)
        case Some(n) =>
          match IndexOf(allCls, n)
          case None => Err(UnknownNewClass(n))
          case Some(newId) => Ok(Some(RenamePrefix(line, oldId, newId)))
  }

  function LineSteps(lines: seq<string>, oldId: nat, newName: Option<string>, allCls: seq<string>): (r: seq<Result<Option<string>, ModifyError>>)
    ensures |r| == |lines|
  {
    seq(|lines|, k requires 0 <= k < |lines| => LineStep(lines[k], oldId, newName, allCls))
  }

  /** The values of the present entries, in order. */
  function Present(outs: seq<Option<string>>): seq<string> {
    if outs == [] then []
    else
      var n := |outs|;
      var init := Present(outs[..n - 1]);
      match outs[n - 1]
      case None => init
      case Some(x) => init + [x]
  }

  /** The loop of `modify_txt` over already stripped, non-blank lines. */
  function NewLines(lines: seq<string>, oldName: string, newName: Option<string>, allCls: seq<string>): Result<seq<string>, ModifyError> {
    match IndexOf(allCls, oldName)
    case None => Err(UnknownOldClass(oldName))
    case Some(oldId) =>
      var outs :- AllOk(LineSteps(lines, oldId, newName, allCls));
      Ok(Present(outs))
  }

  /** `modify_txt`: the text written back for a file read as `fileLines`. */
  function ModifiedText(fileLines: seq<string>, oldName: string, newName: Option<string>, allCls: seq<string>): Result<string, ModifyError> {
    var newLines :- NewLines(StrippedLines(fileLines), oldName, newName, allCls);
    Ok(Join("\n", newLines))
  }

  /** `modify_txt`, written as the loop the source runs. */
  method ModifyTxt(fileLines: seq<string>, oldName: string, newName: Option<string>, allCls: seq<string>)
      returns (r: Result<string, ModifyError>)
    ensures r == ModifiedText(fileLines, oldName, newName, allCls)
  {
    var lines := StrippedLines(fileLines);
    var oldId := IndexOf(allCls, oldName);
    if oldId.None? {
      return Err(UnknownOldClass(oldName));
    }
    ghost var steps := LineSteps(lines, oldId.value, newName, allCls);
    ghost var outs: seq<Option<string>> := [];
    var newLines: seq<string> := [];
    for i := 0 to |lines|
      invariant AllOk(steps[..i]) == Ok(outs)
      invariant newLines == Present(outs)
    {
      var line := lines[i];
      var classId := ParseInt(SplitOn(line, ' ')[0]);
      assert steps[..i + 1][..i] == steps[..i];
      if classId.None? {
        assert steps[i] == Err(BadClassId(line));
        AllOkPrefixErr(steps, i + 1);
        return Err(BadClassId(line));
      }
      var out: Option<string>;
      if classId.value != oldId.value {
        out := Some(line);
      } else if newName.None? {
        out := None;
      } else {
        var newId := IndexOf(allCls, newName.value);
        if newId.None? {
          assert steps[i] == Err(UnknownNewClass(newName.value));
          AllOkPrefixErr(steps, i + 1);
          return Err(UnknownNewClass(newName.value));
        }
        out := Some(RenamePrefix(line, oldId.value, newId.value));
      }
      assert steps[i] == Ok(out);
      assert (outs + [out])[..|outs|] == outs;
      outs := outs + [out];
      if out.Some? {
        newLines := newLines + [out.value];
      }
    }
    assert steps[..|lines|] == steps;
    return Ok(Join("\n", newLines));
  }

  /** A line the loop passes without raising. */
  predicate LineOk(line: string, oldId: nat, newName: Option<string>, allCls: seq<string>) {
    && ClassOf(line).Some?
    && (ClassOf(line) == Some(oldId) && newName.Some? ==> newName.value in allCls)
  }

  /** The error the loop raises on a line that is not `LineOk`. */
  function LineError(line: string, newName: Option<string>): ModifyError {
    if ClassOf(line).None? || newName.None? then BadClassId(line) else UnknownNewClass(newName.value)
  }

  /** Line `k` is the first the loop raises on. */
  predicate FirstBadLine(lines: seq<string>, oldId: nat, newName: Option<string>, allCls: seq<string>, k: nat)
    requires k < |lines|
  {
    !LineOk(lines[k], oldId, newName, allCls) && forall j :: 0 <= j < k ==> LineOk(lines[j], oldId, newName, allCls)
  }

  lemma LineStepOutcome(line: string, oldId: nat, newName: Option<string>, allCls: seq<string>)
    ensures var r := LineStep(line, oldId, newName, allCls);
      && (r.Ok? <==> LineOk(line, oldId, newName, allCls))
      && (r.Err? ==> r.error == LineError(line, newName))
  {
  }

  /**
    `modify_txt` fails iff `old_str` is not a class, or some line's first
    field is not an integer, or a line of the old class asks for a `new_str`
    that is not a class; the first such line decides the error. `new_str` is
    never looked up when no line has the old class.
   */
  lemma NewLinesOutcome(lines: seq<string>, oldName: string, newName: Option<string>, allCls: seq<string>)
    ensures var r := NewLines(lines, oldName, newName, allCls);
      && (oldName !in allCls ==> r == Err(UnknownOldClass(oldName)))
      && (oldName in allCls ==> var oldId := IndexOf(allCls, oldName).value;
        && (r.Ok? <==> forall k :: 0 <= k < |lines| ==> LineOk(lines[k], oldId, newName, allCls))
        && (r.Err? ==> exists k :: 0 <= k < |lines| && FirstBadLine(lines, oldId, newName, allCls, k) && r.error == LineError(lines[k], newName)))
  {
    if oldName in allCls {
      var oldId := IndexOf(allCls, oldName).value;
      var steps := LineSteps(lines, oldId, newName, allCls);
      AllOkSpec(steps);
      forall k | 0 <= k < |lines|
        ensures (steps[k].Ok? <==> LineOk(lines[k], oldId, newName, allCls))
        ensures steps[k].Err? ==> steps[k].error == LineError(lines[k], newName)
      {
        LineStepOutcome(lines[k], oldId, newName, allCls);
      }
    }
  }

  /** Lines whose class is not `id`, in their original order. */
  function Survivors(lines: seq<string>, id: int): seq<string> {
    if lines == [] then []
    else
      var n := |lines|;
      var init := Survivors(lines[..n - 1], id);
      if ClassOf(lines[n - 1]) == Some(id) then init else init + [lines[n - 1]]
  }

  /** A survivor is a line of another class, and every line of another class survives. */
  lemma {:induction false} SurvivorsSpec(lines: seq<string>, id: int)
    ensures forall k :: 0 <= k < |Survivors(lines, id)| ==> ClassOf(Survivors(lines, id)[k]) != Some(id)
    ensures forall x :: x in Survivors(lines, id) <==> x in lines && ClassOf(x) != Some(id)
  {
    if lines != [] {
      var n := |lines|;
      SurvivorsSpec(lines[..n - 1], id);
      assert lines == lines[..n - 1] + [lines[n - 1]];
    }
  }

  lemma {:induction false} DeleteSteps(lines: seq<string>, oldId: nat, allCls: seq<string>)
    requires forall k :: 0 <= k < |lines| ==> ClassOf(lines[k]).Some?
    ensures var r := AllOk(LineSteps(lines, oldId, None, allCls));
      r.Ok? && Present(r.value) == Survivors(lines, oldId)
  {
    if lines != [] {
      var n := |lines|;
      var steps := LineSteps(lines, oldId, None, allCls);
      assert steps[..n - 1] == LineSteps(lines[..n - 1], oldId, None, allCls);
      DeleteSteps(lines[..n - 1], oldId, allCls);
      var init := AllOk(steps[..n - 1]).value;
      assert steps[n - 1] == LineStep(lines[n - 1], oldId, None, allCls);
      var last := steps[n - 1].value;
      assert AllOk(steps).value == init + [last];
      assert (init + [last])[..n - 1] == init;
    }
  }

  /**
    Deleting (`new_str` absent): every line of the old class goes, and the
    lines of every other class stay unchanged and in order.
   */
  lemma DeleteSpec(lines: seq<string>, oldName: string, allCls: seq<string>)
    requires oldName in allCls
    requires forall k :: 0 <= k < |lines| ==> ClassOf(lines[k]).Some?
    ensures var oldId := IndexOf(allCls, oldName).value;
      NewLines(lines, oldName, None, allCls) == Ok(Survivors(lines, oldId))
  {
    DeleteSteps(lines, IndexOf(allCls, oldName).value, allCls);
  }

  lemma {:induction false} PresentAllSome(outs: seq<Option<string>>)
    requires forall k :: 0 <= k < |outs| ==> outs[k].Some?
    ensures |Present(outs)| == |outs|
    ensures forall k :: 0 <= k < |outs| ==> Present(outs)[k] == outs[k].value
  {
    if outs != [] {
      PresentAllSome(outs[..|outs| - 1]);
    }
  }

  /**
    Renaming: the line count is unchanged; a line of another class is kept
    as it is, and a line of the old class gets its leading id replaced.
   */
  lemma RenameSpec(lines: seq<string>, oldName: string, newName: string, allCls: seq<string>)
    requires NewLines(lines, oldName, Some(newName), allCls).Ok?
    ensures oldName in allCls
    ensures var r := NewLines(lines, oldName, Some(newName), allCls).value;
      var oldId := IndexOf(allCls, oldName).value;
      && |r| == |lines|
      && forall k :: 0 <= k < |lines| ==>
        if ClassOf(lines[k]) == Some(oldId) then
          newName in allCls && r[k] == RenamePrefix(lines[k], oldId, IndexOf(allCls, newName).value)
        else r[k] == lines[k]
  {
    NewLinesOutcome(lines, oldName, Some(newName), allCls);
    var oldId := IndexOf(allCls, oldName).value;
    var steps := LineSteps(lines, oldId, Some(newName), allCls);
    AllOkSpec(steps);
    var outs := AllOk(steps).value;
    assert forall k :: 0 <= k < |outs| ==> outs[k] == steps[k].value;
    PresentAllSome(outs);
  }

  /**
    Renaming a line `old_id rest` gives `new_id rest`: the rest of the line is
    unchanged and the line's class becomes the new id.
   */
  lemma RenamePrefixFields(oldId: nat, newId: nat, rest: string)
    ensures var line := RenamePrefix(NatToString(oldId) + " " + rest, oldId, newId);
      line == NatToString(newId) + " " + rest && ClassOf(line) == Some(newId)
  {
    var p := NatToString(oldId);
    var line := p + " " + rest;
    assert line[..|p|] == p;
    assert line[|p|..] == " " + rest;
    assert NatToString(newId) + line[|p|..] == NatToString(newId) + " " + rest;
    ClassOfLeading(newId, rest);
  }

  /** A line `n rest` has class `n`. */
  lemma ClassOfLeading(n: nat, rest: string)
    ensures ClassOf(NatToString(n) + " " + rest) == Some(n)
  {
    var q := NatToString(n);
    assert ' ' !in q by {
      forall i | 0 <= i < |q| ensures q[i] != ' ' { assert IsDigit(q[i]); }
    }
    SplitOnFirst(q, ' ', rest);
    assert q + " " + rest == q + [' '] + rest;
    assert SplitOn(q + " " + rest, ' ')[0] == q;
    ParseIntOfNat(n);
  }

  /**
    The id is matched as a number but replaced as text: a line spelled with
    a leading zero has the old class yet is left as it is.
   */
  lemma RenameLeadingZero()
    ensures ClassOf("01 0.5") == Some(1)
    ensures RenamePrefix("01 0.5", 1, 2) == "01 0.5"
  {
    LeadingZeroClass();
    assert "01 0.5"[..1] == "0";
  }

  /** The id field of `01 0.5` is `01`, and `int("01")` is 1. */
  lemma LeadingZeroClass()
    ensures ClassOf("01 0.5") == Some(1)
  {
    SplitOnFirst("01", ' ', "0.5");
    assert "01" + [' '] + "0.5" == "01 0.5";
    LeadingZeroValue();
  }

  /** `int()` accepts the leading zero. */
  lemma LeadingZeroValue()
    ensures ParseInt("01") == Some(1)
  {
    PrintableNotSpace('0');
    PrintableNotSpace('1');
    ParseIntDigits("01");
  }

  /** A non-empty line with no line break in it. */
  predicate Clean(s: string) {
    s != "" && '\n' !in s
  }

  lemma StrippedClean(lines: seq<string>)
    requires forall k :: 0 <= k < |lines| ==> '\n' !in lines[k]
    ensures forall k :: 0 <= k < |StrippedLines(lines)| ==> Clean(StrippedLines(lines)[k])
  {
    var r := StrippedLines(lines);
    forall k | 0 <= k < |r| ensures Clean(r[k]) {
      StrippedLinesMember(lines, r[k]);
      var j :| 0 <= j < |lines| && Strip(lines[j]) == r[k];
      StripSlice(lines[j]);
    }
  }

  /** Stripping only cuts off the ends. */
  lemma StripSlice(s: string)
    ensures exists a, b :: 0 <= a <= b <= |s| && Strip(s) == s[a..b]
  {
    var l := TrimLeft(s);
    TrimLeftSpec(s);
    TrimRightSpec(l);
    var a := |s| - |l|;
    var t := Strip(s);
    assert t == l[..|t|];
    assert t == s[a..a + |t|];
  }

  lemma LineStepClean(line: string, oldId: nat, newName: Option<string>, allCls: seq<string>)
    requires Clean(line)
    ensures var r := LineStep(line, oldId, newName, allCls);
      r.Ok? && r.value.Some? ==> Clean(r.value.value)
  {
    var r := LineStep(line, oldId, newName, allCls);
    if r.Ok? && r.value.Some? && r.value.value != line {
      var newId := IndexOf(allCls, newName.value).value;
      var p := NatToString(oldId);
      var q := NatToString(newId);
      assert r.value.value == q + line[|p|..];
      assert forall i :: 0 <= i < |q| ==> IsDigit(q[i]);
      assert forall i :: 0 <= i < |line[|p|..]| ==> line[|p|..][i] == line[|p| + i];
    }
  }

  lemma {:induction false} PresentClean(outs: seq<Option<string>>)
    requires forall k :: 0 <= k < |outs| && outs[k].Some? ==> Clean(outs[k].value)
    ensures forall k :: 0 <= k < |Present(outs)| ==> Clean(Present(outs)[k])
  {
    if outs != [] {
      PresentClean(outs[..|outs| - 1]);
    }
  }

  /**
    The text written back holds the new lines separated by "\n", with no
    newline at the end: splitting it at line breaks gives the lines back,
    and an empty result leaves an empty file.
   */
  lemma ModifiedTextLines(fileLines: seq<string>, oldName: string, newName: Option<string>, allCls: seq<string>)
    requires forall k :: 0 <= k < |fileLines| ==> '\n' !in fileLines[k]
    requires ModifiedText(fileLines, oldName, newName, allCls).Ok?
    ensures var text := ModifiedText(fileLines, oldName, newName, allCls).value;
      var lines := NewLines(StrippedLines(fileLines), oldName, newName, allCls).value;
      && (lines == [] <==> text == "")
      && (lines != [] ==> SplitOn(text, '\n') == lines && text[|text| - 1] != '\n')
  {
    var stripped := StrippedLines(fileLines);
    StrippedClean(fileLines);
    var oldId := IndexOf(allCls, oldName).value;
    var steps := LineSteps(stripped, oldId, newName, allCls);
    AllOkSpec(steps);
    var outs := AllOk(steps).value;
    forall k | 0 <= k < |outs| && outs[k].Some? ensures Clean(outs[k].value) {
      assert outs[k] == steps[k].value;
      LineStepClean(stripped[k], oldId, newName, allCls);
    }
    PresentClean(outs);
    var lines := Present(outs);
    if lines != [] {
      SplitOnJoin(lines, '\n');
      JoinLast(lines);
    } else {
      assert Join("\n", lines) == "";
    }
  }

  lemma {:induction false} JoinLast(parts: seq<string>)
    requires parts != []
    requires forall k :: 0 <= k < |parts| ==> Clean(parts[k])
    ensures var t := Join("\n", parts); t != "" && t[|t| - 1] != '\n'
  {
    if |parts| > 1 {
      JoinLast(parts[1..]);
      var rest := Join("\n", parts[1..]);
      assert Join("\n", parts) == parts[0] + "\n" + rest;
    } else {
      var p := parts[0];
      assert p[|p| - 1] in p;
    }
  }

  // ---------------------------------------------------------------------------
  // LabelMe documents
  // ---------------------------------------------------------------------------

  /** `[shape for shape in shapes if shape["label"] != old_str]` */
  function Without(shapes: seq<Shape>, name: string): seq<Shape> {
    if shapes == [] then []
    else
      var n := |shapes|;
      var init := Without(shapes[..n - 1], name);
      if shapes[n - 1].name == name then init else init + [shapes[n - 1]]
  }

  /** The number of shapes with the given label. */
  function CountNamed(shapes: seq<Shape>, name: string): (c: nat)
    ensures c <= |shapes|
  {
    if shapes == [] then 0
    else
      var n := |shapes|;
      CountNamed(shapes[..n - 1], name) + (if shapes[n - 1].name == name then 1 else 0)
  }

  /**
    Deleting from a document removes exactly the shapes with the old label:
    none is left, every other shape is kept, nothing is added.
   */
  lemma {:induction false} WithoutSpec(shapes: seq<Shape>, name: string)
    ensures var r := Without(shapes, name);
      && (forall k :: 0 <= k < |r| ==> r[k].name != name)
      && (forall s :: s in r <==> s in shapes && s.name != name)
      && |r| == |shapes| - CountNamed(shapes, name)
  {
    if shapes != [] {
      var n := |shapes|;
      WithoutSpec(shapes[..n - 1], name);
      assert shapes == shapes[..n - 1] + [shapes[n - 1]];
    }
  }

  /** Each shape labelled `oldName` relabelled `newName`; nothing else touched. */
  function Renamed(shapes: seq<Shape>, oldName: string, newName: string): (r: seq<Shape>)
    ensures |r| == |shapes|
  {
    seq(|shapes|, k requires 0 <= k < |shapes| =>
      if shapes[k].name == oldName then shapes[k].(name := newName) else shapes[k])
  }

  /**
    After renaming, no shape keeps the old label, and the new label counts
    the shapes that had either label before.
   */
  lemma {:induction false} RenamedCounts(shapes: seq<Shape>, oldName: string, newName: string)
    requires oldName != newName
    ensures CountNamed(Renamed(shapes, oldName, newName), oldName) == 0
    ensures CountNamed(Renamed(shapes, oldName, newName), newName) ==
      CountNamed(shapes, newName) + CountNamed(shapes, oldName)
  {
    if shapes != [] {
      var n := |shapes|;
      assert Renamed(shapes, oldName, newName)[..n - 1] == Renamed(shapes[..n - 1], oldName, newName);
      RenamedCounts(shapes[..n - 1], oldName, newName);
    }
  }

  /** Renaming changes labels only: points, group, type and flags stay. */
  lemma RenamedKeepsGeometry(shapes: seq<Shape>, oldName: string, newName: string, k: nat)
    requires k < |shapes|
    ensures var s := Renamed(shapes, oldName, newName)[k];
      && s.points == shapes[k].points && s.groupId == shapes[k].groupId
      && s.shapeType == shapes[k].shapeType && s.flags == shapes[k].flags
      && (shapes[k].name != oldName ==> s == shapes[k])
  {
  }

  /** `modify_json` on a loaded document: the delete filter, or the in-place rename loop. */
  method ModifyJson(doc: Document, oldName: string, newName: Option<string>)
    modifies doc`shapes
    ensures newName.None? ==> doc.shapes == Without(old(doc.shapes), oldName)
    ensures newName.Some? ==> doc.shapes == Renamed(old(doc.shapes), oldName, newName.value)
  {
    if newName.None? {
      doc.shapes := Without(doc.shapes, oldName);
    }
    if newName.Some? {
      ghost var before := doc.shapes;
      for i := 0 to |doc.shapes|
        invariant |doc.shapes| == |before|
        invariant forall k :: 0 <= k < i ==> doc.shapes[k] == Renamed(before, oldName, newName.value)[k]
        invariant forall k :: i <= k < |before| ==> doc.shapes[k] == before[k]
      {
        if doc.shapes[i].name == oldName {
          doc.shapes := doc.shapes[i := doc.shapes[i].(name := newName.value)];
        }
      }
      assert doc.shapes == Renamed(before, oldName, newName.value);
    }
  }

  // ---------------------------------------------------------------------------
  // The directory run
  // ---------------------------------------------------------------------------

  /** One entry of the label directory, by suffix. */
  datatype LabelEntry =
    | TxtFile(stem: string, lines: seq<string>)
    | JsonFile(stem: string, shapes: seq<Shape>)
    | OtherFile(stem: string)

  /** A file written back: the new text of a label, or the new shape list of a document. */
  datatype Rewrite =
    | TxtWrite(stem: string, text: string)
    | JsonWrite(stem: string, shapes: seq<Shape>)

  /** `all_cls`: the stripped non-blank lines of the class file, or none without one. */
  function ClassList(clsLines: Option<seq<string>>): seq<string> {
    match clsLines
    case None => []
    case Some(ls) => StrippedLines(ls)
  }

  /** What the loop does with one directory entry. */
  function EntryStep(e: LabelEntry, oldName: string, newName: Option<string>, allCls: seq<string>): Result<Option<Rewrite>, ModifyError> {
    match e
    case TxtFile(stem, lines) =>
      if stem == "classes" then Ok(None)
      else if allCls == [] then Err(NoClassList)
      else
        var text :- ModifiedText(lines, oldName, newName, allCls);
        Ok(Some(TxtWrite(stem, text)))
    case JsonFile(stem, shapes) =>
      Ok(Some(JsonWrite(stem, if newName.None? then Without(shapes, oldName) else Renamed(shapes, oldName, newName.value))))
    case OtherFile(_) => Ok(None)
  }

  /** The files written, in order, and the error that stopped the run if one did. */
  datatype Outcome = Outcome(writes: seq<Rewrite>, failure: Option<ModifyError>)

  function Run(entries: seq<LabelEntry>, oldName: string, newName: Option<string>, allCls: seq<string>): Outcome {
    if entries == [] then Outcome([], None)
    else
      var n := |entries|;
      var prev := Run(entries[..n - 1], oldName, newName, allCls);
      if prev.failure.Some? then prev
      else
        match EntryStep(entries[n - 1], oldName, newName, allCls)
        case Err(e) => Outcome(prev.writes, Some(e))
        case Ok(None) => prev
        case Ok(Some(w)) => Outcome(prev.writes + [w], None)
  }

  /** `modify_label` over the directory entries in the order they are listed. */
  method ModifyLabel(entries: seq<LabelEntry>, oldName: string, newName: Option<string>, clsLines: Option<seq<string>>)
      returns (writes: seq<Rewrite>, failure: Option<ModifyError>)
    ensures Outcome(writes, failure) == Run(entries, oldName, newName, ClassList(clsLines))
  {
    var allCls := ClassList(clsLines);
    writes := [];
    for i := 0 to |entries|
      invariant Run(entries[..i], oldName, newName, allCls) == Outcome(writes, None)
    {
      assert entries[..i + 1][..i] == entries[..i];
      var step: Result<Option<Rewrite>, ModifyError>;
      var e := entries[i];
      if e.TxtFile? {
        if e.stem == "classes" {
          step := Ok(None);
        } else if allCls == [] {
          step := Err(NoClassList);
        } else {
          var text := ModifyTxt(e.lines, oldName, newName, allCls);
          step := if text.Err? then Err(text.error) else Ok(Some(TxtWrite(e.stem, text.value)));
        }
      } else if e.JsonFile? {
        var doc := new Document.Template();
        doc.shapes := e.shapes;
        ModifyJson(doc, oldName, newName);
        step := Ok(Some(JsonWrite(e.stem, doc.shapes)));
      } else {
        step := Ok(None);
      }
      assert step == EntryStep(entries[i], oldName, newName, allCls);
      if step.Err? {
        RunAfterFailure(entries, i + 1, oldName, newName, allCls);
        return writes, Some(step.error);
      }
      if step.value.Some? {
        writes := writes + [step.value.value];
      }
    }
    assert entries[..|entries|] == entries;
    return writes, None;
  }

  /** Once a prefix of the entries fails, the later entries change nothing. */
  lemma {:induction false} RunAfterFailure(entries: seq<LabelEntry>, n: nat, oldName: string, newName: Option<string>, allCls: seq<string>)
    requires n <= |entries|
    requires Run(entries[..n], oldName, newName, allCls).failure.Some?
    ensures Run(entries, oldName, newName, allCls) == Run(entries[..n], oldName, newName, allCls)
  {
    if n < |entries| {
      var init := entries[..|entries| - 1];
      assert init[..n] == entries[..n];
      RunAfterFailure(init, n, oldName, newName, allCls);
    } else {
      assert entries[..n] == entries;
    }
  }

  /** The class file itself is never rewritten as a label. */
  predicate NoClassFileWrite(writes: seq<Rewrite>) {
    forall k :: 0 <= k < |writes| && writes[k].TxtWrite? ==> writes[k].stem != "classes"
  }

  lemma {:induction false} RunSkipsClassFile(entries: seq<LabelEntry>, oldName: string, newName: Option<string>, allCls: seq<string>)
    ensures NoClassFileWrite(Run(entries, oldName, newName, allCls).writes)
  {
    if entries != [] {
      var n := |entries|;
      RunSkipsClassFile(entries[..n - 1], oldName, newName, allCls);
      var prev := Run(entries[..n - 1], oldName, newName, allCls);
      var step := EntryStep(entries[n - 1], oldName, newName, allCls);
      if prev.failure.None? && step.Ok? && step.value.Some? {
        var w := step.value.value;
        assert w.TxtWrite? ==> w.stem != "classes";
        assert Run(entries, oldName, newName, allCls).writes == prev.writes + [w];
      } else {
        assert Run(entries, oldName, newName, allCls).writes == prev.writes;
      }
    }
  }

  /**
    Without a class list the run fails iff some text label other than the
    class file is met, and then with the missing-class-list error; documents
    never need the list.
   */
  lemma {:induction false} RunWithoutClassList(entries: seq<LabelEntry>, oldName: string, newName: Option<string>)
    ensures var failure := Run(entries, oldName, newName, []).failure;
      && (failure.Some? <==> exists k :: 0 <= k < |entries| && entries[k].TxtFile? && entries[k].stem != "classes")
      && (failure.Some? ==> failure == Some(NoClassList))
  {
    if entries != [] {
      var n := |entries|;
      var init := entries[..n - 1];
      RunWithoutClassList(init, oldName, newName);
      if exists k :: 0 <= k < n - 1 && init[k].TxtFile? && init[k].stem != "classes" {
        var k :| 0 <= k < n - 1 && init[k].TxtFile? && init[k].stem != "classes";
        assert entries[k] == init[k];
      }
      if exists k :: 0 <= k < n && entries[k].TxtFile? && entries[k].stem != "classes" {
        var k :| 0 <= k < n && entries[k].TxtFile? && entries[k].stem != "classes";
        if k < n - 1 { assert init[k] == entries[k]; }
      }
    }
  }
}
