/**
  Finding images without usable labels: an image with neither a `.txt` nor
  a `.json` label goes to the "single" category, an image whose label is
  empty or invalid goes, with its label, to the "nolabel" category. The
  mode chooses which categories are collected.
 */
module FindUnlabeledData {
  import opened Common
  import opened Text
  import opened LabelMe

  // ---------------------------------------------------------------------------
  // Label content
  // ---------------------------------------------------------------------------

  /** What `json.load` and `data.get("shapes", [])` make of a `.json` label. */
  datatype JsonLabel =
    | Unparsable                     // `json.JSONDecodeError`
    | ShapesMissing                  // no `shapes` key: the default `[]`
    | ShapeList(shapes: seq<Shape>)

  /** A label file as `is_nolabel_file` finds it. */
  datatype LabelData =
    | Absent                         // the file does not exist
    | Blank                          // `st_size == 0`
    | TxtText(lines: seq<string>)    // a non-empty `.txt` file, read line by line
    | JsonText(doc: JsonLabel)       // a non-empty `.json` file
    | Unreadable                     // `UnicodeDecodeError` or `OSError` while reading
    | OtherSuffix                    // a non-empty file with any other suffix

  /**
    `is_nolabel_file`: true for a label that is missing, empty or invalid.
    A document label is unlabeled iff it cannot be parsed or has no shapes;
    a missing, empty or unreadable file is unlabeled and a file of another
    kind is not.
   */
  predicate IsNoLabelFile(d: LabelData): (r: bool)
    ensures d.JsonText? ==> (r <==> !d.doc.ShapeList? || d.doc.shapes == [])
    ensures d.Absent? || d.Blank? || d.Unreadable? ==> r
    ensures d.OtherSuffix? ==> !r
  {
    match d
    case Absent => true
    case Blank => true
    case TxtText(fileLines) =>
      var lines := StrippedLines(fileLines);
      lines == [] || exists i :: 0 <= i < |lines| && |SplitWs(lines[i])| < 5
    case JsonText(doc) =>
      (match doc
       case Unparsable => true
       case ShapesMissing => true
       case ShapeList(shapes) => shapes == [])
    case Unreadable => true
    case OtherSuffix => false
  }

  /** A blank line: one that strips to nothing. */
  predicate BlankLine(line: string) {
    Strip(line) == ""
  }

  /** A non-blank line with fewer than the five fields `class x y w h`. */
  predicate ShortLine(line: string) {
    Strip(line) != "" && |SplitWs(Strip(line))| < 5
  }

  /**
    A text label is unlabeled iff all its lines are blank, or some non-blank
    line has fewer than five white-space separated fields.
   */
  lemma NoLabelTxt(fileLines: seq<string>)
    ensures IsNoLabelFile(TxtText(fileLines)) <==>
      (forall j :: 0 <= j < |fileLines| ==> BlankLine(fileLines[j])) ||
      (exists j :: 0 <= j < |fileLines| && ShortLine(fileLines[j]))
  {
    var lines := StrippedLines(fileLines);
    if lines != [] {
      StrippedLinesMember(fileLines, lines[0]);
      var j :| 0 <= j < |fileLines| && Strip(fileLines[j]) == lines[0];
      assert !BlankLine(fileLines[j]);
    } else {
      forall j | 0 <= j < |fileLines| ensures BlankLine(fileLines[j]) {
        StrippedLinesMember(fileLines, Strip(fileLines[j]));
      }
    }
    if exists i :: 0 <= i < |lines| && |SplitWs(lines[i])| < 5 {
      var i :| 0 <= i < |lines| && |SplitWs(lines[i])| < 5;
      StrippedLinesMember(fileLines, lines[i]);
      var j :| 0 <= j < |fileLines| && Strip(fileLines[j]) == lines[i];
      assert ShortLine(fileLines[j]);
    }
    if exists j :: 0 <= j < |fileLines| && ShortLine(fileLines[j]) {
      var j :| 0 <= j < |fileLines| && ShortLine(fileLines[j]);
      StrippedLinesMember(fileLines, Strip(fileLines[j]));
      var i :| 0 <= i < |lines| && lines[i] == Strip(fileLines[j]);
    }
  }

  // ---------------------------------------------------------------------------
  // File names
  // ---------------------------------------------------------------------------

  /** `IMAGE_FORMATS` */
  const ImageFormats: set<string> := {".bmp", ".dng", ".jpeg", ".jpg", ".mpo", ".png", ".tif", ".tiff", ".webp", ".pfm"}

  /** `str.rfind(c)`: the last position of `c`, if any. */
  function RFind(s: string, c: char): (r: Option<nat>)
    ensures r.None? ==> c !in s
    ensures r.Some? ==> r.value < |s| && s[r.value] == c
  {
    if s == [] then None
    else if s[|s| - 1] == c then Some(|s| - 1)
    else RFind(s[..|s| - 1], c)
  }

  /** No `c` follows the position `RFind` returns. */
  lemma {:induction false} RFindLast(s: string, c: char)
    requires RFind(s, c).Some?
    ensures forall k :: RFind(s, c).value < k < |s| ==> s[k] != c
  {
    if s[|s| - 1] != c {
      RFindLast(s[..|s| - 1], c);
    }
  }

  /** `Path.suffix`: from the last dot on, unless the dot starts or ends the name. */
  function Suffix(name: string): string {
    match RFind(name, '.')
    case Some(i) => if 0 < i < |name| - 1 then name[i..] else ""
    case None => ""
  }

  /** `Path.stem`: the name without its suffix. */
  function Stem(name: string): string {
    match RFind(name, '.')
    case Some(i) => if 0 < i < |name| - 1 then name[..i] else name
    case None => name
  }

  /**
    A name is its stem followed by its suffix; a non-empty suffix is a dot
    and at least one more character, none of them a dot, after a non-empty stem.
   */
  lemma StemSuffix(name: string)
    ensures Stem(name) + Suffix(name) == name
    ensures Suffix(name) != "" ==> var x := Suffix(name);
      && |x| >= 2 && x[0] == '.' && Stem(name) != ""
      && forall k :: 1 <= k < |x| ==> x[k] != '.'
  {
    var r := RFind(name, '.');
    if r.Some? {
      RFindLast(name, '.');
      var i := r.value;
      assert name[..i] + name[i..] == name;
      if 0 < i < |name| - 1 {
        forall k | 1 <= k < |name[i..]| ensures name[i..][k] != '.' {
          assert name[i..][k] == name[i + k];
        }
      }
    }
  }

  /** `str.lower()` on ASCII letters. */
  function Lower(s: string): (r: string)
    ensures |r| == |s|
  {
    seq(|s|, i requires 0 <= i < |s| => if 'A' <= s[i] <= 'Z' then (s[i] as int + 32) as char else s[i])
  }

  /** `f.suffix.lower() in IMAGE_FORMATS` */
  predicate IsImage(name: string) {
    Lower(Suffix(name)) in ImageFormats
  }

  /** The last dot of `a + "." + t` is the one before `t` when `t` has none. */
  lemma {:induction false} RFindAfter(a: string, t: string)
    requires '.' !in t
    ensures RFind(a + "." + t, '.') == Some(|a|)
  {
    if t != [] {
      var s := a + "." + t;
      var u := t[..|t| - 1];
      assert s[..|s| - 1] == a + "." + u;
      assert s[|s| - 1] == t[|t| - 1];
      assert '.' !in u by {
        forall i | 0 <= i < |u| ensures u[i] != '.' { assert u[i] == t[i]; }
      }
      RFindAfter(a, u);
    }
  }

  /** A name `a.t` with no dot in `t` has stem `a` and suffix `.t`. */
  lemma SuffixAfter(a: string, t: string)
    requires '.' !in t && a != "" && t != ""
    ensures Suffix(a + "." + t) == "." + t && Stem(a + "." + t) == a
  {
    RFindAfter(a, t);
    var s := a + "." + t;
    assert s[|a|..] == "." + t;
    assert s[..|a|] == a;
  }

  /**
    `a.t` is an image iff `.t`, lower-cased, is one of the image suffixes:
    the case of the suffix does not matter, and `a` may itself hold dots.
   */
  lemma IsImageAfter(a: string, t: string)
    requires '.' !in t && a != "" && t != ""
    ensures IsImage(a + "." + t) <==> Lower("." + t) in ImageFormats
  {
    SuffixAfter(a, t);
  }

  /** A label is not an image, and neither is a hidden file named `.jpg`: it has no suffix. */
  lemma NonImageSuffixes()
    ensures !IsImage("a.txt") && !IsImage(".jpg")
  {
    SuffixAfter("a", "txt");
    assert "a" + "." + "txt" == "a.txt";
    assert Lower(".txt") == ".txt";
    RFindAfter("", "jpg");
    assert "" + "." + "jpg" == ".jpg";
  }

  /** One entry of the image directory. */
  datatype Entry = Entry(name: string, isFile: bool)

  /** `f.is_file() and f.suffix.lower() in IMAGE_FORMATS` */
  predicate Selected(e: Entry) {
    e.isFile && IsImage(e.name)
  }

  /** `image_files`: the regular files with an image suffix, in listing order. */
  function ImageFiles(entries: seq<Entry>): seq<string> {
    if entries == [] then []
    else
      var n := |entries|;
      var init := ImageFiles(entries[..n - 1]);
      if Selected(entries[n - 1]) then init + [entries[n - 1].name] else init
  }

  /** Exactly the regular files with an image suffix are processed. */
  lemma {:induction false} ImageFilesSpec(entries: seq<Entry>, name: string)
    ensures name in ImageFiles(entries) <==>
      exists k :: 0 <= k < |entries| && entries[k].name == name && Selected(entries[k])
  {
    if entries != [] {
      var n := |entries|;
      var init := entries[..n - 1];
      ImageFilesSpec(init, name);
      if exists k :: 0 <= k < n - 1 && init[k].name == name && Selected(init[k]) {
        var k :| 0 <= k < n - 1 && init[k].name == name && Selected(init[k]);
        assert entries[k] == init[k];
      }
      if exists k :: 0 <= k < n && entries[k].name == name && Selected(entries[k]) {
        var k :| 0 <= k < n && entries[k].name == name && Selected(entries[k]);
        if k < n - 1 { assert init[k] == entries[k]; }
      }
    }
  }

  // ---------------------------------------------------------------------------
  // The per-image decision
  // ---------------------------------------------------------------------------

  datatype Mode = SingleMode | NoLabelMode | AllMode

  /** The two output categories. */
  datatype Bin = SingleBin | NoLabelBin

  /** One `move_or_copy` call: a file name and the category it goes to. */
  datatype Transfer = Transfer(file: string, bin: Bin)

  /** The categories the mode creates output directories for. */
  predicate Wants(mode: Mode, bin: Bin) {
    match bin
    case SingleBin => mode == SingleMode || mode == AllMode
    case NoLabelBin => mode == NoLabelMode || mode == AllMode
  }

  /**
    The contents a file of this name can have in the label directory.
    `LabelData` keeps `Absent` and `OtherSuffix` because `is_nolabel_file`
    itself handles a missing file and any other suffix, but the loop of
    `process_data` only reads `stem.txt` and `stem.json` files that exist,
    so in a well-formed directory it meets neither (`CheckedLabelFits`).
   */
  predicate FitsName(name: string, d: LabelData) {
    match d
    case Absent => false
    case Blank => true
    case Unreadable => true
    case TxtText(_) => Suffix(name) == ".txt"
    case JsonText(_) => Suffix(name) == ".json"
    case OtherSuffix => Suffix(name) != ".txt" && Suffix(name) != ".json"
  }

  /** A label directory whose every file holds what its name allows. */
  predicate WellFormedLabels(labels: map<string, LabelData>) {
    forall name :: name in labels ==> FitsName(name, labels[name])
  }

  /** The transfers made so far and the label directory as it now is. */
  datatype State = State(transfers: seq<Transfer>, labels: map<string, LabelData>)

  function TxtName(image: string): string { Stem(image) + ".txt" }
  function JsonName(image: string): string { Stem(image) + ".json" }

  /** The label file checked for an image that has one: the text label first. */
  function LabelFileOf(image: string, labels: map<string, LabelData>): string {
    if TxtName(image) in labels then TxtName(image) else JsonName(image)
  }

  /** A moved label leaves the label directory; a copied one stays. */
  function AfterTransfer(labels: map<string, LabelData>, file: string, copy: bool): map<string, LabelData> {
    if copy then labels else labels - {file}
  }

  /** One pass of the loop of `process_data`: the transfers for one image. */
  function Step(mode: Mode, copy: bool, image: string, labels: map<string, LabelData>): State {
    if TxtName(image) !in labels && JsonName(image) !in labels then
      State(if Wants(mode, SingleBin) then [Transfer(image, SingleBin)] else [], labels)
    else
      var file := LabelFileOf(image, labels);
      if IsNoLabelFile(labels[file]) && Wants(mode, NoLabelBin) then
        State([Transfer(image, NoLabelBin), Transfer(file, NoLabelBin)], AfterTransfer(labels, file, copy))
      else State([], labels)
  }

  /** The loop over the images, in order, each seeing the labels the earlier ones left. */
  function Run(mode: Mode, copy: bool, images: seq<string>, labels: map<string, LabelData>): State {
    if images == [] then State([], labels)
    else
      var n := |images|;
      var prev := Run(mode, copy, images[..n - 1], labels);
      var s := Step(mode, copy, images[n - 1], prev.labels);
      State(prev.transfers + s.transfers, s.labels)
  }

  /** The label names of an image are `stem.txt` and `stem.json`, with those suffixes. */
  lemma LabelNameSuffixes(image: string)
    requires IsImage(image)
    ensures Suffix(TxtName(image)) == ".txt" && Suffix(JsonName(image)) == ".json"
  {
    ImageStem(image);
    var stem := Stem(image);
    assert TxtName(image) == stem + "." + "txt";
    SuffixAfter(stem, "txt");
    assert JsonName(image) == stem + "." + "json";
    SuffixAfter(stem, "json");
  }

  /** An image has a suffix, so its stem is not empty. */
  lemma ImageStem(image: string)
    requires IsImage(image)
    ensures Stem(image) != ""
  {
    assert |Lower(Suffix(image))| == |Suffix(image)|;
    assert Suffix(image) != "";
    StemSuffix(image);
  }

  /**
    In a well-formed label directory, the label checked for an image exists
    and is empty, unreadable, or the text or document its own suffix names.
   */
  lemma CheckedLabelFits(image: string, labels: map<string, LabelData>)
    requires WellFormedLabels(labels) && IsImage(image)
    requires TxtName(image) in labels || JsonName(image) in labels
    ensures var file := LabelFileOf(image, labels);
      && file in labels && !labels[file].Absent? && !labels[file].OtherSuffix?
      && (labels[file].TxtText? ==> file == TxtName(image))
      && (labels[file].JsonText? ==> file == JsonName(image))
  {
    LabelNameSuffixes(image);
    var file := LabelFileOf(image, labels);
    assert FitsName(file, labels[file]);
  }

  /** The run only removes labels, so the label directory stays well-formed. */
  lemma RunKeepsWellFormed(mode: Mode, copy: bool, images: seq<string>, labels: map<string, LabelData>)
    requires WellFormedLabels(labels)
    ensures WellFormedLabels(Run(mode, copy, images, labels).labels)
  {
    RunLabels(mode, copy, images, labels);
  }

  /** The run over one more image extends the run by that image's step. */
  lemma RunLast(mode: Mode, copy: bool, images: seq<string>, labels: map<string, LabelData>, i: nat)
    requires i < |images|
    ensures var prev := Run(mode, copy, images[..i], labels);
      var s := Step(mode, copy, images[i], prev.labels);
      Run(mode, copy, images[..i + 1], labels) == State(prev.transfers + s.transfers, s.labels)
  {
    assert images[..i + 1][..i] == images[..i];
  }

  /**
    `process_data`, the categories looked up with `output_paths.get`: the
    transfers, the new label directory, `processed` and the number of images.
   */
  method ProcessData(mode: Mode, copy: bool, entries: seq<Entry>, labels: map<string, LabelData>)
      returns (transfers: seq<Transfer>, remaining: map<string, LabelData>, processed: nat, checked: nat)
    ensures var images := ImageFiles(entries);
      && State(transfers, remaining) == Run(mode, copy, images, labels)
      && processed == |transfers|
      && checked == |images|
  {
    var images := ImageFiles(entries);
    var outSingle := Wants(mode, SingleBin);
    var outNoLabel := Wants(mode, NoLabelBin);
    transfers := [];
    remaining := labels;
    processed := 0;
    for i := 0 to |images|
      invariant State(transfers, remaining) == Run(mode, copy, images[..i], labels)
      invariant processed == |transfers|
    {
      RunLast(mode, copy, images, labels, i);
      var image := images[i];
      ghost var step := Step(mode, copy, image, remaining);
      ghost var prevTransfers := transfers;
      var stem := Stem(image);
      var txtLabel := stem + ".txt";
      var jsonLabel := stem + ".json";
      var hasTxt := txtLabel in remaining;
      var hasJson := jsonLabel in remaining;
      if !(hasTxt || hasJson) {
        if outSingle {
          transfers := transfers + [Transfer(image, SingleBin)];
          processed := processed + 1;
        }
      } else {
        var labelFile := if hasTxt then txtLabel else jsonLabel;
        if IsNoLabelFile(remaining[labelFile]) && outNoLabel {
          transfers := transfers + [Transfer(image, NoLabelBin), Transfer(labelFile, NoLabelBin)];
          if !copy {
            remaining := remaining - {labelFile};
          }
          processed := processed + 2;
        }
      }
      assert transfers == prevTransfers + step.transfers && remaining == step.labels;
    }
    assert images[..|images|] == images;
    checked := |images|;
  }

  /** The text label decides whenever it exists: the document label is not read. */
  lemma StepPrefersTxt(mode: Mode, copy: bool, image: string, labels: map<string, LabelData>, d: LabelData)
    requires TxtName(image) in labels
    ensures Step(mode, copy, image, labels[JsonName(image) := d]).transfers == Step(mode, copy, image, labels).transfers
  {
    assert TxtName(image) != JsonName(image) by {
      assert |TxtName(image)| != |JsonName(image)|;
    }
  }

  /**
    The three outcomes for one image: an image with no label is transferred
    alone, an unlabeled one with its label file, and a labeled one not at all.
   */
  lemma StepOutcomes(mode: Mode, copy: bool, image: string, labels: map<string, LabelData>)
    ensures var s := Step(mode, copy, image, labels);
      var file := LabelFileOf(image, labels);
      && (TxtName(image) !in labels && JsonName(image) !in labels ==>
            (|s.transfers| == 1 <==> Wants(mode, SingleBin)) && s.labels == labels)
      && (file in labels && IsNoLabelFile(labels[file]) && Wants(mode, NoLabelBin) ==>
            s.transfers == [Transfer(image, NoLabelBin), Transfer(file, NoLabelBin)] &&
            (copy ==> s.labels == labels) && (!copy ==> file !in s.labels))
      && (file in labels && !IsNoLabelFile(labels[file]) ==> s.transfers == [] && s.labels == labels)
      && |s.transfers| <= 2
  {
  }

  /** Every transfer goes to a category the mode asks for. */
  lemma {:induction false} RunRespectsMode(mode: Mode, copy: bool, images: seq<string>, labels: map<string, LabelData>)
    ensures forall t :: t in Run(mode, copy, images, labels).transfers ==> Wants(mode, t.bin)
  {
    if images != [] {
      RunRespectsMode(mode, copy, images[..|images| - 1], labels);
    }
  }

  /**
    The label directory only loses files, and only when moving; every label
    left is unchanged.
   */
  lemma {:induction false} RunLabels(mode: Mode, copy: bool, images: seq<string>, labels: map<string, LabelData>)
    ensures var after := Run(mode, copy, images, labels).labels;
      && after.Keys <= labels.Keys
      && (forall f :: f in after ==> after[f] == labels[f])
      && (copy ==> after == labels)
  {
    if images != [] {
      RunLabels(mode, copy, images[..|images| - 1], labels);
    }
  }

  /** The transfers of a shorter run start the transfers of a longer one. */
  lemma {:induction false} RunPrefix(mode: Mode, copy: bool, images: seq<string>, labels: map<string, LabelData>, m: nat)
    requires m <= |images|
    ensures var t := Run(mode, copy, images, labels).transfers;
      var u := Run(mode, copy, images[..m], labels).transfers;
      |u| <= |t| && t[..|u|] == u
  {
    if m < |images| {
      var init := images[..|images| - 1];
      assert init[..m] == images[..m];
      RunPrefix(mode, copy, init, labels, m);
    } else {
      assert images[..m] == images;
    }
  }

  // ---------------------------------------------------------------------------
  // The loop as written: `output_paths[...]`
  // ---------------------------------------------------------------------------

  /** The run up to the first `output_paths` lookup that raised `KeyError`, and that key. */
  datatype Report = Report(state: State, missingKey: Option<string>)

  /** `output_paths[key]` raises `KeyError`: the key names a bin the mode does not create. */
  predicate Unwanted(mode: Mode, key: string) {
    || (key == "single" && !Wants(mode, SingleBin))
    || (key == "nolabel" && !Wants(mode, NoLabelBin))
  }

  /** One pass with `output_paths["single"]` and `output_paths["nolabel"]` looked up directly. */
  function StepAsWritten(mode: Mode, copy: bool, image: string, labels: map<string, LabelData>): Result<State, string> {
    if TxtName(image) !in labels && JsonName(image) !in labels then
      if !Wants(mode, SingleBin) then Err("single")
      else Ok(State([Transfer(image, SingleBin)], labels))
    else
      var file := LabelFileOf(image, labels);
      if IsNoLabelFile(labels[file]) then
        if !Wants(mode, NoLabelBin) then Err("nolabel")
        else Ok(State([Transfer(image, NoLabelBin), Transfer(file, NoLabelBin)], AfterTransfer(labels, file, copy)))
      else Ok(State([], labels))
  }

  /**
    The loop as written: it stops at the first pass that raises, and the
    key it raises for is a bin that the mode did not create.
   */
  function RunAsWritten(mode: Mode, copy: bool, images: seq<string>, labels: map<string, LabelData>): (r: Report)
    ensures r.missingKey.Some? ==> Unwanted(mode, r.missingKey.value)
  {
    if images == [] then Report(State([], labels), None)
    else
      var n := |images|;
      var prev := RunAsWritten(mode, copy, images[..n - 1], labels);
      if prev.missingKey.Some? then prev
      else
        match StepAsWritten(mode, copy, images[n - 1], prev.state.labels)
        case Err(key) => Report(prev.state, Some(key))
        case Ok(s) => Report(State(prev.state.transfers + s.transfers, s.labels), None)
  }

  /**
    `process_data` as written: the loop, then the clean-up list
    `[output_paths["single"], output_paths["nolabel"]]`, which needs both keys.
   */
  function ProcessDataAsWritten(mode: Mode, copy: bool, entries: seq<Entry>, labels: map<string, LabelData>): (r: Report)
    ensures r.missingKey.Some? ==> Unwanted(mode, r.missingKey.value)
    ensures r.state == RunAsWritten(mode, copy, ImageFiles(entries), labels).state
    ensures r.missingKey.None? ==> RunAsWritten(mode, copy, ImageFiles(entries), labels).missingKey.None? && Wants(mode, SingleBin) && Wants(mode, NoLabelBin)
  {
    var r := RunAsWritten(mode, copy, ImageFiles(entries), labels);
    if r.missingKey.None? && !Wants(mode, SingleBin) then Report(r.state, Some("single"))
    else if r.missingKey.None? && !Wants(mode, NoLabelBin) then Report(r.state, Some("nolabel"))
    else r
  }

  /** A pass that does not raise does what the corrected pass does. */
  lemma StepAsWrittenAgrees(mode: Mode, copy: bool, image: string, labels: map<string, LabelData>)
    ensures StepAsWritten(mode, copy, image, labels).Ok? ==>
      StepAsWritten(mode, copy, image, labels).value == Step(mode, copy, image, labels)
    ensures mode == AllMode ==> StepAsWritten(mode, copy, image, labels) == Ok(Step(mode, copy, image, labels))
  {
  }

  /** A run as written that does not raise ends in the corrected state. */
  lemma {:induction false} RunAsWrittenState(mode: Mode, copy: bool, images: seq<string>, labels: map<string, LabelData>)
    ensures var r := RunAsWritten(mode, copy, images, labels);
      r.missingKey.None? ==> r.state == Run(mode, copy, images, labels)
  {
    if images != [] {
      var n := |images|;
      var init := images[..n - 1];
      RunAsWrittenState(mode, copy, init, labels);
      var prev := RunAsWritten(mode, copy, init, labels);
      if prev.missingKey.None? {
        StepAsWrittenAgrees(mode, copy, images[n - 1], prev.state.labels);
      }
    }
  }

  /** In mode "all" the loop as written never raises. */
  lemma {:induction false} RunAsWrittenAll(copy: bool, images: seq<string>, labels: map<string, LabelData>)
    ensures RunAsWritten(AllMode, copy, images, labels).missingKey.None?
  {
    if images != [] {
      var n := |images|;
      var init := images[..n - 1];
      RunAsWrittenAll(copy, init, labels);
      var prev := RunAsWritten(AllMode, copy, init, labels);
      StepAsWrittenAgrees(AllMode, copy, images[n - 1], prev.state.labels);
    }
  }

  /** The transfers made before the loop as written raises start the corrected ones. */
  lemma {:induction false} RunAsWrittenPrefix(mode: Mode, copy: bool, images: seq<string>, labels: map<string, LabelData>)
    ensures var r := RunAsWritten(mode, copy, images, labels);
      var t := Run(mode, copy, images, labels).transfers;
      |r.state.transfers| <= |t| && t[..|r.state.transfers|] == r.state.transfers
  {
    if images != [] {
      var n := |images|;
      var init := images[..n - 1];
      var prev := RunAsWritten(mode, copy, init, labels);
      var r := RunAsWritten(mode, copy, images, labels);
      RunAsWrittenState(mode, copy, images, labels);
      if r.missingKey.Some? {
        RunAsWrittenPrefix(mode, copy, init, labels);
        RunPrefix(mode, copy, images, labels, n - 1);
        assert r.state == prev.state;
      }
    }
  }

  /**
    Until it raises, the loop as written makes the corrected transfers; the
    transfers it makes before raising start the corrected ones.
   */
  lemma RunAsWrittenAgrees(mode: Mode, copy: bool, images: seq<string>, labels: map<string, LabelData>)
    ensures var r := RunAsWritten(mode, copy, images, labels);
      var t := Run(mode, copy, images, labels).transfers;
      && (r.missingKey.None? ==> r.state == Run(mode, copy, images, labels))
      && |r.state.transfers| <= |t| && t[..|r.state.transfers|] == r.state.transfers
      && (mode == AllMode ==> r.missingKey.None?)
  {
    RunAsWrittenState(mode, copy, images, labels);
    RunAsWrittenPrefix(mode, copy, images, labels);
    if mode == AllMode {
      RunAsWrittenAll(copy, images, labels);
    }
  }

  /**
    As written, `process_data` raises `KeyError` in every mode but "all";
    in mode "all" it does what the corrected version does.
   */
  lemma AsWrittenFailsUnlessAll(mode: Mode, copy: bool, entries: seq<Entry>, labels: map<string, LabelData>)
    ensures var r := ProcessDataAsWritten(mode, copy, entries, labels);
      && (r.missingKey.None? <==> mode == AllMode)
      && (mode == AllMode ==> r.state == Run(mode, copy, ImageFiles(entries), labels))
  {
    RunAsWrittenAgrees(mode, copy, ImageFiles(entries), labels);
  }

  /** Mode "single" on an empty image directory already raises, at the clean-up. */
  lemma AsWrittenSingleEmpty()
    ensures ProcessDataAsWritten(SingleMode, false, [], map[]).missingKey == Some("nolabel")
    ensures ProcessDataAsWritten(NoLabelMode, false, [], map[]).missingKey == Some("single")
  {
  }
}
