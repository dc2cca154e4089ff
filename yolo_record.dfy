/**
  The YOLO label line that all three LabelMe-to-YOLO converters write:
  `f"{class_id} " + " ".join(formatted values) + "\n"`. The six-decimal
  formatting `f"{v:.6f}"` is a parameter `fmt6`; no decimal rounding is modelled.
 */
module YoloRecord {
  import opened Text

  /** Each value formatted by `fmt6`, in order. */
  function FormatFields(values: seq<real>, fmt6: real -> string): (fields: seq<string>)
    ensures |fields| == |values|
    ensures forall i :: 0 <= i < |values| ==> fields[i] == fmt6(values[i])
  {
    seq(|values|, i requires 0 <= i < |values| => fmt6(values[i]))
  }

  /** One record line: the class id in decimal, a space, the formatted values, a newline. */
  function RecordLine(classId: nat, values: seq<real>, fmt6: real -> string): string {
    NatToString(classId) + " " + Join(" ", FormatFields(values, fmt6)) + "\n"
  }

  /** A formatter whose output never holds a space, so every value is one field. */
  ghost predicate SpaceFree(fmt6: real -> string) {
    forall v :: ' ' !in fmt6(v)
  }

  /**
    The fields of a record line: the text before its newline, split at
    spaces, is the class id followed by one field per value, so the line
    has exactly `1 + |values|` fields.
   */
  lemma RecordLineFields(classId: nat, values: seq<real>, fmt6: real -> string)
    requires |values| >= 1
    requires SpaceFree(fmt6)
    ensures var line := RecordLine(classId, values, fmt6);
      line[|line| - 1] == '\n' &&
      SplitOn(line[..|line| - 1], ' ') == [NatToString(classId)] + FormatFields(values, fmt6)
  {
    var id := NatToString(classId);
    var fields := FormatFields(values, fmt6);
    var line := RecordLine(classId, values, fmt6);
    var parts := [id] + fields;
    assert ' ' !in id by {
      forall k | 0 <= k < |id| ensures id[k] != ' ' { assert IsDigit(id[k]); }
    }
    assert parts[1..] == fields;
    assert Join([' '], parts) == id + " " + Join(" ", fields);
    assert line[..|line| - 1] == Join([' '], parts);
    assert forall i :: 0 <= i < |parts| ==> ' ' !in parts[i] by {
      forall i | 0 <= i < |parts| ensures ' ' !in parts[i] {
        if i == 0 {
          assert parts[0] == id;
        } else {
          var v := values[i - 1];
          assert ' ' !in fmt6(v);
          assert parts[i] == fields[i - 1] == fmt6(v);
        }
      }
    }
    SplitOnJoin(parts, ' ');
  }
}
