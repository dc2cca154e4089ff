/**
  The pieces of Python's `str` and `list` behaviour that the label tools
  rely on, written out over `seq<char>`: `strip()`, `split()`, `split(c)`,
  `sep.join(...)`, `int(text)`, `str(n)` and `list.index(x)`.
 */
module Text {
  import opened Common

  /**
    `c.isspace()` restricted to ASCII: tab, line feed, vertical tab, form
    feed, carriage return, the four information separators and the space.
   */
  predicate IsSpace(c: char) {
    (9 <= c as int <= 13) || (28 <= c as int <= 32)
  }

  /** Digits, signs, underscores and the rule separator `:` are not white space. */
  lemma PrintableNotSpace(c: char)
    requires 33 <= c as int <= 126
    ensures !IsSpace(c)
  {
  }

  predicate NoSpace(s: string) {
    forall i :: 0 <= i < |s| ==> !IsSpace(s[i])
  }

  predicate AllSpace(s: string) {
    forall i :: 0 <= i < |s| ==> IsSpace(s[i])
  }

  /** `s.lstrip()` */
  function TrimLeft(s: string): (r: string)
    ensures |r| <= |s|
    ensures r == [] || !IsSpace(r[0])
  {
    if s != [] && IsSpace(s[0]) then TrimLeft(s[1..]) else s
  }

  /** `s.rstrip()` */
  function TrimRight(s: string): (r: string)
    ensures |r| <= |s|
  {
    if s != [] && IsSpace(s[|s| - 1]) then TrimRight(s[..|s| - 1]) else s
  }

  /** `lstrip` removes a run of white space from the front and nothing else. */
  lemma {:induction false} TrimLeftSpec(s: string)
    ensures var r := TrimLeft(s);
      r == s[|s| - |r|..] && AllSpace(s[..|s| - |r|])
  {
    if s != [] && IsSpace(s[0]) {
      TrimLeftSpec(s[1..]);
      var r := TrimLeft(s);
      assert s[..|s| - |r|] == [s[0]] + s[1..][..|s| - 1 - |r|];
    }
  }

  /** `rstrip` removes a run of white space from the back and nothing else. */
  lemma {:induction false} TrimRightSpec(s: string)
    ensures var r := TrimRight(s);
      && r == s[..|r|] && AllSpace(s[|r|..])
      && (r == [] || !IsSpace(r[|r| - 1]))
  {
    if s != [] && IsSpace(s[|s| - 1]) {
      var init := s[..|s| - 1];
      TrimRightSpec(init);
      var r := TrimRight(s);
      assert s[|r|..] == init[|r|..] + [s[|s| - 1]];
    }
  }

  /** `s.strip()` */
  function Strip(s: string): string {
    TrimRight(TrimLeft(s))
  }

  /** Strip leaves a string that neither starts nor ends with white space. */
  lemma StripEnds(s: string)
    ensures var t := Strip(s); t == [] || (!IsSpace(t[0]) && !IsSpace(t[|t| - 1]))
  {
    var l := TrimLeft(s);
    var t := TrimRight(l);
    TrimRightSpec(l);
    if t != [] {
      assert t == l[..|t|];
      assert t[0] == l[0];
    }
  }

  lemma StripNoSpace(s: string)
    requires NoSpace(s)
    ensures Strip(s) == s
  {
  }

  /** Length of the longest prefix of `t` that holds no white space. */
  function TokenLength(t: string): (k: nat)
    ensures k <= |t| && NoSpace(t[..k])
    ensures k < |t| ==> IsSpace(t[k])
  {
    if t == [] || IsSpace(t[0]) then 0 else 1 + TokenLength(t[1..])
  }

  /** `s.split()` with no argument: the maximal runs of non-white-space characters. */
  function SplitWs(s: string): (r: seq<string>)
    ensures forall i :: 0 <= i < |r| ==> r[i] != [] && NoSpace(r[i])
    decreases |s|
  {
    var t := TrimLeft(s);
    if t == [] then []
    else
      var k := TokenLength(t);
      [t[..k]] + SplitWs(t[k..])
  }

  /** `sep.join(parts)` */
  function Join(sep: string, parts: seq<string>): string {
    if |parts| == 0 then ""
    else if |parts| == 1 then parts[0]
    else parts[0] + sep + Join(sep, parts[1..])
  }

  /** `[line.strip() for line in f if line.strip()]` */
  function StrippedLines(lines: seq<string>): (r: seq<string>)
    ensures |r| <= |lines|
    ensures forall i :: 0 <= i < |r| ==> r[i] != ""
  {
    if lines == [] then []
    else
      var t := Strip(lines[0]);
      if t == "" then StrippedLines(lines[1..]) else [t] + StrippedLines(lines[1..])
  }

  /** A text is kept exactly when some line strips down to it and it is not empty. */
  lemma {:induction false} StrippedLinesMember(lines: seq<string>, x: string)
    ensures x in StrippedLines(lines) <==> x != "" && exists j :: 0 <= j < |lines| && Strip(lines[j]) == x
  {
    if lines != [] {
      StrippedLinesMember(lines[1..], x);
      if x != "" && (exists j :: 0 <= j < |lines| && Strip(lines[j]) == x) {
        var j :| 0 <= j < |lines| && Strip(lines[j]) == x;
        if j > 0 { assert Strip(lines[1..][j - 1]) == x; }
      }
      if exists j :: 0 <= j < |lines[1..]| && Strip(lines[1..][j]) == x {
        var j :| 0 <= j < |lines[1..]| && Strip(lines[1..][j]) == x;
        assert Strip(lines[j + 1]) == x;
      }
    }
  }

  /** `s.split(sep)` for a one-character separator; never empty. */
  function SplitOn(s: string, sep: char): (r: seq<string>)
    ensures |r| >= 1
    ensures forall i :: 0 <= i < |r| ==> sep !in r[i]
  {
    if s == [] then [""]
    else
      var rest := SplitOn(s[1..], sep);
      if s[0] == sep then [""] + rest
      else [[s[0]] + rest[0]] + rest[1..]
  }

  /** Splitting and re-joining with the same separator gives the text back. */
  lemma {:induction false} JoinSplitOn(s: string, sep: char)
    ensures Join([sep], SplitOn(s, sep)) == s
  {
    if s != [] {
      var rest := SplitOn(s[1..], sep);
      JoinSplitOn(s[1..], sep);
      if s[0] == sep {
        assert SplitOn(s, sep)[1..] == rest;
        if |rest| == 1 {
          assert Join([sep], SplitOn(s, sep)) == "" + [sep] + rest[0];
        }
        assert s == [s[0]] + s[1..];
      } else {
        var r := SplitOn(s, sep);
        assert r[1..] == rest[1..];
        if |rest| == 1 {
          assert Join([sep], r) == [s[0]] + rest[0];
        } else {
          assert Join([sep], rest) == rest[0] + [sep] + Join([sep], rest[1..]);
          assert Join([sep], r) == [s[0]] + rest[0] + [sep] + Join([sep], rest[1..]);
        }
        assert s == [s[0]] + s[1..];
      }
    }
  }

  /** A text that holds no separator splits into itself alone. */
  lemma {:induction false} SplitOnNone(s: string, sep: char)
    requires sep !in s
    ensures SplitOn(s, sep) == [s]
  {
    if s != [] {
      assert sep !in s[1..] by {
        forall i | 0 <= i < |s[1..]| ensures s[1..][i] != sep { assert s[1..][i] == s[i + 1]; }
      }
      SplitOnNone(s[1..], sep);
      assert [s[0]] + s[1..] == s;
    }
  }

  /** Splitting `a + [sep] + b` where `a` holds no separator. */
  lemma {:induction false} SplitOnFirst(a: string, sep: char, b: string)
    requires sep !in a
    ensures SplitOn(a + [sep] + b, sep) == [a] + SplitOn(b, sep)
  {
    if a == [] {
      assert a + [sep] + b == [sep] + b;
      assert ([sep] + b)[1..] == b;
    } else {
      assert (a + [sep] + b)[1..] == a[1..] + [sep] + b;
      assert sep !in a[1..] by {
        forall i | 0 <= i < |a[1..]| ensures a[1..][i] != sep { assert a[1..][i] == a[i + 1]; }
      }
      SplitOnFirst(a[1..], sep, b);
      assert [a[0]] + a[1..] == a;
    }
  }

  /**
    Joining separator-free parts and splitting the result on the same
    separator gives the parts back: the field count of a joined record.
   */
  lemma {:induction false} SplitOnJoin(parts: seq<string>, sep: char)
    requires |parts| >= 1
    requires forall i :: 0 <= i < |parts| ==> sep !in parts[i]
    ensures SplitOn(Join([sep], parts), sep) == parts
  {
    if |parts| == 1 {
      SplitOnNone(parts[0], sep);
    } else {
      assert Join([sep], parts) == parts[0] + [sep] + Join([sep], parts[1..]);
      SplitOnFirst(parts[0], sep, Join([sep], parts[1..]));
      SplitOnJoin(parts[1..], sep);
      assert parts == [parts[0]] + parts[1..];
    }
  }

  /** `xs.index(x)`: the first position of `x`, or None where Python raises ValueError. */
  function IndexOf<T(==)>(xs: seq<T>, x: T): (r: Option<nat>)
    ensures r.None? <==> x !in xs
    ensures r.Some? ==> r.value < |xs| && xs[r.value] == x && x !in xs[..r.value]
  {
    if xs == [] then None
    else if xs[0] == x then Some(0)
    else
      match IndexOf(xs[1..], x)
      case None => None
      case Some(i) =>
        assert xs[..i + 1] == [xs[0]] + xs[1..][..i];
        Some(i + 1)
  }

  predicate IsDigit(c: char) { 48 <= c as int <= 57 }

  function DigitValue(c: char): (d: nat)
    requires IsDigit(c)
    ensures d < 10
  {
    c as int - 48
  }

  function DigitChar(d: nat): (c: char)
    requires d < 10
    ensures IsDigit(c) && DigitValue(c) == d
  {
    (48 + d) as char
  }

  /** `str(n)` for a non-negative integer: its decimal digits, no leading zero. */
  function NatToString(n: nat): (s: string)
    ensures s != [] && forall i :: 0 <= i < |s| ==> IsDigit(s[i])
    ensures |s| > 1 ==> s[0] != '0'
  {
    if n < 10 then [DigitChar(n)] else NatToString(n / 10) + [DigitChar(n % 10)]
  }

  /** `str(i)` for any integer. */
  function IntToString(i: int): string {
    if i < 0 then "-" + NatToString(-i) else NatToString(i)
  }

  /** The value of a run of digits and underscores, the underscores ignored. */
  function DigitsValue(b: string): nat
    requires forall i :: 0 <= i < |b| ==> IsDigit(b[i]) || b[i] == '_'
  {
    if b == [] then 0
    else if b[|b| - 1] == '_' then DigitsValue(b[..|b| - 1])
    else DigitsValue(b[..|b| - 1]) * 10 + DigitValue(b[|b| - 1])
  }

  /** The digit part Python's `int()` accepts: digits, single underscores only between digits. */
  predicate WellFormedDigits(b: string) {
    && b != []
    && IsDigit(b[0]) && IsDigit(b[|b| - 1])
    && (forall i :: 0 <= i < |b| ==> IsDigit(b[i]) || b[i] == '_')
    && (forall i :: 0 <= i < |b| - 1 ==> !(b[i] == '_' && b[i + 1] == '_'))
  }

  /**
    `int(text)` for a text argument: white space around, an optional sign,
    then base-10 digits with single underscores between them. None where
    Python raises ValueError. A blank text is rejected, and the value is
    negative only after a minus sign.
   */
  function ParseInt(s: string): (r: Option<int>)
    ensures Strip(s) == [] ==> r.None?
    ensures r.Some? && Strip(s) != [] ==>
      (Strip(s)[0] == '-' ==> r.value <= 0) && (Strip(s)[0] != '-' ==> r.value >= 0)
  {
    ParseSigned(Strip(s))
  }

  /**
    The texts `int()` accepts: once stripped, an optional sign and then
    base-10 digits with single underscores between them.
   */
  lemma ParseIntAccepts(s: string)
    ensures var t := Strip(s);
      ParseInt(s).Some? <==> t != [] && WellFormedDigits(if t[0] == '-' || t[0] == '+' then t[1..] else t)
  {
  }

  /** `int()` of an already stripped text. */
  function ParseSigned(t: string): Option<int> {
    if t == [] then None
    else if t[0] == '-' then ParseDigits(t[1..], true)
    else if t[0] == '+' then ParseDigits(t[1..], false)
    else ParseDigits(t, false)
  }

  function ParseDigits(body: string, negative: bool): Option<int> {
    if !WellFormedDigits(body) then None
    else
      var v: int := DigitsValue(body);
      Some(if negative then -v else v)
  }

  lemma {:induction false} DigitsValueOfNat(n: nat)
    ensures DigitsValue(NatToString(n)) == n
  {
    var s := NatToString(n);
    if n >= 10 {
      var p := NatToString(n / 10);
      assert s[..|s| - 1] == p;
      DigitsValueOfNat(n / 10);
    }
  }

  lemma NatToStringWellFormed(n: nat)
    ensures WellFormedDigits(NatToString(n)) && NoSpace(NatToString(n))
  {
    var d := NatToString(n);
    forall k | 0 <= k < |d| ensures !IsSpace(d[k]) && d[k] != '_' {
      assert IsDigit(d[k]);
      PrintableNotSpace(d[k]);
    }
  }

  /** `int` of a bare run of digits is its value. */
  lemma ParseIntDigits(d: string)
    requires WellFormedDigits(d) && NoSpace(d)
    ensures ParseInt(d) == Some(DigitsValue(d) as int)
  {
    StripNoSpace(d);
    assert d[0] != '-' && d[0] != '+';
  }

  /** `int` of a minus sign followed by a run of digits is the negated value. */
  lemma ParseIntMinusDigits(d: string)
    requires WellFormedDigits(d) && NoSpace(d)
    ensures ParseInt("-" + d) == Some(-(DigitsValue(d) as int))
  {
    var s := "-" + d;
    assert NoSpace(s) by {
      forall k | 0 <= k < |s| ensures !IsSpace(s[k]) {
        if k > 0 { assert s[k] == d[k - 1]; } else { PrintableNotSpace('-'); }
      }
    }
    StripNoSpace(s);
    assert s[0] == '-' && s[1..] == d;
    assert ParseSigned(s) == ParseDigits(d, true);
  }

  /** `int(str(i)) == i`: decimal printing and parsing round-trip. */
  lemma ParseIntToString(i: int)
    ensures ParseInt(IntToString(i)) == Some(i)
  {
    if i < 0 {
      ParseIntOfNegative(i);
    } else {
      ParseIntOfNat(i);
    }
  }

  lemma ParseIntOfNat(n: nat)
    ensures ParseInt(IntToString(n)) == Some(n)
  {
    var d := NatToString(n);
    NatToStringWellFormed(n);
    DigitsValueOfNat(n);
    ParseIntDigits(d);
  }

  lemma ParseIntOfNegative(i: int)
    requires i < 0
    ensures ParseInt(IntToString(i)) == Some(i)
  {
    var n: nat := -i;
    var d := NatToString(n);
    NatToStringWellFormed(n);
    DigitsValueOfNat(n);
    ParseIntMinusDigits(d);
    assert IntToString(i) == "-" + d;
  }

  lemma NoColonInIntToString(i: int)
    ensures ':' !in IntToString(i)
  {
    var d := NatToString(if i < 0 then -i else i);
    assert ':' !in d by {
      forall k | 0 <= k < |d| ensures d[k] != ':' { assert IsDigit(d[k]); }
    }
  }
}
