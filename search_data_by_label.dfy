/**
  Rule-based label search: a label file's per-class counts are tested
  against `any`, `all`, `exact` and `total` rules, in that priority order.
  A rule is written `name`, `name:count` or `name:op:count`.
 */
module SearchDataByLabel {
  import opened Common
  import opened Text
  import opened LabelMe

  // ---------------------------------------------------------------------
  // Comparison operators

  /** The six comparisons of `OPERATOR_MAPPING`. */
  datatype Op = Gt | Eq | Lt | Ge | Ne | Le

  /** The symbol an operator is written with. */
  function Symbol(op: Op): string {
    match op
    case Gt => ">"
    case Eq => "="
    case Lt => "<"
    case Ge => ">="
    case Ne => "!="
    case Le => "<="
  }

  /** Lookup of a symbol in `OPERATOR_MAPPING`; None for any other text. */
  function OperatorOf(sym: string): (r: Option<Op>)
    ensures r.Some? <==> sym in [">", "=", "<", ">=", "!=", "<="]
  {
    if sym == ">" then Some(Gt)
    else if sym == "=" then Some(Eq)
    else if sym == "<" then Some(Lt)
    else if sym == ">=" then Some(Ge)
    else if sym == "!=" then Some(Ne)
    else if sym == "<=" then Some(Le)
    else None
  }

  /** The table maps exactly the six symbols, each to its own operator. */
  lemma OperatorTable(op: Op, sym: string)
    ensures OperatorOf(Symbol(op)) == Some(op)
    ensures OperatorOf(sym) == Some(op) ==> Symbol(op) == sym
  {
  }

  /** `OPERATOR_MAPPING[op](a, b)`. */
  function Apply(op: Op, a: int, b: int): bool {
    match op
    case Gt => a > b
    case Eq => a == b
    case Lt => a < b
    case Ge => a >= b
    case Ne => a != b
    case Le => a <= b
  }

  /** `!=` is the negation of `=`, `<=` of `>`, `>=` of `<`. */
  lemma ApplyNegations(a: int, b: int)
    ensures Apply(Ne, a, b) == !Apply(Eq, a, b)
    ensures Apply(Le, a, b) == !Apply(Gt, a, b)
    ensures Apply(Ge, a, b) == !Apply(Lt, a, b)
  {
  }

  // ---------------------------------------------------------------------
  // Rule parsing

  /** An operator and a threshold; the threshold is never negative. */
  datatype Rule = Rule(op: Op, count: int)

  datatype RuleError =
    | BadFormat(rule: string)                      // more than two `:`
    | BadOperator(rule: string, symbol: string)    // not a key of `OPERATOR_MAPPING`
    | BadCount(rule: string, countText: string)    // `int()` fails or the count is negative

  /** One rule string parsed: its class name and its rule. */
  function ParseRule(rule: string, defaultOp: string): (r: Result<(string, Rule), RuleError>)
    ensures r.Ok? ==> r.value.1.count >= 0
    ensures |SplitOn(rule, ':')| > 3 <==> r == Err(BadFormat(rule))
  {
    var parts := SplitOn(rule, ':');
    if |parts| > 3 then Err(BadFormat(rule))
    else
      var sym := if |parts| == 3 then parts[1] else defaultOp;
      match OperatorOf(sym)
      case None => Err(BadOperator(rule, sym))
      case Some(op) =>
        if |parts| == 1 then Ok((rule, Rule(op, 1)))
        else
          var countText := parts[|parts| - 1];
          match ParseInt(countText)
          case None => Err(BadCount(rule, countText))
          case Some(n) => if n < 0 then Err(BadCount(rule, countText)) else Ok((parts[0], Rule(op, n)))
  }

  /** The text of a rule in its three spellings: name only, name and count, or all three parts. */
  function RuleText(name: string, sym: Option<string>, count: Option<int>): string {
    match (sym, count)
    case (_, None) => name
    case (None, Some(n)) => name + ":" + IntToString(n)
    case (Some(s), Some(n)) => name + ":" + s + ":" + IntToString(n)
  }

  /** A rule written without a count has the default operator and count 1. */
  lemma ParseRuleNameOnly(name: string, defaultOp: string)
    requires ':' !in name
    requires OperatorOf(defaultOp).Some?
    ensures ParseRule(RuleText(name, None, None), defaultOp) == Ok((name, Rule(OperatorOf(defaultOp).value, 1)))
  {
    SplitOnNone(name, ':');
  }

  /** `name:count` has the default operator; a negative count is rejected. */
  lemma ParseRuleWithCount(name: string, defaultOp: string, n: int)
    requires ':' !in name
    requires OperatorOf(defaultOp).Some?
    ensures var r := ParseRule(RuleText(name, None, Some(n)), defaultOp);
      && (n >= 0 ==> r == Ok((name, Rule(OperatorOf(defaultOp).value, n))))
      && (n < 0 ==> r == Err(BadCount(RuleText(name, None, Some(n)), IntToString(n))))
  {
    var c := IntToString(n);
    NoColonInIntToString(n);
    SplitOnFirst(name, ':', c);
    SplitOnNone(c, ':');
    ParseIntToString(n);
  }

  /**
    `name:count` for any count text: the count is whatever `int()` makes of
    it, and a text `int()` rejects (`cat:abc`, `cat:1.5`) or a negative
    count gives BadCount.
   */
  lemma ParseRuleCountText(name: string, c: string, defaultOp: string)
    requires ':' !in name && ':' !in c
    requires OperatorOf(defaultOp).Some?
    ensures var text := name + ":" + c;
      var r := ParseRule(text, defaultOp);
      && (ParseInt(c).None? ==> r == Err(BadCount(text, c)))
      && (ParseInt(c).Some? && ParseInt(c).value < 0 ==> r == Err(BadCount(text, c)))
      && (ParseInt(c).Some? && ParseInt(c).value >= 0 ==> r == Ok((name, Rule(OperatorOf(defaultOp).value, ParseInt(c).value))))
  {
    SplitOnFirst(name, ':', c);
    SplitOnNone(c, ':');
  }

  /** A three-part rule text splits into its three parts. */
  lemma SplitThree(name: string, sym: string, c: string)
    requires ':' !in name && ':' !in sym && ':' !in c
    ensures SplitOn(name + ":" + sym + ":" + c, ':') == [name, sym, c]
  {
    assert name + ":" + sym + ":" + c == name + [':'] + (sym + [':'] + c);
    SplitOnFirst(name, ':', sym + [':'] + c);
    SplitOnFirst(sym, ':', c);
    SplitOnNone(c, ':');
  }

  /** `name:op:count` parses to its own operator and count; an unknown symbol is rejected. */
  lemma ParseRuleFull(name: string, sym: string, defaultOp: string, n: int)
    requires ':' !in name && ':' !in sym
    ensures var text := RuleText(name, Some(sym), Some(n));
      var r := ParseRule(text, defaultOp);
      && (OperatorOf(sym).None? ==> r == Err(BadOperator(text, sym)))
      && (OperatorOf(sym).Some? && n >= 0 ==> r == Ok((name, Rule(OperatorOf(sym).value, n))))
      && (OperatorOf(sym).Some? && n < 0 ==> r == Err(BadCount(text, IntToString(n))))
  {
    var c := IntToString(n);
    NoColonInIntToString(n);
    SplitThree(name, sym, c);
    ParseIntToString(n);
  }

  /**
    `name:op:count` for any count text: a known operator with a count text
    `int()` rejects (`cat:>:1.5`) or a negative count gives BadCount.
   */
  lemma ParseRuleFullText(name: string, sym: string, c: string, defaultOp: string)
    requires ':' !in name && ':' !in sym && ':' !in c
    ensures var text := name + ":" + sym + ":" + c;
      var r := ParseRule(text, defaultOp);
      && (OperatorOf(sym).None? ==> r == Err(BadOperator(text, sym)))
      && (OperatorOf(sym).Some? && ParseInt(c).None? ==> r == Err(BadCount(text, c)))
      && (OperatorOf(sym).Some? && ParseInt(c).Some? && ParseInt(c).value < 0 ==> r == Err(BadCount(text, c)))
      && (OperatorOf(sym).Some? && ParseInt(c).Some? && ParseInt(c).value >= 0 ==>
            r == Ok((name, Rule(OperatorOf(sym).value, ParseInt(c).value))))
  {
    SplitThree(name, sym, c);
  }

  /** Each rule of a list parsed on its own. */
  function ParseAll(rules: seq<string>, defaultOp: string): (r: seq<Result<(string, Rule), RuleError>>)
    ensures |r| == |rules|
  {
    seq(|rules|, i requires 0 <= i < |rules| => ParseRule(rules[i], defaultOp))
  }

  /**
    The dictionary built from parsed rules in order: the first error stops
    it, and a later rule for a class replaces an earlier one.
   */
  function Collect(parsed: seq<Result<(string, Rule), RuleError>>): (r: Result<map<string, Rule>, RuleError>)
  {
    if parsed == [] then Ok(map[])
    else
      var n := |parsed|;
      var init :- Collect(parsed[..n - 1]);
      var one :- parsed[n - 1];
      Ok(init[one.0 := one.1])
  }

  /** The rules of one mode: `parse_rule_pairs`. */
  function ParseRules(rules: seq<string>, defaultOp: string): Result<map<string, Rule>, RuleError> {
    Collect(ParseAll(rules, defaultOp))
  }

  /** Entry `i` is the first that failed. */
  predicate FirstBad(parsed: seq<Result<(string, Rule), RuleError>>, i: nat)
    requires i < |parsed|
  {
    parsed[i].Err? && forall j :: 0 <= j < i ==> parsed[j].Ok?
  }

  /** Entry `i` is the last to name its class. */
  predicate LastForName(parsed: seq<Result<(string, Rule), RuleError>>, i: nat)
    requires i < |parsed|
    requires forall j :: 0 <= j < |parsed| ==> parsed[j].Ok?
  {
    forall j :: i < j < |parsed| ==> parsed[j].value.0 != parsed[i].value.0
  }

  /**
    Collecting succeeds iff every entry parsed; otherwise the first failure
    gives the error.
   */
  lemma {:induction false} CollectOutcome(parsed: seq<Result<(string, Rule), RuleError>>)
    ensures var r := Collect(parsed);
      && (r.Ok? <==> forall j :: 0 <= j < |parsed| ==> parsed[j].Ok?)
      && (r.Err? ==> exists i :: 0 <= i < |parsed| && FirstBad(parsed, i) && r.error == parsed[i].error)
  {
    if parsed != [] {
      var n := |parsed|;
      var init := parsed[..n - 1];
      CollectOutcome(init);
      assert forall j :: 0 <= j < n - 1 ==> init[j] == parsed[j];
      var ri := Collect(init);
      if ri.Err? {
        var i :| 0 <= i < |init| && FirstBad(init, i) && ri.error == init[i].error;
        assert FirstBad(parsed, i);
      } else if parsed[n - 1].Err? {
        assert FirstBad(parsed, n - 1);
      }
    }
  }

  /**
    The classes of a collected dictionary are those the entries name, and
    each class keeps the entry written last for it.
   */
  lemma {:induction false} CollectContents(parsed: seq<Result<(string, Rule), RuleError>>)
    requires forall j :: 0 <= j < |parsed| ==> parsed[j].Ok?
    ensures Collect(parsed).Ok?
    ensures var m := Collect(parsed).value;
      && m.Keys == (set j | 0 <= j < |parsed| :: parsed[j].value.0)
      && forall i :: 0 <= i < |parsed| && LastForName(parsed, i) ==> m[parsed[i].value.0] == parsed[i].value.1
  {
    CollectOutcome(parsed);
    if parsed != [] {
      var n := |parsed|;
      var init := parsed[..n - 1];
      assert forall j :: 0 <= j < n - 1 ==> init[j] == parsed[j];
      CollectContents(init);
      var mi := Collect(init).value;
      var last := parsed[n - 1].value;
      var m := mi[last.0 := last.1];
      assert Collect(parsed) == Ok(m);
      var names := set j | 0 <= j < n :: parsed[j].value.0;
      assert m.Keys == names by {
        forall k | k in m.Keys ensures k in names {
          if k != last.0 {
            var j :| 0 <= j < n - 1 && init[j].value.0 == k;
            assert parsed[j].value.0 == k;
          }
        }
        forall k | k in names ensures k in m.Keys {
          var j :| 0 <= j < n && parsed[j].value.0 == k;
          if j < n - 1 {
            assert init[j].value.0 == k;
          }
        }
      }
      forall i | 0 <= i < n && LastForName(parsed, i) ensures m[parsed[i].value.0] == parsed[i].value.1 {
        if i < n - 1 {
          assert LastForName(init, i);
        }
      }
    }
  }

  /**
    A list of rules parses iff each rule does, and the first rule that fails
    gives the error; the dictionary holds the classes the rules name, each
    with the rule written last for it.
   */
  lemma ParseRulesSpec(rules: seq<string>, defaultOp: string)
    ensures var r := ParseRules(rules, defaultOp);
      var parsed := ParseAll(rules, defaultOp);
      && (forall j :: 0 <= j < |rules| ==> parsed[j] == ParseRule(rules[j], defaultOp))
      && (r.Ok? <==> forall j :: 0 <= j < |rules| ==> parsed[j].Ok?)
      && (r.Err? ==> exists i :: 0 <= i < |rules| && FirstBad(parsed, i) && r.error == parsed[i].error)
      && (r.Ok? ==> r.value.Keys == (set j | 0 <= j < |rules| :: parsed[j].value.0))
      && (r.Ok? ==> forall i :: 0 <= i < |rules| && LastForName(parsed, i) ==>
            r.value[parsed[i].value.0] == parsed[i].value.1)
  {
    var parsed := ParseAll(rules, defaultOp);
    CollectOutcome(parsed);
    if Collect(parsed).Ok? {
      CollectContents(parsed);
    }
  }

  /** After a failing prefix, collecting the whole list fails with the same error. */
  lemma {:induction false} CollectPrefixErr(parsed: seq<Result<(string, Rule), RuleError>>, n: nat)
    requires n <= |parsed|
    requires Collect(parsed[..n]).Err?
    ensures Collect(parsed) == Collect(parsed[..n])
  {
    if n < |parsed| {
      var init := parsed[..|parsed| - 1];
      assert init[..n] == parsed[..n];
      CollectPrefixErr(init, n);
    } else {
      assert parsed[..n] == parsed;
    }
  }

  /** One more rule that parses is added to the dictionary. */
  lemma CollectNext(parsed: seq<Result<(string, Rule), RuleError>>, i: nat)
    requires i < |parsed| && Collect(parsed[..i]).Ok? && parsed[i].Ok?
    ensures Collect(parsed[..i + 1]) == Ok(Collect(parsed[..i]).value[parsed[i].value.0 := parsed[i].value.1])
  {
    assert parsed[..i + 1][..i] == parsed[..i];
  }

  /** `parse_rule_pairs`: parse each rule in turn into a dictionary keyed by class. */
  method ParseRulePairs(rules: seq<string>, defaultOp: string) returns (r: Result<map<string, Rule>, RuleError>)
    ensures r == ParseRules(rules, defaultOp)
  {
    ghost var all := ParseAll(rules, defaultOp);
    var parsed: map<string, Rule> := map[];
    for i := 0 to |rules|
      invariant Collect(all[..i]) == Ok(parsed)
    {
      var one := ParseRule(rules[i], defaultOp);
      assert all[i] == one;
      if one.Err? {
        assert all[..i + 1][..i] == all[..i];
        CollectPrefixErr(all, i + 1);
        return Err(one.error);
      }
      CollectNext(all, i);
      parsed := parsed[one.value.0 := one.value.1];
    }
    assert all[..|rules|] == all;
    return Ok(parsed);
  }

  // ---------------------------------------------------------------------
  // Counting labels

  /** `label_counts.get(key, 0)`. */
  function Get(counts: map<string, int>, key: string): int {
    if key in counts then counts[key] else 0
  }

  /** The dictionary built by adding one to the count of each key in turn. */
  function Tally(keys: seq<string>): (m: map<string, int>)
  {
    if keys == [] then map[]
    else
      var t := Tally(keys[..|keys| - 1]);
      var k := keys[|keys| - 1];
      t[k := Get(t, k) + 1]
  }

  /**
    The counts are the number of occurrences: a key is present iff it
    occurs, and its count is how often it occurs.
   */
  lemma {:induction false} TallyCounts(keys: seq<string>, k: string)
    ensures k in Tally(keys) <==> k in keys
    ensures Get(Tally(keys), k) == multiset(keys)[k]
  {
    if keys != [] {
      var init := keys[..|keys| - 1];
      assert keys == init + [keys[|keys| - 1]];
      TallyCounts(init, k);
    }
  }

  /** One more occurrence of `k` adds one to its count and changes no other count. */
  lemma TallyAppend(keys: seq<string>, k: string)
    ensures var t := Tally(keys);
      Tally(keys + [k]) == t[k := Get(t, k) + 1]
  {
    assert (keys + [k])[..|keys|] == keys;
  }

  /** `line.strip().split()` for every line. */
  function Tokens(lines: seq<string>): (t: seq<seq<string>>)
    ensures |t| == |lines|
  {
    seq(|lines|, i requires 0 <= i < |lines| => SplitWs(Strip(lines[i])))
  }

  /** The first token of every line that has one. */
  function FirstTokens(tokens: seq<seq<string>>): (keys: seq<string>)
    ensures |keys| <= |tokens|
  {
    if tokens == [] then []
    else
      var n := |tokens|;
      var parts := tokens[n - 1];
      FirstTokens(tokens[..n - 1]) + (if parts == [] then [] else [parts[0]])
  }

  /** `shape.get('label', '').strip()` for every shape. */
  function Names(shapes: seq<Shape>): (names: seq<string>)
    ensures |names| == |shapes|
  {
    seq(|shapes|, i requires 0 <= i < |shapes| => Strip(shapes[i].name))
  }

  /** The non-empty names, in order. */
  function NonEmpty(names: seq<string>): (keys: seq<string>)
    ensures |keys| <= |names|
    ensures forall i :: 0 <= i < |keys| ==> keys[i] != []
  {
    if names == [] then []
    else
      var n := |names|;
      NonEmpty(names[..n - 1]) + (if names[n - 1] == [] then [] else [names[n - 1]])
  }

  /** The classes one txt label counts: the first token of every non-blank line. */
  function TxtKeys(lines: seq<string>): seq<string> {
    FirstTokens(Tokens(lines))
  }

  /** The classes one json label counts: every stripped, non-empty shape label. */
  function JsonKeys(shapes: seq<Shape>): seq<string> {
    NonEmpty(Names(shapes))
  }

  /** A label file as read: its text lines, its shapes, or some other suffix. */
  datatype LabelFile = TxtLabel(lines: seq<string>) | JsonLabel(shapes: seq<Shape>) | OtherLabel

  /** The counts `load_labels` returns for a label file, None for an unsupported suffix. */
  function Counts(f: LabelFile): Option<map<string, int>> {
    match f
    case TxtLabel(lines) => Some(Tally(TxtKeys(lines)))
    case JsonLabel(shapes) => Some(Tally(JsonKeys(shapes)))
    case OtherLabel => None
  }

  /** A line with tokens contributes its first token; a blank line contributes nothing. */
  lemma FirstTokensStep(tokens: seq<seq<string>>, parts: seq<string>)
    ensures FirstTokens(tokens + [parts]) == FirstTokens(tokens) + (if parts == [] then [] else [parts[0]])
  {
    assert (tokens + [parts])[..|tokens|] == tokens;
  }

  /** A non-empty name is counted; an empty one is not. */
  lemma NonEmptyStep(names: seq<string>, name: string)
    ensures NonEmpty(names + [name]) == NonEmpty(names) + (if name == [] then [] else [name])
  {
    assert (names + [name])[..|names|] == names;
  }

  /** The token lists of the first `i + 1` lines: those of the first `i`, then line `i`'s. */
  lemma TokensSlice(lines: seq<string>, i: nat)
    requires i < |lines|
    ensures Tokens(lines)[..i + 1] == Tokens(lines)[..i] + [SplitWs(Strip(lines[i]))]
  {
    var tokens := Tokens(lines);
    assert tokens[i] == SplitWs(Strip(lines[i]));
    assert tokens[..i + 1] == tokens[..i] + [tokens[i]];
  }

  /** The tokens of all lines are those of all but the last, then the last line's. */
  lemma TokensInit(lines: seq<string>)
    requires lines != []
    ensures Tokens(lines) == Tokens(lines[..|lines| - 1]) + [SplitWs(Strip(lines[|lines| - 1]))]
  {
    var n := |lines|;
    TokensSlice(lines, n - 1);
    assert Tokens(lines)[..n] == Tokens(lines);
    var init := lines[..n - 1];
    assert forall i :: 0 <= i < n - 1 ==> Tokens(lines)[i] == Tokens(init)[i];
    assert Tokens(lines)[..n - 1] == Tokens(init);
  }

  /** Counting line `i` adds one to the count of its first token, if it has one. */
  lemma CountTxtStep(lines: seq<string>, i: nat, counts: map<string, int>)
    requires i < |lines|
    requires counts == Tally(FirstTokens(Tokens(lines)[..i]))
    ensures var parts := SplitWs(Strip(lines[i]));
      Tally(FirstTokens(Tokens(lines)[..i + 1])) ==
        if parts == [] then counts else counts[parts[0] := Get(counts, parts[0]) + 1]
  {
    var parts := SplitWs(Strip(lines[i]));
    var prefix := Tokens(lines)[..i];
    TokensSlice(lines, i);
    TallyTokensStep(prefix, parts);
    assert Tokens(lines)[..i + 1] == prefix + [parts];
  }

  /** One more token list adds one to the count of its first token, if it has one. */
  lemma TallyTokensStep(prefix: seq<seq<string>>, parts: seq<string>)
    ensures var counts := Tally(FirstTokens(prefix));
      Tally(FirstTokens(prefix + [parts])) ==
        if parts == [] then counts else counts[parts[0] := Get(counts, parts[0]) + 1]
  {
    var keys := FirstTokens(prefix);
    FirstTokensStep(prefix, parts);
    if parts != [] {
      assert FirstTokens(prefix + [parts]) == keys + [parts[0]];
      TallyAppend(keys, parts[0]);
    } else {
      assert FirstTokens(prefix + [parts]) == keys;
    }
  }

  /** Counting shape `i` adds one to the count of its stripped label, if non-empty. */
  lemma CountJsonStep(shapes: seq<Shape>, i: nat, counts: map<string, int>)
    requires i < |shapes|
    requires counts == Tally(NonEmpty(Names(shapes)[..i]))
    ensures var name := Strip(shapes[i].name);
      Tally(NonEmpty(Names(shapes)[..i + 1])) ==
        if name == [] then counts else counts[name := Get(counts, name) + 1]
  {
    var names := Names(shapes);
    var name := Strip(shapes[i].name);
    var keys := NonEmpty(names[..i]);
    assert names[..i + 1] == names[..i] + [name];
    NonEmptyStep(names[..i], name);
    if name != [] {
      assert NonEmpty(names[..i + 1]) == keys + [name];
      TallyAppend(keys, name);
    } else {
      assert NonEmpty(names[..i + 1]) == keys;
    }
  }

  /** The txt branch of `load_labels`: count the first token of each non-blank line. */
  method CountTxt(lines: seq<string>) returns (counts: map<string, int>)
    ensures counts == Tally(TxtKeys(lines))
  {
    ghost var tokens := Tokens(lines);
    counts := map[];
    for i := 0 to |lines|
      invariant counts == Tally(FirstTokens(tokens[..i]))
    {
      var parts := SplitWs(Strip(lines[i]));
      CountTxtStep(lines, i, counts);
      if parts != [] {
        counts := counts[parts[0] := Get(counts, parts[0]) + 1];
      }
    }
    assert tokens[..|lines|] == tokens;
  }

  /** The json branch of `load_labels`: count each stripped, non-empty shape label. */
  method CountJson(shapes: seq<Shape>) returns (counts: map<string, int>)
    ensures counts == Tally(JsonKeys(shapes))
  {
    ghost var names := Names(shapes);
    counts := map[];
    for i := 0 to |shapes|
      invariant counts == Tally(NonEmpty(names[..i]))
    {
      var name := Strip(shapes[i].name);
      CountJsonStep(shapes, i, counts);
      if name != [] {
        counts := counts[name := Get(counts, name) + 1];
      }
    }
    assert names[..|shapes|] == names;
  }

  /** `load_labels`: count the classes of a txt or json label file. */
  method LoadLabels(f: LabelFile) returns (r: Option<map<string, int>>)
    ensures r == Counts(f)
  {
    match f {
      case TxtLabel(lines) =>
        var counts := CountTxt(lines);
        return Some(counts);
      case JsonLabel(shapes) =>
        var counts := CountJson(shapes);
        return Some(counts);
      case OtherLabel =>
        return None;
    }
  }

  /**
    The counting keys of a txt label: each non-blank line, in order, gives
    the first token of `strip().split()`; blank lines give nothing.
   */
  lemma {:induction false} TxtKeysSpec(lines: seq<string>)
    ensures TxtKeys(lines) == [] <==> forall i :: 0 <= i < |lines| ==> SplitWs(Strip(lines[i])) == []
  {
    if lines != [] {
      var n := |lines|;
      var init := lines[..n - 1];
      var parts := SplitWs(Strip(lines[n - 1]));
      TxtKeysSpec(init);
      TokensInit(lines);
      FirstTokensStep(Tokens(init), parts);
      if parts == [] {
        assert TxtKeys(lines) == TxtKeys(init);
        if TxtKeys(init) == [] {
          forall i | 0 <= i < n ensures SplitWs(Strip(lines[i])) == [] {
            if i < n - 1 {
              assert lines[i] == init[i];
            }
          }
        } else {
          var i :| 0 <= i < n - 1 && SplitWs(Strip(init[i])) != [];
          assert lines[i] == init[i];
        }
      } else {
        assert TxtKeys(lines) == TxtKeys(init) + [parts[0]];
      }
    }
  }

  /** The sum of all counts. */
  ghost function Total(counts: map<string, int>): int
    decreases |counts|
  {
    if counts == map[] then 0
    else
      var k :| k in counts;
      counts[k] + Total(counts - {k})
  }

  /** The total does not depend on which key is taken out first. */
  lemma {:induction false} TotalRemove(counts: map<string, int>, x: string)
    requires x in counts
    ensures Total(counts) == counts[x] + Total(counts - {x})
    decreases |counts|
  {
    var k :| k in counts && Total(counts) == counts[k] + Total(counts - {k});
    if k != x {
      TotalRemove(counts - {k}, x);
      TotalRemove(counts - {x}, k);
      assert counts - {k} - {x} == counts - {x} - {k};
    }
  }

  /** The counts of a label file add up to the number of labels counted. */
  lemma {:induction false} TotalOfTally(keys: seq<string>)
    ensures Total(Tally(keys)) == |keys|
  {
    if keys != [] {
      var init := keys[..|keys| - 1];
      var k := keys[|keys| - 1];
      assert keys == init + [k];
      TotalOfTally(init);
      TallyAppend(init, k);
      var t := Tally(init);
      var u := t[k := Get(t, k) + 1];
      TotalRemove(u, k);
      assert u - {k} == t - {k};
      if k in t {
        TotalRemove(t, k);
      } else {
        assert t - {k} == t;
      }
    }
  }

  /** `sum(label_counts.values())`. */
  method SumCounts(counts: map<string, int>) returns (sum: int)
    ensures sum == Total(counts)
  {
    sum := 0;
    var rest := counts;
    while rest != map[]
      invariant sum + Total(rest) == Total(counts)
      decreases |rest|
    {
      var k :| k in rest;
      TotalRemove(rest, k);
      sum := sum + rest[k];
      rest := rest - {k};
    }
  }

  // ---------------------------------------------------------------------
  // Matching

  /** A rule holds on a class's count; a class that is not present counts 0. */
  predicate Holds(counts: map<string, int>, name: string, rule: Rule) {
    Apply(rule.op, Get(counts, name), rule.count)
  }

  /** `any`: at least one rule holds. */
  predicate AnyMatch(counts: map<string, int>, rules: map<string, Rule>) {
    exists k :: k in rules && Holds(counts, k, rules[k])
  }

  /** `all`: every rule holds. */
  predicate AllMatch(counts: map<string, int>, rules: map<string, Rule>) {
    forall k :: k in rules ==> Holds(counts, k, rules[k])
  }

  /** `exact`: the present classes are exactly the rule classes, and every rule holds. */
  predicate ExactMatch(counts: map<string, int>, rules: map<string, Rule>) {
    counts.Keys == rules.Keys && AllMatch(counts, rules)
  }

  /** The outcome of one mode: false when the mode was not given. */
  function ModeOutcome(counts: map<string, int>, rules: seq<string>, exact: bool, isAll: bool): Result<bool, RuleError> {
    if rules == [] then Ok(false)
    else
      var m :- ParseRules(rules, ">=");
      Ok(if exact then ExactMatch(counts, m) else if isAll then AllMatch(counts, m) else AnyMatch(counts, m))
  }

  /** The name of the synthetic rule the total threshold is parsed as. */
  const TotalName := "__TOTAL__"

  /** The outcome of the `total` threshold: skipped when absent or zero. */
  ghost function TotalOutcome(counts: map<string, int>, total: Option<int>): Result<bool, RuleError> {
    if total.None? || total.value == 0 then Ok(false)
    else
      var parsed :- ParseRule(TotalName + ":" + IntToString(total.value), ">=");
      Ok(Apply(parsed.1.op, Total(counts), parsed.1.count))
  }

  /**
    `check_rule_matching`: the modes in priority order; the first that
    matches decides. A match comes from some mode, and an error is that of
    the first mode whose rules fail to parse, after every earlier mode was
    parsed and missed.
   */
  ghost function Matching(counts: map<string, int>, anyRules: seq<string>, allRules: seq<string>,
                          exactRules: seq<string>, total: Option<int>): (r: Result<bool, RuleError>)
    ensures var a := ModeOutcome(counts, anyRules, false, false);
      var l := ModeOutcome(counts, allRules, false, true);
      var e := ModeOutcome(counts, exactRules, true, false);
      var t := TotalOutcome(counts, total);
      r == Ok(true) ==> a == Ok(true) || l == Ok(true) || e == Ok(true) || t == Ok(true)
    ensures var a := ModeOutcome(counts, anyRules, false, false);
      var l := ModeOutcome(counts, allRules, false, true);
      var e := ModeOutcome(counts, exactRules, true, false);
      var t := TotalOutcome(counts, total);
      r.Err? ==>
        || r == a
        || (a == Ok(false) && r == l)
        || (a == Ok(false) && l == Ok(false) && r == e)
        || (a == Ok(false) && l == Ok(false) && e == Ok(false) && r == t)
  {
    var anyHit :- ModeOutcome(counts, anyRules, false, false);
    if anyHit then Ok(true)
    else
      var allHit :- ModeOutcome(counts, allRules, false, true);
      if allHit then Ok(true)
      else
        var exactHit :- ModeOutcome(counts, exactRules, true, false);
        if exactHit then Ok(true)
        else TotalOutcome(counts, total)
  }

  /**
    The total threshold is a `>=` comparison of the summed counts: a
    positive threshold is met iff the sum reaches it, a negative one is
    rejected as a bad count.
   */
  lemma TotalOutcomeSpec(counts: map<string, int>, t: int)
    ensures var r := TotalOutcome(counts, Some(t));
      && (t == 0 ==> r == Ok(false))
      && (t > 0 ==> r == Ok(Total(counts) >= t))
      && (t < 0 ==> r == Err(BadCount(TotalName + ":" + IntToString(t), IntToString(t))))
  {
    assert ':' !in TotalName;
    assert OperatorOf(">=") == Some(Ge);
    ParseRuleWithCount(TotalName, ">=", t);
  }

  /** With no rules at all nothing matches. */
  lemma MatchingNoRules(counts: map<string, int>)
    ensures Matching(counts, [], [], [], None) == Ok(false)
  {
  }

  /**
    A mode that matches decides the outcome: the modes after it are not
    parsed, so their errors are not raised.
   */
  lemma MatchingPriority(counts: map<string, int>, anyRules: seq<string>, allRules: seq<string>,
                         exactRules: seq<string>, total: Option<int>)
    ensures ModeOutcome(counts, anyRules, false, false) == Ok(true) ==>
      Matching(counts, anyRules, allRules, exactRules, total) == Ok(true)
    ensures ModeOutcome(counts, anyRules, false, false) == Ok(false) && ModeOutcome(counts, allRules, false, true) == Ok(true) ==>
      Matching(counts, anyRules, allRules, exactRules, total) == Ok(true)
    ensures (ModeOutcome(counts, anyRules, false, false) == Ok(false) && ModeOutcome(counts, allRules, false, true) == Ok(false) &&
             ModeOutcome(counts, exactRules, true, false) == Ok(true)) ==>
      Matching(counts, anyRules, allRules, exactRules, total) == Ok(true)
  {
  }

  /**
    A result of true means some mode that was given matched; false means
    every mode given was parsed and missed.
   */
  lemma MatchingOutcome(counts: map<string, int>, anyRules: seq<string>, allRules: seq<string>,
                        exactRules: seq<string>, total: Option<int>)
    ensures Matching(counts, anyRules, allRules, exactRules, total) == Ok(false) <==>
      (&& ModeOutcome(counts, anyRules, false, false) == Ok(false)
       && ModeOutcome(counts, allRules, false, true) == Ok(false)
       && ModeOutcome(counts, exactRules, true, false) == Ok(false)
       && TotalOutcome(counts, total) == Ok(false))
  {
  }

  /** The `any` loop: true as soon as one rule holds. */
  method AnyHolds(counts: map<string, int>, rules: map<string, Rule>) returns (b: bool)
    ensures b == AnyMatch(counts, rules)
  {
    var keys := rules.Keys;
    while keys != {}
      invariant keys <= rules.Keys
      invariant forall k :: k in rules && k !in keys ==> !Holds(counts, k, rules[k])
      decreases |keys|
    {
      var k :| k in keys;
      if Apply(rules[k].op, Get(counts, k), rules[k].count) {
        return true;
      }
      keys := keys - {k};
    }
    return false;
  }

  /** The `all` and `exact` loops: false at the first rule that fails. */
  method AllHold(counts: map<string, int>, rules: map<string, Rule>) returns (b: bool)
    ensures b == AllMatch(counts, rules)
  {
    var keys := rules.Keys;
    while keys != {}
      invariant keys <= rules.Keys
      invariant forall k :: k in rules && k !in keys ==> Holds(counts, k, rules[k])
      decreases |keys|
    {
      var k :| k in keys;
      if !Apply(rules[k].op, Get(counts, k), rules[k].count) {
        return false;
      }
      keys := keys - {k};
    }
    return true;
  }

  /** `check_rule_matching` over given counts and rule lists. */
  method CheckRuleMatching(counts: map<string, int>, anyRules: seq<string>, allRules: seq<string>,
                           exactRules: seq<string>, total: Option<int>) returns (r: Result<bool, RuleError>)
    ensures r == Matching(counts, anyRules, allRules, exactRules, total)
  {
    if anyRules != [] {
      var parsed := ParseRulePairs(anyRules, ">=");
      if parsed.Err? {
        return Err(parsed.error);
      }
      var hit := AnyHolds(counts, parsed.value);
      if hit {
        return Ok(true);
      }
    }
    assert ModeOutcome(counts, anyRules, false, false) == Ok(false);
    if allRules != [] {
      var parsed := ParseRulePairs(allRules, ">=");
      if parsed.Err? {
        return Err(parsed.error);
      }
      var hit := AllHold(counts, parsed.value);
      if hit {
        return Ok(true);
      }
    }
    assert ModeOutcome(counts, allRules, false, true) == Ok(false);
    if exactRules != [] {
      var parsed := ParseRulePairs(exactRules, ">=");
      if parsed.Err? {
        return Err(parsed.error);
      }
      if counts.Keys == parsed.value.Keys {
        var hit := AllHold(counts, parsed.value);
        if hit {
          return Ok(true);
        }
      }
    }
    assert ModeOutcome(counts, exactRules, true, false) == Ok(false);
    if total.Some? && total.value != 0 {
      var parsed := ParseRule(TotalName + ":" + IntToString(total.value), ">=");
      if parsed.Err? {
        return Err(parsed.error);
      }
      var sum := SumCounts(counts);
      return Ok(Apply(parsed.value.1.op, sum, parsed.value.1.count));
    }
    return Ok(false);
  }

  /**
    Whether one label file is selected: files that give no counts, or
    empty counts, are passed over without testing the rules.
   */
  ghost function Selected(f: LabelFile, anyRules: seq<string>, allRules: seq<string>,
                          exactRules: seq<string>, total: Option<int>): Result<bool, RuleError>
  {
    match Counts(f)
    case None => Ok(false)
    case Some(counts) =>
      if counts == map[] then Ok(false) else Matching(counts, anyRules, allRules, exactRules, total)
  }

  /**
    A txt file with no non-blank line and a json file with no non-empty
    label are never selected, whatever the rules say, even malformed ones.
   */
  lemma SelectedNeedsLabels(f: LabelFile, anyRules: seq<string>, allRules: seq<string>,
                            exactRules: seq<string>, total: Option<int>)
    requires f.TxtLabel? ==> TxtKeys(f.lines) == []
    requires f.JsonLabel? ==> JsonKeys(f.shapes) == []
    ensures Selected(f, anyRules, allRules, exactRules, total) == Ok(false)
  {
  }

  /** A file's total for the `total` mode is the number of labels it counts. */
  lemma CountsTotal(f: LabelFile)
    requires !f.OtherLabel?
    ensures f.TxtLabel? ==> Total(Counts(f).value) == |TxtKeys(f.lines)|
    ensures f.JsonLabel? ==> Total(Counts(f).value) == |JsonKeys(f.shapes)|
  {
    if f.TxtLabel? {
      TotalOfTally(TxtKeys(f.lines));
    } else {
      TotalOfTally(JsonKeys(f.shapes));
    }
  }
}
