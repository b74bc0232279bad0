/** The smithy generator's text-level evaluation of `#[cfg(..)]` attributes, against Rust's meaning. */
module CfgEvaluator {
  import opened Text

  type Features = set<string>

  // ----- the patterns, as functions on text -----

  predicate IsQuote(c: char) { c == '"' }
  predicate IsClose(c: char) { c == ')' }
  predicate IsComma(c: char) { c == ',' }
  predicate IsNewline(c: char) { c == '\n' }

  /** `\s*`. */
  function SkipSpace(s: string): (r: string)
    ensures |r| <= |s|
  {
    if s != "" && IsWhitespace(s[0]) then SkipSpace(s[1..]) else s
  }

  /** `feature\s*=\s*"([^"]+)"` at the start: the name and the rest. */
  function MatchFeature(s: string): Option<(string, string)> {
    if !("feature" <= s) then None
    else
      var s1 := SkipSpace(s[7..]);
      if s1 == "" || s1[0] != '=' then None
      else
        var s2 := SkipSpace(s1[1..]);
        if s2 == "" || s2[0] != '"' then None
        else
          var name := Until(s2[1..], IsQuote);
          if name == "" || |name| == |s2[1..]| then None else Some((name, s2[1..][|name| + 1..]))
  }

  /** The first match anywhere in the text. */
  function FindFeature(s: string): Option<string> {
    match MatchFeature(s)
    case Some((name, _)) => Some(name)
    case None => if s == "" then None else FindFeature(s[1..])
  }

  /** `#\[cfg\(feature\s*=\s*"([^"]+)"\)\]`. */
  function MatchCfgFeature(s: string): Option<string> {
    if !("#[cfg(" <= s) then None
    else
      match MatchFeature(s[6..])
      case Some((name, rest)) => if ")]" <= rest then Some(name) else None
      case None => None
  }

  function FindCfgFeature(s: string): Option<string> {
    match MatchCfgFeature(s)
    case Some(name) => Some(name)
    case None => if s == "" then None else FindCfgFeature(s[1..])
  }

  /** `#\[cfg\(f\(([^)]+)\)\)\]` for the function whose opening text is `head`. */
  function MatchCall(head: string, s: string): Option<string> {
    if !(head <= s) then None
    else
      var body := Until(s[|head|..], IsClose);
      if body != "" && "))]" <= s[|head|..][|body|..] then Some(body) else None
  }

  function FindCall(head: string, s: string): Option<string> {
    match MatchCall(head, s)
    case Some(body) => Some(body)
    case None => if s == "" then None else FindCall(head, s[1..])
  }

  // ----- the evaluator -----

  predicate SimpleHolds(condition: string, features: Features) {
    match FindFeature(condition)
    case Some(name) => name in features
    case None => false
  }

  function TrimAll(parts: seq<string>): (r: seq<string>)
    ensures |r| == |parts| && forall i :: 0 <= i < |parts| ==> r[i] == Trim(parts[i])
  {
    seq(|parts|, i requires 0 <= i < |parts| => Trim(parts[i]))
  }

  function Parts(condition: string): seq<string> {
    TrimAll(Split(condition, IsComma))
  }

  predicate IsNegated(part: string) {
    "not(" <= part && |part| >= 5 && part[|part| - 1] == ')'
  }

  predicate AllPartHolds(part: string, features: Features) {
    if IsNegated(part) then !SimpleHolds(part[4..|part| - 1], features) else SimpleHolds(part, features)
  }

  method EvaluateAny(condition: string, features: Features) returns (r: bool)
    ensures r == exists i :: 0 <= i < |Parts(condition)| && SimpleHolds(Parts(condition)[i], features)
  {
    var parts := Parts(condition);
    for i := 0 to |parts|
      invariant forall j :: 0 <= j < i ==> !SimpleHolds(parts[j], features)
    {
      if SimpleHolds(parts[i], features) { return true; }
    }
    return false;
  }

  method EvaluateAll(condition: string, features: Features) returns (r: bool)
    ensures r == forall i :: 0 <= i < |Parts(condition)| ==> AllPartHolds(Parts(condition)[i], features)
  {
    var parts := Parts(condition);
    for i := 0 to |parts|
      invariant forall j :: 0 <= j < i ==> AllPartHolds(parts[j], features)
    {
      if IsNegated(parts[i]) {
        if SimpleHolds(parts[i][4..|parts[i]| - 1], features) { return false; }
      } else if !SimpleHolds(parts[i], features) {
        return false;
      }
    }
    return true;
  }

  const ANY := "#[cfg(any("
  const ALL := "#[cfg(all("
  const NOT := "#[cfg(not("

  /** The four patterns in turn; a line none of them matches counts as available. */
  predicate CfgHolds(line: string, features: Features) {
    if FindCfgFeature(line).Some? then FindCfgFeature(line).value in features
    else if FindCall(ANY, line).Some? then
      var parts := Parts(FindCall(ANY, line).value);
      exists i :: 0 <= i < |parts| && SimpleHolds(parts[i], features)
    else if FindCall(ALL, line).Some? then
      var parts := Parts(FindCall(ALL, line).value);
      forall i :: 0 <= i < |parts| ==> AllPartHolds(parts[i], features)
    else if FindCall(NOT, line).Some? then !SimpleHolds(FindCall(NOT, line).value, features)
    else true
  }

  method EvaluateCfgCondition(line: string, features: Features) returns (r: bool)
    ensures r == CfgHolds(line, features)
  {
    var name := FindCfgFeature(line);
    if name.Some? { return name.value in features; }
    var any := FindCall(ANY, line);
    if any.Some? { r := EvaluateAny(any.value, features); return; }
    var all := FindCall(ALL, line);
    if all.Some? { r := EvaluateAll(all.value, features); return; }
    var not := FindCall(NOT, line);
    if not.Some? { return !SimpleHolds(not.value, features); }
    return true;
  }

  /** The attribute lines of an item: those that start with `#[cfg(` once trimmed. */
  function CfgLines(lines: seq<string>): seq<string> {
    if lines == [] then []
    else
      var line := Trim(lines[0]);
      (if line != "" && "#[cfg(" <= line then [line] else []) + CfgLines(lines[1..])
  }

  /** All attributes must hold; an item without any is available. */
  predicate Available(cfgAttrs: string, features: Features) {
    forall line :: line in CfgLines(Split(cfgAttrs, IsNewline)) ==> CfgHolds(line, features)
  }

  method IsItemAvailable(cfgAttrs: string, features: Features) returns (r: bool)
    ensures r == Available(cfgAttrs, features)
  {
    var lines := CfgLines(Split(cfgAttrs, IsNewline));
    for i := 0 to |lines|
      invariant forall j :: 0 <= j < i ==> CfgHolds(lines[j], features)
    {
      var holds := EvaluateCfgCondition(lines[i], features);
      if !holds {
        assert lines[i] in lines;
        return false;
      }
    }
    return true;
  }

  // ----- Rust's meaning -----

  datatype Cfg = Feature(name: string) | Not(e: Cfg) | Any(es: seq<Cfg>) | All(es: seq<Cfg>)

  predicate Enabled(c: Cfg, features: Features) {
    match c
    case Feature(n) => n in features
    case Not(e) => !Enabled(e, features)
    case Any(es) => exists i :: 0 <= i < |es| && Enabled(es[i], features)
    case All(es) => forall i :: 0 <= i < |es| ==> Enabled(es[i], features)
  }

  function FeatureText(n: string): string {
    "feature = \"" + n + "\""
  }

  function CfgText(c: Cfg): string
    decreases c, 1
  {
    match c
    case Feature(n) => FeatureText(n)
    case Not(e) => "not(" + CfgText(e) + ")"
    case Any(es) => "any(" + CfgTexts(es) + ")"
    case All(es) => "all(" + CfgTexts(es) + ")"
  }

  /** Comma-separated, without a trailing comma. */
  function CfgTexts(es: seq<Cfg>): string
    decreases es, 0
  {
    if es == [] then "" else if |es| == 1 then CfgText(es[0]) else CfgText(es[0]) + ", " + CfgTexts(es[1..])
  }

  function Line(c: Cfg): string {
    "#[cfg(" + CfgText(c) + ")]"
  }

  /** A feature name as Cargo allows it: letters, digits, dashes, underscores, plus signs and dots. */
  predicate NameChar(c: char) {
    'a' <= c <= 'z' || 'A' <= c <= 'Z' || '0' <= c <= '9' || c == '_' || c == '-' || c == '+' || c == '.'
  }

  predicate NamesOk(c: Cfg) {
    match c
    case Feature(n) => n != "" && forall i :: 0 <= i < |n| ==> NameChar(n[i])
    case Not(e) => NamesOk(e)
    case Any(es) => forall i :: 0 <= i < |es| ==> NamesOk(es[i])
    case All(es) => forall i :: 0 <= i < |es| ==> NamesOk(es[i])
  }

  /** The forms the patterns cover: a feature, its negation, and non-empty any/all of plain features. */
  predicate Flat(c: Cfg) {
    match c
    case Feature(_) => true
    case Not(e) => e.Feature?
    case Any(es) => es != [] && forall i :: 0 <= i < |es| ==> es[i].Feature?
    case All(es) => es != [] && forall i :: 0 <= i < |es| ==> es[i].Feature?
  }

  // ----- characters of printed expressions -----

  predicate Avoids(s: string, c: char) {
    forall i :: 0 <= i < |s| ==> s[i] != c
  }

  lemma AvoidsConcat(a: string, b: string, c: char)
    ensures Avoids(a + b, c) <==> Avoids(a, c) && Avoids(b, c)
  {
    assert forall i :: 0 <= i < |a| ==> a[i] == (a + b)[i];
    assert forall i :: 0 <= i < |b| ==> b[i] == (a + b)[|a| + i];
  }

  lemma FeatureTextAvoids(n: string, c: char)
    requires forall i :: 0 <= i < |n| ==> NameChar(n[i])
    requires c == '#' || c == ']' || c == ')' || c == ',' || c == '\n'
    ensures Avoids(FeatureText(n), c)
  {
    AvoidsConcat("feature = \"" + n, "\"", c);
    AvoidsConcat("feature = \"", n, c);
  }

  /** Printed expressions contain no `#`, `]` or newline. */
  lemma {:induction false} CfgTextAvoids(e: Cfg, c: char)
    requires NamesOk(e) && (c == '#' || c == ']' || c == '\n')
    ensures Avoids(CfgText(e), c)
    decreases e, 1
  {
    match e
    case Feature(n) => FeatureTextAvoids(n, c);
    case Not(x) =>
      CfgTextAvoids(x, c);
      AvoidsConcat("not(" + CfgText(x), ")", c);
      AvoidsConcat("not(", CfgText(x), c);
    case Any(es) =>
      CfgTextsAvoid(es, c);
      AvoidsConcat("any(" + CfgTexts(es), ")", c);
      AvoidsConcat("any(", CfgTexts(es), c);
    case All(es) =>
      CfgTextsAvoid(es, c);
      AvoidsConcat("all(" + CfgTexts(es), ")", c);
      AvoidsConcat("all(", CfgTexts(es), c);
  }

  lemma {:induction false} CfgTextsAvoid(es: seq<Cfg>, c: char)
    requires (forall i :: 0 <= i < |es| ==> NamesOk(es[i])) && (c == '#' || c == ']' || c == '\n')
    ensures Avoids(CfgTexts(es), c)
    decreases es, 0
  {
    if es == [] {
    } else {
      CfgTextAvoids(es[0], c);
      if |es| > 1 {
        CfgTextsAvoid(es[1..], c);
        AvoidsConcat(CfgText(es[0]) + ", ", CfgTexts(es[1..]), c);
        AvoidsConcat(CfgText(es[0]), ", ", c);
      }
    }
  }

  /** A closing parenthesis appears exactly when some item is not a plain feature. */
  lemma {:induction false} ClosesExactly(es: seq<Cfg>)
    requires forall i :: 0 <= i < |es| ==> NamesOk(es[i])
    ensures Avoids(CfgTexts(es), ')') <==> forall i :: 0 <= i < |es| ==> es[i].Feature?
  {
    if es == [] {
    } else {
      ItemCloses(es[0]);
      if |es| > 1 {
        ClosesExactly(es[1..]);
        AvoidsConcat(CfgText(es[0]) + ", ", CfgTexts(es[1..]), ')');
        AvoidsConcat(CfgText(es[0]), ", ", ')');
        assert forall i :: 1 <= i < |es| ==> es[i] == es[1..][i - 1];
      }
    }
  }

  lemma ItemCloses(e: Cfg)
    requires NamesOk(e)
    ensures Avoids(CfgText(e), ')') <==> e.Feature?
  {
    if e.Feature? {
      FeatureTextAvoids(e.name, ')');
    } else {
      var t := CfgText(e);
      assert t[|t| - 1] == ')';
    }
  }

  // ----- the patterns on printed lines -----

  lemma OtherStart(head: string, s: string)
    requires head != "" && (s == "" || s[0] != head[0])
    ensures !(head <= s)
  {
  }

  /** A line has its only `#` in front, so a pattern can match only there. */
  lemma {:induction false} NoCallLater(head: string, s: string)
    requires "#" <= head && Avoids(s, '#')
    ensures FindCall(head, s) == None
  {
    OtherStart(head, s);
    if s == "" {
    } else {
      NoCallLater(head, s[1..]);
    }
  }

  lemma {:induction false} NoCfgFeatureLater(s: string)
    requires Avoids(s, '#')
    ensures FindCfgFeature(s) == None
  {
    OtherStart("#[cfg(", s);
    if s == "" {
    } else {
      NoCfgFeatureLater(s[1..]);
    }
  }

  /** Behind its head a call pattern matches exactly a non-empty text without closing parentheses. */
  lemma MatchCallExact(head: string, inner: string)
    requires Avoids(inner, ']')
    ensures MatchCall(head, head + (inner + "))]")) == if inner != "" && Avoids(inner, ')') then Some(inner) else None
  {
    var s := inner + "))]";
    PrefixOfSum(head, s);
    var body := Until(s, IsClose);
    if Avoids(inner, ')') {
      UntilRun(inner, "))]", IsClose);
      PrefixOfSum(inner, "))]");
    } else {
      var k :| 0 <= k < |inner| && inner[k] == ')';
      assert s[k] == ')';
      assert |body| <= k;
      var rest := s[|body|..];
      assert rest[2] == s[|body| + 2];
      assert s[|body| + 2] != ']';
    }
  }

  lemma CallAtStart(head: string, line: string)
    requires "#" <= head && line != "" && Avoids(line[1..], '#')
    ensures FindCall(head, line) == MatchCall(head, line)
  {
    NoCallLater(head, line[1..]);
  }

  /** The text between `#[cfg(f(` and `))]`. */
  lemma CallLine(f: string, inner: string)
    ensures "#[cfg(" + (f + "(" + inner + ")") + ")]" == "#[cfg(" + f + "(" + (inner + "))]")
  {
    assert ")" + ")]" == "))]";
    Assoc("#[cfg(", f + "(" + inner + ")", ")]");
    Assoc(f + "(" + inner, ")", ")]");
    Assoc(f + "(", inner, "))]");
    Assoc("#[cfg(", f + "(", inner + "))]");
    Assoc("#[cfg(", f, "(");
  }

  lemma {:induction false} SkipBlank(a: string, s: string)
    requires IsBlank(a) && s != "" && !IsWhitespace(s[0])
    ensures SkipSpace(a + s) == s
  {
    if a == "" {
      assert a + s == s;
    } else {
      assert (a + s)[0] == a[0] && (a + s)[1..] == a[1..] + s;
      SkipBlank(a[1..], s);
    }
  }

  /** Any blanks may stand around the equals sign, and the name is whatever is between the quotes. */
  lemma SpacedFeature(a: string, b: string, n: string, rest: string)
    requires IsBlank(a) && IsBlank(b) && n != "" && '"' !in n
    ensures MatchFeature("feature" + (a + ("=" + (b + ("\"" + (n + ("\"" + rest))))))) == Some((n, rest))
  {
    var quoted := n + ("\"" + rest);
    var s2 := "\"" + quoted;
    var s1 := "=" + (b + s2);
    PrefixOfSum("feature", a + s1);
    SkipBlank(a, s1);
    PrefixOfSum("=", b + s2);
    SkipBlank(b, s2);
    PrefixOfSum("\"", quoted);
    UntilRun(n, "\"" + rest, IsQuote);
    assert quoted[|n| + 1..] == rest;
  }

  lemma MatchFeatureText(n: string, rest: string)
    requires n != "" && forall i :: 0 <= i < |n| ==> NameChar(n[i])
    ensures MatchFeature(FeatureText(n) + rest) == Some((n, rest))
  {
    FeatureShape(n, rest);
    SpacedFeature(" ", " ", n, rest);
  }

  lemma FeatureShape(n: string, rest: string)
    ensures FeatureText(n) + rest == "feature" + (" " + ("=" + (" " + ("\"" + (n + ("\"" + rest))))))
  {
    var open := "feature" + (" " + ("=" + (" " + "\"")));
    assert "feature = \"" == open;
    Assoc(open + n, "\"", rest);
    Assoc(open, n, "\"" + rest);
    var quoted := n + ("\"" + rest);
    Assoc(" ", "\"", quoted);
    Assoc("=", " " + "\"", quoted);
    Assoc(" ", "=" + (" " + "\""), quoted);
    Assoc("feature", " " + ("=" + (" " + "\"")), quoted);
  }

  /** Inside `all` a negated feature holds exactly when the feature is off. */
  lemma NegatedPart(n: string, features: Features)
    requires n != "" && forall i :: 0 <= i < |n| ==> NameChar(n[i])
    ensures AllPartHolds("not(" + FeatureText(n) + ")", features) <==> n !in features
  {
    var part := "not(" + FeatureText(n) + ")";
    assert part[4..|part| - 1] == FeatureText(n) && "not(" <= part;
    SimpleFeature(n, features);
  }

  lemma SimpleFeature(n: string, features: Features)
    requires n != "" && forall i :: 0 <= i < |n| ==> NameChar(n[i])
    ensures SimpleHolds(FeatureText(n), features) <==> n in features
  {
    MatchFeatureText(n, "");
    assert FeatureText(n) + "" == FeatureText(n);
  }

  // ----- lists of features -----

  lemma TrimFeature(n: string)
    ensures Trim(FeatureText(n)) == FeatureText(n) && Trim(" " + FeatureText(n)) == FeatureText(n)
  {
    var t := FeatureText(n);
    assert t[0] == 'f' && t[|t| - 1] == '"';
    assert (" " + t)[1..] == t;
  }

  lemma PartsLast(t: string)
    requires Avoids(t, ',')
    ensures Parts(t) == [Trim(t)]
  {
    SplitLast(t, IsComma);
  }

  lemma TrimAllCons(t: string, parts: seq<string>)
    ensures TrimAll([t] + parts) == [Trim(t)] + TrimAll(parts)
  {
  }

  lemma PartsStep(t: string, more: string)
    requires Avoids(t, ',')
    ensures Parts(t + [','] + more) == [Trim(t)] + Parts(more)
  {
    SplitStep(t, ',', more, IsComma);
    TrimAllCons(t, Split(more, IsComma));
  }

  function FeatureTexts(es: seq<Cfg>): (r: seq<string>)
    requires forall i :: 0 <= i < |es| ==> es[i].Feature?
    ensures |r| == |es| && forall i :: 0 <= i < |es| ==> r[i] == FeatureText(es[i].name)
  {
    if es == [] then [] else [FeatureText(es[0].name)] + FeatureTexts(es[1..])
  }

  lemma ListShape(t: string, rest: string)
    ensures t + ", " + rest == t + [','] + (" " + rest)
    ensures " " + (t + ", " + rest) == (" " + t) + [','] + (" " + rest)
  {
    assert ", " == [','] + " ";
    Assoc(t, [','] + " ", rest);
    Assoc([','], " ", rest);
    Assoc(t, [','], " " + rest);
    Assoc(" ", t, [','] + (" " + rest));
    Assoc(" " + t, [','], " " + rest);
  }

  /** Splitting a list of features at its commas gives back the features, with or without a leading space. */
  lemma {:induction false} PartsOfFeatures(es: seq<Cfg>)
    requires es != [] && forall i :: 0 <= i < |es| ==> es[i].Feature? && NamesOk(es[i])
    ensures Parts(CfgTexts(es)) == FeatureTexts(es)
    ensures Parts(" " + CfgTexts(es)) == FeatureTexts(es)
  {
    var t := FeatureText(es[0].name);
    FeatureTextAvoids(es[0].name, ',');
    AvoidsConcat(" ", t, ',');
    TrimFeature(es[0].name);
    if |es| == 1 {
      PartsLast(t);
      PartsLast(" " + t);
    } else {
      var more := " " + CfgTexts(es[1..]);
      PartsStep(t, more);
      PartsStep(" " + t, more);
      PartsOfFeatures(es[1..]);
      ListShape(t, CfgTexts(es[1..]));
    }
  }

  lemma NotNegated(n: string)
    ensures !IsNegated(FeatureText(n))
  {
    assert FeatureText(n)[0] == 'f';
  }

  // ----- the theorem -----

  lemma FeatureLine(n: string, features: Features)
    requires NamesOk(Feature(n))
    ensures CfgHolds(Line(Feature(n)), features) <==> n in features
  {
    var line := Line(Feature(n));
    Assoc("#[cfg(", FeatureText(n), ")]");
    PrefixOfSum("#[cfg(", FeatureText(n) + ")]");
    MatchFeatureText(n, ")]");
  }

  lemma CallLineHasNoFeature(f: string, inner: string)
    requires f == "any" || f == "all" || f == "not"
    ensures MatchCfgFeature("#[cfg(" + f + "(" + (inner + "))]")) == None
  {
    var s := "#[cfg(" + f + "(" + (inner + "))]");
    var rest := f + "(" + (inner + "))]");
    Assoc("#[cfg(", f, "(");
    Assoc("#[cfg(", f + "(", inner + "))]");
    PrefixOfSum("#[cfg(", rest);
    assert rest[0] == f[0];
  }

  lemma OtherHead(f: string, g: string, inner: string)
    requires (f == "any" || f == "all" || f == "not") && (g == "any" || g == "all" || g == "not") && f != g
    ensures MatchCall("#[cfg(" + g + "(", "#[cfg(" + f + "(" + (inner + "))]")) == None
  {
    var s, head := "#[cfg(" + f + "(" + (inner + "))]"), "#[cfg(" + g + "(";
    assert s[6] == f[0] && s[7] == f[1] && head[6] == g[0] && head[7] == g[1];
    assert f[0] != g[0] || f[1] != g[1];
  }

  lemma Heads()
    ensures ANY == "#[cfg(" + "any" + "(" && ALL == "#[cfg(" + "all" + "(" && NOT == "#[cfg(" + "not" + "("
  {
  }

  /** What the four patterns find on the line of an any, all or not. */
  lemma CallLineFinds(f: string, inner: string)
    requires f == "any" || f == "all" || f == "not"
    requires Avoids(inner, ']') && Avoids(inner, '#')
    ensures var line := "#[cfg(" + f + "(" + (inner + "))]");
            var found := if inner != "" && Avoids(inner, ')') then Some(inner) else None;
            && FindCfgFeature(line) == None
            && FindCall(ANY, line) == (if f == "any" then found else None)
            && FindCall(ALL, line) == (if f == "all" then found else None)
            && FindCall(NOT, line) == (if f == "not" then found else None)
  {
    var line := "#[cfg(" + f + "(" + (inner + "))]");
    Heads();
    CallLineAvoids(f, inner);
    CallLineHasNoFeature(f, inner);
    NoCfgFeatureLater(line[1..]);
    CallAtStart(ANY, line);
    CallAtStart(ALL, line);
    CallAtStart(NOT, line);
    MatchCallExact("#[cfg(" + f + "(", inner);
    if f != "any" { OtherHead(f, "any", inner); }
    if f != "all" { OtherHead(f, "all", inner); }
    if f != "not" { OtherHead(f, "not", inner); }
  }

  lemma CallLineAvoids(f: string, inner: string)
    requires (f == "any" || f == "all" || f == "not") && Avoids(inner, '#')
    ensures var line := "#[cfg(" + f + "(" + (inner + "))]"); line != "" && Avoids(line[1..], '#')
  {
    var line := "#[cfg(" + f + "(" + (inner + "))]");
    assert line[1..] == "[cfg(" + (f + "(") + (inner + "))]");
    AvoidsConcat("[cfg(" + (f + "("), inner + "))]", '#');
    AvoidsConcat("[cfg(", f + "(", '#');
    AvoidsConcat(f, "(", '#');
    AvoidsConcat(inner, "))]", '#');
  }

  lemma TextsNotEmpty(es: seq<Cfg>)
    requires es != []
    ensures CfgTexts(es) != ""
  {
    assert CfgText(es[0]) != "" by {
      match es[0]
      case Feature(n) => assert FeatureText(n)[0] == 'f';
      case Not(e) => assert CfgText(es[0])[0] == 'n';
      case Any(xs) => assert CfgText(es[0])[0] == 'a';
      case All(xs) => assert CfgText(es[0])[0] == 'a';
    }
  }

  lemma AnyLine(es: seq<Cfg>, features: Features)
    requires NamesOk(Any(es))
    ensures CfgHolds(Line(Any(es)), features) <==> (Flat(Any(es)) ==> Enabled(Any(es), features))
  {
    CallLine("any", CfgTexts(es));
    assert "any" + "(" == "any(";
    CfgTextsAvoid(es, ']');
    CfgTextsAvoid(es, '#');
    CallLineFinds("any", CfgTexts(es));
    ClosesExactly(es);
    if es != [] { TextsNotEmpty(es); }
    if Flat(Any(es)) { FeaturesHold(es, features); }
  }

  /** Each part of a list of features holds exactly when its feature is on. */
  lemma FeaturesHold(es: seq<Cfg>, features: Features)
    requires es != [] && forall i :: 0 <= i < |es| ==> es[i].Feature? && NamesOk(es[i])
    ensures |Parts(CfgTexts(es))| == |es|
    ensures forall i :: 0 <= i < |es| ==> (SimpleHolds(Parts(CfgTexts(es))[i], features) <==> Enabled(es[i], features))
    ensures forall i :: 0 <= i < |es| ==> (AllPartHolds(Parts(CfgTexts(es))[i], features) <==> Enabled(es[i], features))
  {
    PartsOfFeatures(es);
    forall i | 0 <= i < |es|
      ensures SimpleHolds(Parts(CfgTexts(es))[i], features) <==> Enabled(es[i], features)
      ensures AllPartHolds(Parts(CfgTexts(es))[i], features) <==> Enabled(es[i], features)
    {
      NotNegated(es[i].name);
      SimpleFeature(es[i].name, features);
    }
  }

  lemma AllLine(es: seq<Cfg>, features: Features)
    requires NamesOk(All(es))
    ensures CfgHolds(Line(All(es)), features) <==> (Flat(All(es)) ==> Enabled(All(es), features))
  {
    CallLine("all", CfgTexts(es));
    assert "all" + "(" == "all(";
    CfgTextsAvoid(es, ']');
    CfgTextsAvoid(es, '#');
    CallLineFinds("all", CfgTexts(es));
    ClosesExactly(es);
    if es != [] { TextsNotEmpty(es); }
    if Flat(All(es)) { FeaturesHold(es, features); }
  }

  lemma NotLine(e: Cfg, features: Features)
    requires NamesOk(e)
    ensures CfgHolds(Line(Not(e)), features) <==> (Flat(Not(e)) ==> Enabled(Not(e), features))
  {
    CallLine("not", CfgText(e));
    assert "not" + "(" == "not(";
    CfgTextAvoids(e, ']');
    CfgTextAvoids(e, '#');
    CallLineFinds("not", CfgText(e));
    ItemCloses(e);
    if e.Feature? {
      TextsNotEmpty([e]);
      SimpleFeature(e.name, features);
    }
  }

  /** For every cfg expression, however deep: on the covered forms the evaluator computes Rust's meaning, on all
      others it says available. So it never reports an available item as missing. */
  lemma CfgEvaluationExact(c: Cfg, features: Features)
    requires NamesOk(c)
    ensures CfgHolds(Line(c), features) <==> (Flat(c) ==> Enabled(c, features))
    ensures Enabled(c, features) ==> CfgHolds(Line(c), features)
  {
    match c
    case Feature(n) => FeatureLine(n, features);
    case Not(e) => NotLine(e, features);
    case Any(es) => AnyLine(es, features);
    case All(es) => AllLine(es, features);
  }

  // ----- several attributes -----

  function Lines(cs: seq<Cfg>): seq<string> {
    if cs == [] then [] else [Line(cs[0])] + Lines(cs[1..])
  }

  lemma LineIsCfg(c: Cfg)
    requires NamesOk(c)
    ensures Trim(Line(c)) == Line(c) && Line(c) != "" && "#[cfg(" <= Line(c) && Avoids(Line(c), '\n')
  {
    var line, t := Line(c), CfgText(c);
    CfgTextAvoids(c, '\n');
    AvoidsConcat("#[cfg(" + t, ")]", '\n');
    AvoidsConcat("#[cfg(", t, '\n');
    Assoc("#[cfg(", t, ")]");
    PrefixOfSum("#[cfg(", t + ")]");
    assert line[0] == '#' && line[|line| - 1] == ']';
  }

  lemma {:induction false} LinesSplit(cs: seq<Cfg>)
    requires cs != [] && forall i :: 0 <= i < |cs| ==> NamesOk(cs[i])
    ensures CfgLines(Split(Join(Lines(cs), "\n"), IsNewline)) == Lines(cs)
  {
    LineIsCfg(cs[0]);
    var first := Line(cs[0]);
    if |cs| == 1 {
      assert Lines(cs) == [first];
      SplitLast(first, IsNewline);
    } else {
      LinesSplit(cs[1..]);
      var rest := Join(Lines(cs[1..]), "\n");
      assert Lines(cs)[1..] == Lines(cs[1..]) && |Lines(cs)| > 1;
      assert first + "\n" + rest == first + ['\n'] + rest;
      SplitStep(first, '\n', rest, IsNewline);
    }
  }

  lemma {:induction false} LinesMembers(cs: seq<Cfg>, line: string)
    ensures line in Lines(cs) <==> exists i :: 0 <= i < |cs| && line == Line(cs[i])
  {
    if cs == [] {
    } else {
      LinesMembers(cs[1..], line);
      assert forall i :: 1 <= i < |cs| ==> cs[i] == cs[1..][i - 1];
    }
  }

  /** Indented lines count, and lines that are no attribute do not. */
  lemma LineCounts(a: string, line: string, b: string, rest: seq<string>)
    requires IsBlank(a) && IsBlank(b) && line != "" && !IsWhitespace(line[0]) && !IsWhitespace(line[|line| - 1])
    ensures CfgLines([a + line + b] + rest) == (if "#[cfg(" <= line then [line] else []) + CfgLines(rest)
  {
    TrimLeaves(a, line, b);
    assert ([a + line + b] + rest)[1..] == rest;
  }

  lemma BlankLineCounts(a: string, rest: seq<string>)
    requires IsBlank(a)
    ensures CfgLines([a] + rest) == CfgLines(rest)
  {
    TrimBlank(a);
    assert ([a] + rest)[1..] == rest;
  }

  /** Attributes on separate lines are conjoined: an item is available exactly when every covered attribute is enabled. */
  lemma AttributesAreConjoined(cs: seq<Cfg>, features: Features)
    requires cs != [] && forall i :: 0 <= i < |cs| ==> NamesOk(cs[i])
    ensures Available(Join(Lines(cs), "\n"), features)
       <==> forall i :: 0 <= i < |cs| && Flat(cs[i]) ==> Enabled(cs[i], features)
  {
    LinesSplit(cs);
    forall i | 0 <= i < |cs|
      ensures CfgHolds(Line(cs[i]), features) <==> (Flat(cs[i]) ==> Enabled(cs[i], features))
      ensures Line(cs[i]) in Lines(cs)
    {
      CfgEvaluationExact(cs[i], features);
      LinesMembers(cs, Line(cs[i]));
    }
    forall line | line in Lines(cs)
      ensures exists i :: 0 <= i < |cs| && line == Line(cs[i])
    {
      LinesMembers(cs, line);
    }
  }
}
