/** File name patterns as `glob.glob` matches them: part by part between slashes. */
module Globs {
  import opened Text

  predicate IsMagic(c: char) { c == '*' || c == '?' || c == '[' }

  /** A text that stands for itself. */
  predicate IsLiteral(s: string) {
    forall i :: 0 <= i < |s| ==> !IsMagic(s[i])
  }

  /** The closing bracket, from a position on and before the next slash. */
  function FindClose(s: string, from: nat): (r: Option<nat>)
    requires from <= |s|
    ensures r.Some? ==> r.value < |s|
    decreases |s| - from
  {
    if from == |s| || s[from] == '/' then None
    else if s[from] == ']' then Some(from)
    else FindClose(s, from + 1)
  }

  /** The length of a character class after its opening bracket; a bracket right at its start belongs to it. */
  function ClassLength(s: string): (r: Option<nat>)
    ensures r.Some? ==> r.value < |s|
  {
    FindClose(s, if "!]" <= s then 2 else if s != "" && (s[0] == '!' || s[0] == ']') then 1 else 0)
  }

  predicate InRanges(c: char, body: string) {
    if body == "" then false
    else if |body| >= 3 && body[1] == '-' then body[0] <= c <= body[2] || InRanges(c, body[3..])
    else c == body[0] || InRanges(c, body[1..])
  }

  predicate InClass(c: char, body: string) {
    if body != "" && body[0] == '!' then !InRanges(c, body[1..]) else InRanges(c, body)
  }

  /** A bracket that is never closed stands for itself; only a slash matches a slash. */
  predicate Glob(pattern: string, s: string)
    decreases |pattern| + |s|
  {
    if pattern == "" then s == ""
    else if pattern[0] == '*' then Glob(pattern[1..], s) || (s != "" && s[0] != '/' && Glob(pattern, s[1..]))
    else if s == "" then false
    else if pattern[0] == '?' then s[0] != '/' && Glob(pattern[1..], s[1..])
    else
      match if pattern[0] == '[' then ClassLength(pattern[1..]) else None
      case None => pattern[0] == s[0] && Glob(pattern[1..], s[1..])
      case Some(n) => s[0] != '/' && InClass(s[0], pattern[1..n + 1]) && Glob(pattern[n + 2..], s[1..])
  }

  lemma {:induction false} GlobLiteral(lit: string, pattern: string, s: string)
    requires IsLiteral(lit)
    ensures Glob(lit + pattern, s) <==> lit <= s && Glob(pattern, s[|lit|..])
  {
    if lit == "" {
      assert lit + pattern == pattern && s[0..] == s;
    } else {
      var p := lit + pattern;
      assert p[0] == lit[0] && p[1..] == lit[1..] + pattern && !IsMagic(lit[0]);
      if s != "" && s[0] == lit[0] {
        GlobLiteral(lit[1..], pattern, s[1..]);
        LiteralStep(lit, s);
      }
    }
  }

  lemma LiteralStep(lit: string, s: string)
    requires lit != "" && s != "" && s[0] == lit[0]
    ensures lit[1..] <= s[1..] <==> lit <= s
    ensures lit <= s ==> s[1..][|lit| - 1..] == s[|lit|..]
  {
    assert s == [s[0]] + s[1..] && lit == [lit[0]] + lit[1..];
    if lit <= s {
      assert s[..|lit|] == lit;
      assert s[1..][..|lit| - 1] == lit[1..];
    }
    if lit[1..] <= s[1..] {
      assert s[..|lit|] == lit;
    }
  }

  /** A star takes any text without a slash. */
  lemma {:induction false} StarTakes(w: string, pattern: string, s: string)
    requires pattern != "" && pattern[0] == '*' && '/' !in w && Glob(pattern[1..], s)
    ensures Glob(pattern, w + s)
  {
    if w == "" {
      assert w + s == s;
    } else {
      assert (w + s)[0] == w[0] && (w + s)[1..] == w[1..] + s;
      StarTakes(w[1..], pattern, s);
    }
  }

  predicate EndsIn(s: string, end: string) {
    |s| >= |end| && s[|s| - |end|..] == end && '/' !in s[..|s| - |end|]
  }

  /** What a star and a literal end match: the texts with that end and no slash before it. */
  lemma {:induction false} StarThenEnd(end: string, s: string)
    requires IsLiteral(end)
    ensures Glob("*" + end, s) <==> EndsIn(s, end)
    decreases |s|
  {
    var p := "*" + end;
    PrefixOfSum("*", end);
    assert p[1..] == end;
    EndIs(end, s);
    if s != "" && s[0] != '/' {
      StarThenEnd(end, s[1..]);
    }
    StarEndStep(end, s);
  }

  lemma EndIs(end: string, s: string)
    requires IsLiteral(end)
    ensures Glob(end, s) <==> s == end
  {
    assert end + "" == end;
    GlobLiteral(end, "", s);
    if end <= s && Glob("", s[|end|..]) {
      assert s == s[..|end|] + s[|end|..];
    }
  }

  lemma StarEndStep(end: string, s: string)
    ensures EndsIn(s, end) <==> s == end || (s != "" && s[0] != '/' && EndsIn(s[1..], end))
  {
    if s != "" && |s| > |end| {
      assert s[1..][|s| - 1 - |end|..] == s[|s| - |end|..];
      assert s[..|s| - |end|] == [s[0]] + s[1..][..|s| - 1 - |end|];
    }
  }
}
