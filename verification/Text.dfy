/** Strings as sequences of characters: the few library operations the analytics code leans on. */
module Text {

  datatype Option<+T> = None | Some(value: T)

  /** `parts.join(sep)`. */
  function Join(parts: seq<string>, sep: string): string {
    if |parts| == 0 then ""
    else if |parts| == 1 then parts[0]
    else parts[0] + sep + Join(parts[1..], sep)
  }

  /** `s.replace(c, with)` for a single character pattern. */
  function ReplaceChar(s: string, c: char, with: string): string {
    if s == "" then ""
    else (if s[0] == c then with else [s[0]]) + ReplaceChar(s[1..], c, with)
  }

  /** `s.replace(' ', "")`. */
  function NoSpaces(s: string): string {
    ReplaceChar(s, ' ', "")
  }

  function MapNoSpaces(ss: seq<string>): seq<string> {
    seq(|ss|, i requires 0 <= i < |ss| => NoSpaces(ss[i]))
  }

  /** Removing spaces changes a string exactly when it has one, and never leaves one behind. */
  lemma {:induction false} NoSpacesLeavesNone(s: string)
    ensures ' ' !in NoSpaces(s)
    ensures NoSpaces(s) == s <==> ' ' !in s
  {
    if s == "" {
    } else {
      NoSpacesLeavesNone(s[1..]);
      assert s == [s[0]] + s[1..];
      assert s[0] == ' ' ==> NoSpaces(s) == NoSpaces(s[1..]);
    }
  }

  /** Spaces go wherever they stand and every other character stays: the two laws determine `NoSpaces`. */
  lemma {:induction false} NoSpacesOfSum(a: string, b: string)
    ensures NoSpaces(a + b) == NoSpaces(a) + NoSpaces(b)
  {
    if a == "" {
      assert a + b == b;
    } else {
      NoSpacesOfSum(a[1..], b);
      assert (a + b)[0] == a[0] && (a + b)[1..] == a[1..] + b;
      var first := if a[0] == ' ' then "" else [a[0]];
      Assoc(first, NoSpaces(a[1..]), NoSpaces(b));
    }
  }

  lemma NoSpacesOfOne(c: char)
    ensures NoSpaces([c]) == if c == ' ' then "" else [c]
  {
    assert [c][1..] == "" && NoSpaces("") == "";
    assert [c] + "" == [c];
  }

  /** `t` is `s` with its spaces left out: the same other characters in the same order. */
  predicate LeavesOutSpaces(s: string, t: string) {
    if s == "" then t == ""
    else if s[0] == ' ' then LeavesOutSpaces(s[1..], t)
    else t != "" && t[0] == s[0] && LeavesOutSpaces(s[1..], t[1..])
  }

  lemma {:induction false} NoSpacesLeavesOut(s: string)
    ensures LeavesOutSpaces(s, NoSpaces(s))
  {
    if s == "" {
      assert NoSpaces("") == "";
    } else {
      assert s == [s[0]] + s[1..];
      NoSpacesOfSum([s[0]], s[1..]);
      NoSpacesOfOne(s[0]);
      NoSpacesLeavesOut(s[1..]);
      if s[0] != ' ' {
        PrefixOfSum([s[0]], NoSpaces(s[1..]));
      } else {
        assert "" + NoSpaces(s[1..]) == NoSpaces(s[1..]);
      }
    }
  }

  /** The characters of `s` before the first one satisfying `stop`. */
  function Until(s: string, stop: char -> bool): (r: string)
    ensures r <= s
    ensures forall i :: 0 <= i < |r| ==> !stop(r[i])
    ensures |r| < |s| ==> stop(s[|r|])
  {
    if s == "" || stop(s[0]) then ""
    else
      var r := [s[0]] + Until(s[1..], stop);
      assert s == [s[0]] + s[1..];
      r
  }

  /** `Until` finds the end of a run that is followed by a stop character or by nothing. */
  lemma {:induction false} UntilRun(w: string, rest: string, stop: char -> bool)
    requires forall i :: 0 <= i < |w| ==> !stop(w[i])
    requires rest == "" || stop(rest[0])
    ensures Until(w + rest, stop) == w
  {
    if w == "" {
    } else {
      UntilRun(w[1..], rest, stop);
      assert w + rest == [w[0]] + (w[1..] + rest);
    }
  }

  predicate IsSpace(c: char) { c == ' ' }

  predicate NotSpace(c: char) { c != ' ' }

  /** `a` is a prefix of `a + b`, and dropping it leaves `b`. */
  lemma PrefixOfSum(a: string, b: string)
    ensures a <= a + b
    ensures (a + b)[|a|..] == b
  {
  }

  lemma Assoc(a: string, b: string, c: string)
    ensures a + b + c == a + (b + c)
  {
  }

  /** What is left of a text without the given start and end. */
  function Strip(s: string, open: string, close: string): Option<string> {
    if |open| + |close| <= |s| && open <= s && s[|s| - |close|..] == close then Some(s[|open|..|s| - |close|])
    else None
  }

  lemma StripWrapped(q: string, open: string, close: string)
    ensures Strip(open + q + close, open, close) == Some(q)
  {
    var s := open + q + close;
    PrefixOfSum(open + q, close);
    assert s[|open|..|open| + |q|] == q;
  }

  /** The Unicode White_Space characters, which `str::trim` strips. */
  predicate IsWhitespace(c: char) {
    || '\t' <= c <= '\r' || c == ' ' || c == '\U{0085}' || c == '\U{00A0}' || c == '\U{1680}'
    || '\U{2000}' <= c <= '\U{200A}' || c == '\U{2028}' || c == '\U{2029}' || c == '\U{202F}'
    || c == '\U{205F}' || c == '\U{3000}'
  }

  function Trim(s: string): string {
    if s == "" then ""
    else if IsWhitespace(s[0]) then Trim(s[1..])
    else if IsWhitespace(s[|s| - 1]) then Trim(s[..|s| - 1])
    else s
  }

  predicate IsBlank(s: string) {
    forall i :: 0 <= i < |s| ==> IsWhitespace(s[i])
  }

  lemma {:induction false} TrimBlank(a: string)
    requires IsBlank(a)
    ensures Trim(a) == ""
  {
    if a == "" {
    } else {
      TrimBlank(a[1..]);
    }
  }

  /** Blanks around a text go, on both sides, and nothing else does. */
  lemma {:induction false} TrimLeaves(a: string, t: string, b: string)
    requires IsBlank(a) && IsBlank(b) && t != "" && !IsWhitespace(t[0]) && !IsWhitespace(t[|t| - 1])
    ensures Trim(a + t + b) == t
    decreases |a| + |b|
  {
    var s := a + t + b;
    if a != "" {
      assert s[0] == a[0] && s[1..] == a[1..] + t + b;
      TrimLeaves(a[1..], t, b);
    } else if b != "" {
      var c := b[..|b| - 1];
      assert s[0] == t[0] && s[|s| - 1] == b[|b| - 1] && s[..|s| - 1] == a + t + c;
      TrimLeaves(a, t, c);
    } else {
      assert s == t;
    }
  }

  /** `s.split(c)` for the character that `stop` recognises. */
  function Split(s: string, stop: char -> bool): (parts: seq<string>)
    ensures |parts| >= 1
  {
    var head := Until(s, stop);
    if |head| == |s| then [s] else [head] + Split(s[|head| + 1..], stop)
  }

  lemma SplitLast(s: string, stop: char -> bool)
    requires forall i :: 0 <= i < |s| ==> !stop(s[i])
    ensures Split(s, stop) == [s]
  {
    UntilRun(s, "", stop);
    assert s + "" == s;
  }

  lemma SplitStep(a: string, c: char, rest: string, stop: char -> bool)
    requires stop(c) && forall i :: 0 <= i < |a| ==> !stop(a[i])
    ensures Split(a + [c] + rest, stop) == [a] + Split(rest, stop)
  {
    var s := a + [c] + rest;
    assert s == a + ([c] + rest);
    UntilRun(a, [c] + rest, stop);
    assert s[|a| + 1..] == rest;
  }
}
