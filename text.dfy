/** Line-oriented text: building a report out of lines, reading it back, and Python's `repr` of strings. */
module Text {

  predicate NoNewline(s: string) {
    '\n' !in s
  }

  /** Each line followed by a newline, the shape every extractor report has. */
  function Unlines(ls: seq<string>): (r: string)
    ensures r == "" <==> ls == []
    ensures |r| >= |ls|
  {
    if ls == [] then "" else ls[0] + "\n" + Unlines(ls[1..])
  }

  lemma {:induction false} UnlinesAppend(a: seq<string>, b: seq<string>)
    ensures Unlines(a + b) == Unlines(a) + Unlines(b)
    decreases |a|
  {
    if a == [] {
      assert a + b == b;
    } else {
      assert (a + b)[1..] == a[1..] + b;
      UnlinesAppend(a[1..], b);
    }
  }

  /** Adding one line to a report appends that line and its newline. */
  lemma {:induction false} UnlinesSnoc(ls: seq<string>, l: string)
    ensures Unlines(ls + [l]) == Unlines(ls) + l + "\n"
  {
    UnlinesAppend(ls, [l]);
    assert Unlines([l]) == l + "\n" + Unlines([]);
  }

  /** Writing the lines of `ls` one at a time: the report of the first `k + 1` lines extends the
      report of the first `k`. */
  lemma {:induction false} UnlinesPrefixStep(ls: seq<string>, k: nat)
    requires k < |ls|
    ensures Unlines(ls[..k + 1]) == Unlines(ls[..k]) + ls[k] + "\n"
  {
    assert ls[..k + 1] == ls[..k] + [ls[k]];
    UnlinesSnoc(ls[..k], ls[k]);
  }

  /** A concatenation of newline-free texts is newline-free. */
  lemma {:induction false} NoNewlineAppend(a: string, b: string)
    requires NoNewline(a) && NoNewline(b)
    ensures NoNewline(a + b)
  {
  }

  /** The index of the first newline of `s`, or `|s|` when there is none. */
  function FirstNewline(s: string): (i: nat)
    ensures i <= |s|
    ensures i < |s| ==> s[i] == '\n'
    ensures forall k :: 0 <= k < i ==> s[k] != '\n'
  {
    if s == [] || s[0] == '\n' then 0 else 1 + FirstNewline(s[1..])
  }

  /** The lines of `s`: the pieces between newlines, where a final newline ends the last line. */
  function Lines(s: string): seq<string>
    decreases |s|
  {
    if s == [] then []
    else
      var i := FirstNewline(s);
      if i == |s| then [s] else [s[..i]] + Lines(s[i + 1..])
  }

  lemma {:induction false} FirstNewlineAfterLine(l: string, rest: string)
    requires NoNewline(l)
    ensures FirstNewline(l + "\n" + rest) == |l|
  {
    var s := l + "\n" + rest;
    var i := FirstNewline(s);
    assert s[|l|] == '\n';
  }

  /** Reading back a report built from newline-free lines gives exactly those lines. */
  lemma {:induction false} LinesOfUnlines(ls: seq<string>)
    requires forall k :: 0 <= k < |ls| ==> NoNewline(ls[k])
    ensures Lines(Unlines(ls)) == ls
    decreases |ls|
  {
    if ls != [] {
      var l := ls[0];
      var rest := Unlines(ls[1..]);
      var s := l + "\n" + rest;
      FirstNewlineAfterLine(l, rest);
      assert s[..|l|] == l;
      assert s[|l| + 1..] == rest;
      LinesOfUnlines(ls[1..]);
    }
  }

  /** A hexadecimal digit as Python writes it, lower case. */
  function HexDigit(d: nat): (c: char)
    requires d < 16
    ensures c != '\n'
  {
    "0123456789abcdef"[d]
  }

  /** Python's rendering of one character inside a string literal delimited by `quote`.
      Characters outside ASCII are written as themselves. */
  function EscapeChar(c: char, quote: char): (r: string)
    requires quote == '\'' || quote == '"'
    ensures |r| >= 1
    ensures NoNewline(r)
  {
    if c == quote || c == '\\' then ['\\', c]
    else if c == '\t' then "\\t"
    else if c == '\n' then "\\n"
    else if c == '\r' then "\\r"
    else if c < ' ' || c as int == 0x7F then ['\\', 'x', HexDigit(c as int / 16), HexDigit(c as int % 16)]
    else [c]
  }

  function Escape(s: string, quote: char): (r: string)
    requires quote == '\'' || quote == '"'
    ensures |r| >= |s|
    ensures NoNewline(r)
  {
    if s == [] then "" else EscapeChar(s[0], quote) + Escape(s[1..], quote)
  }

  /** Python's `repr` of a string: single quotes, unless the text holds a single quote and no
      double quote, in which case double quotes. */
  function PyRepr(s: string): (r: string)
    ensures |r| >= |s| + 2
    ensures NoNewline(r)
    ensures r[0] == r[|r| - 1] && (r[0] == '\'' || r[0] == '"')
    ensures r[0] == '"' <==> '\'' in s && '"' !in s
  {
    var quote := if '\'' in s && '"' !in s then '"' else '\'';
    [quote] + Escape(s, quote) + [quote]
  }

  /** Text made only of printable ASCII other than quote and backslash is quoted as it is. */
  predicate Plain(s: string) {
    forall k :: 0 <= k < |s| ==> ' ' <= s[k] && s[k] as int < 0x7F && s[k] != '\'' && s[k] != '\\'
  }

  lemma {:induction false} EscapePlain(s: string, quote: char)
    requires Plain(s)
    requires quote == '\''
    ensures Escape(s, quote) == s
    decreases |s|
  {
    if s != [] {
      assert Plain(s[1..]) by {
        forall k | 0 <= k < |s[1..]| ensures ' ' <= s[1..][k] { assert s[1..][k] == s[k + 1]; }
      }
      EscapePlain(s[1..], quote);
      assert s == [s[0]] + s[1..];
    }
  }

  lemma {:induction false} PyReprPlain(s: string)
    requires Plain(s)
    ensures PyRepr(s) == "'" + s + "'"
  {
    EscapePlain(s, '\'');
  }

  function JoinReprs(xs: seq<string>): (r: string)
    ensures NoNewline(r)
  {
    if xs == [] then ""
    else if |xs| == 1 then PyRepr(xs[0])
    else PyRepr(xs[0]) + ", " + JoinReprs(xs[1..])
  }

  /** Python's `repr` of a list of strings: `['a', 'b']`. It never contains a newline. */
  function ListRepr(xs: seq<string>): (r: string)
    ensures NoNewline(r)
    ensures xs == [] ==> r == "[]"
  {
    "[" + JoinReprs(xs) + "]"
  }
}
