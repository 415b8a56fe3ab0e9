/**
 * The parts of Python 3's `str` and `posixpath` that the recipe relies on:
 * `splitlines`, `split`, `strip`, `lower`, `replace`, `join`, `os.path.join`
 * and `os.path.basename`, stated over `string` (a `seq<char>`).
 */
module PyStr {

  /** Characters for which `str.isspace()` holds; `str.split()` and
      `str.strip()` without arguments separate and trim on exactly these. */
  predicate IsSpace(c: char) {
    c == ' ' || ('\t' <= c <= '\r') || ('\U{1c}' <= c <= '\U{1f}') ||
    c == '\U{85}' || c == '\U{a0}' || c == '\U{1680}' ||
    ('\U{2000}' <= c <= '\U{200a}') || c == '\U{2028}' || c == '\U{2029}' ||
    c == '\U{202f}' || c == '\U{205f}' || c == '\U{3000}'
  }

  /** Line boundaries recognised by `str.splitlines()` ("\r\n" counts as one). */
  predicate IsLineBreak(c: char) {
    ('\n' <= c <= '\r') || ('\U{1c}' <= c <= '\U{1e}') ||
    c == '\U{85}' || c == '\U{2028}' || c == '\U{2029}'
  }

  /** `not s.strip()`: the string is empty or whitespace only. */
  predicate IsBlank(s: string) {
    forall i | 0 <= i < |s| :: IsSpace(s[i])
  }

  predicate HasNoLineBreak(s: string) {
    forall i | 0 <= i < |s| :: !IsLineBreak(s[i])
  }

  /** `s.splitlines()` */
  function SplitLines(s: string): seq<string> {
    LinesFrom(s, "")
  }

  /** The lines of `s`, where `line` holds the characters already read of
      the current line. A boundary at the very end opens no further line. */
  function LinesFrom(s: string, line: string): seq<string>
    decreases |s|
  {
    if s == [] then (if line == [] then [] else [line])
    else if s[0] == '\r' && |s| > 1 && s[1] == '\n' then [line] + LinesFrom(s[2..], "")
    else if IsLineBreak(s[0]) then [line] + LinesFrom(s[1..], "")
    else LinesFrom(s[1..], line + [s[0]])
  }

  /** The lines that are not blank, in order (`[p for p in lines if p.strip()]`). */
  function NonBlankLines(lines: seq<string>): seq<string> {
    if lines == [] then []
    else (if IsBlank(lines[0]) then [] else [lines[0]]) + NonBlankLines(lines[1..])
  }

  /** Every line `NonBlankLines` keeps is not blank. */
  lemma {:induction false} NonBlankLinesAreNotBlank(lines: seq<string>)
    ensures forall i | 0 <= i < |NonBlankLines(lines)| :: !IsBlank(NonBlankLines(lines)[i])
  {
    if lines != [] {
      NonBlankLinesAreNotBlank(lines[1..]);
      var head := if IsBlank(lines[0]) then [] else [lines[0]];
      assert NonBlankLines(lines) == head + NonBlankLines(lines[1..]);
    }
  }

  /** `s.split()`: the maximal runs of non-whitespace characters. */
  function Split(s: string): seq<string> {
    TokensFrom(s, "")
  }

  function TokensFrom(s: string, token: string): seq<string>
    decreases |s|
  {
    if s == [] then (if token == [] then [] else [token])
    else if IsSpace(s[0]) then (if token == [] then [] else [token]) + TokensFrom(s[1..], "")
    else TokensFrom(s[1..], token + [s[0]])
  }

  /** A token of `str.split()`: non-empty and free of whitespace. */
  predicate IsToken(t: string) {
    t != [] && forall i | 0 <= i < |t| :: !IsSpace(t[i])
  }

  /** The characters of `s` that are not whitespace, in order. */
  function WithoutSpaces(s: string): string {
    if s == [] then [] else (if IsSpace(s[0]) then [] else [s[0]]) + WithoutSpaces(s[1..])
  }

  function Concat(parts: seq<string>): string {
    if parts == [] then [] else parts[0] + Concat(parts[1..])
  }

  /** `sep.join(parts)` */
  function Join(sep: string, parts: seq<string>): string {
    if parts == [] then []
    else if |parts| == 1 then parts[0]
    else parts[0] + sep + Join(sep, parts[1..])
  }

  function AsciiLower(c: char): char {
    if 'A' <= c <= 'Z' then (c as int + 32) as char else c
  }

  /** `s.lower()`, folding the ASCII letters. */
  function Lower(s: string): string {
    seq(|s|, i requires 0 <= i < |s| => AsciiLower(s[i]))
  }

  /** `s.replace(from, to)` for one-character `from` and `to`. */
  function Replace(s: string, from: char, to: char): (r: string)
    ensures |r| == |s|
    ensures forall i | 0 <= i < |s| :: s[i] != from ==> r[i] == s[i]
    ensures forall i | 0 <= i < |s| :: s[i] == from ==> r[i] == to
    ensures from != to ==> forall i | 0 <= i < |r| :: r[i] != from
  {
    if s == [] then [] else [if s[0] == from then to else s[0]] + Replace(s[1..], from, to)
  }

  /** Replacing a character by itself changes nothing. */
  lemma {:induction false} ReplaceSame(s: string, c: char)
    ensures Replace(s, c, c) == s
  {
    if s != [] {
      ReplaceSame(s[1..], c);
      assert s == [s[0]] + s[1..];
    }
  }

  /** `os.path.join(a, b)` (posixpath, with `sep` as the separator). */
  function PathJoin(a: string, b: string, sep: char): string {
    if b != [] && b[0] == sep then b
    else if a == [] || a[|a| - 1] == sep then a + b
    else a + [sep] + b
  }

  /** `os.path.basename(p)`: what follows the last separator. */
  function Basename(p: string, sep: char): string
    decreases |p|
  {
    if p == [] || p[|p| - 1] == sep then [] else Basename(p[..|p| - 1], sep) + [p[|p| - 1]]
  }

  lemma {:induction false} NonBlankLinesAppend(a: seq<string>, b: seq<string>)
    ensures NonBlankLines(a + b) == NonBlankLines(a) + NonBlankLines(b)
  {
    if a != [] {
      assert (a + b)[0] == a[0] && (a + b)[1..] == a[1..] + b;
      NonBlankLinesAppend(a[1..], b);
    } else {
      assert a + b == b;
    }
  }

  /** A line break read after `line` closes it and starts the lines of `rest`. */
  lemma NonBlankAfterBreak(line: string, rest: string)
    ensures NonBlankLines([line] + LinesFrom(rest, ""))
         == NonBlankLines(LinesFrom([], line)) + NonBlankLines(LinesFrom(rest, ""))
  {
    NonBlankLinesAppend([line], LinesFrom(rest, ""));
    if line == [] {
      assert IsBlank(line);
    }
  }

  /** A newline added between two texts separates their lines; at worst it
      adds one empty line, which blank-line filtering removes. */
  lemma {:induction false} LinesFromNewline(a: string, b: string, line: string)
    ensures NonBlankLines(LinesFrom(a + "\n" + b, line))
         == NonBlankLines(LinesFrom(a, line)) + NonBlankLines(LinesFrom(b, ""))
    decreases |a|
  {
    if a == [] {
      NewlineAtEnd(b, line);
    } else if a[0] == '\r' && |a| == 1 {
      CarriageReturnAtEnd(b, line);
    } else if IsLineBreak(a[0]) {
      var w := if a[0] == '\r' && a[1] == '\n' then 2 else 1;
      LinesFromNewline(a[w..], b, "");
      StepOverBreak(a, b, line, w);
      PrefixLine(line, LinesFrom(a[w..] + "\n" + b, ""), LinesFrom(a[w..], ""), LinesFrom(b, ""));
    } else {
      LinesFromNewline(a[1..], b, line + [a[0]]);
      CharBeforeNewline(a, b, line);
    }
  }

  lemma NewlineAtEnd(b: string, line: string)
    ensures NonBlankLines(LinesFrom([] + "\n" + b, line))
         == NonBlankLines(LinesFrom([], line)) + NonBlankLines(LinesFrom(b, ""))
  {
    var s := [] + "\n" + b;
    assert s[0] == '\n' && s[1..] == b;
    assert LinesFrom(s, line) == [line] + LinesFrom(b, "");
    NonBlankAfterBreak(line, b);
  }

  lemma CarriageReturnAtEnd(b: string, line: string)
    ensures NonBlankLines(LinesFrom("\r" + "\n" + b, line))
         == NonBlankLines(LinesFrom("\r", line)) + NonBlankLines(LinesFrom(b, ""))
  {
    var s := "\r" + "\n" + b;
    assert s[0] == '\r' && s[1] == '\n' && s[2..] == b;
    assert LinesFrom(s, line) == [line] + LinesFrom(b, "");
    assert LinesFrom("\r", line) == [line] + LinesFrom([], "");
    NonBlankLinesAppend([line], LinesFrom(b, ""));
  }

  lemma PrefixLine(line: string, x: seq<string>, y: seq<string>, z: seq<string>)
    requires NonBlankLines(x) == NonBlankLines(y) + NonBlankLines(z)
    ensures NonBlankLines([line] + x) == NonBlankLines([line] + y) + NonBlankLines(z)
  {
    ConsLine(line, x);
    ConsLine(line, y);
    AppendAssociates(if IsBlank(line) then [] else [line], NonBlankLines(y), NonBlankLines(z));
  }

  lemma TailOfJoin<T>(a: seq<T>, m: seq<T>, b: seq<T>)
    requires a != []
    ensures (a + m + b)[0] == a[0] && (a + m + b)[1..] == a[1..] + m + b
  {
  }

  lemma AppendAssociates<T>(a: seq<T>, b: seq<T>, c: seq<T>)
    ensures a + (b + c) == (a + b) + c
  {
  }

  lemma ConsLine(line: string, x: seq<string>)
    ensures NonBlankLines([line] + x) == (if IsBlank(line) then [] else [line]) + NonBlankLines(x)
  {
    assert ([line] + x)[0] == line && ([line] + x)[1..] == x;
  }

  lemma StepOverBreak(a: string, b: string, line: string, w: nat)
    requires a != [] && IsLineBreak(a[0]) && !(a[0] == '\r' && |a| == 1)
    requires w == if a[0] == '\r' && a[1] == '\n' then 2 else 1
    ensures LinesFrom(a + "\n" + b, line) == [line] + LinesFrom(a[w..] + "\n" + b, "")
    ensures LinesFrom(a, line) == [line] + LinesFrom(a[w..], "")
  {
    var s := a + "\n" + b;
    if w == 2 {
      assert s[0] == '\r' && s[1] == '\n' && s[2..] == a[2..] + "\n" + b;
    } else {
      assert s[0] == a[0] && s[1..] == a[1..] + "\n" + b;
      assert |a| > 1 ==> s[1] == a[1];
    }
  }

  lemma CharBeforeNewline(a: string, b: string, line: string)
    requires a != [] && !IsLineBreak(a[0])
    requires NonBlankLines(LinesFrom(a[1..] + "\n" + b, line + [a[0]]))
          == NonBlankLines(LinesFrom(a[1..], line + [a[0]])) + NonBlankLines(LinesFrom(b, ""))
    ensures NonBlankLines(LinesFrom(a + "\n" + b, line))
         == NonBlankLines(LinesFrom(a, line)) + NonBlankLines(LinesFrom(b, ""))
  {
    var s := a + "\n" + b;
    TailOfJoin(a, "\n", b);
    OrdinaryChar(s, line);
    OrdinaryChar(a, line);
  }

  /** A character that is no line boundary extends the current line. */
  lemma OrdinaryChar(s: string, line: string)
    requires s != [] && !IsLineBreak(s[0])
    ensures LinesFrom(s, line) == LinesFrom(s[1..], line + [s[0]])
  {
  }

  /** Joining two texts with "\n" joins their non-blank lines. */
  lemma SplitLinesAroundNewline(a: string, b: string)
    ensures NonBlankLines(SplitLines(a + "\n" + b))
         == NonBlankLines(SplitLines(a)) + NonBlankLines(SplitLines(b))
  {
    LinesFromNewline(a, b, "");
  }

  lemma {:induction false} LinesFromSingle(s: string, line: string)
    requires HasNoLineBreak(s)
    ensures LinesFrom(s, line) == if line + s == [] then [] else [line + s]
    decreases |s|
  {
    if s == [] {
      assert line + s == line;
    } else {
      assert !IsLineBreak(s[0]) && s[0] != '\r';
      assert line + s == (line + [s[0]]) + s[1..];
      LinesFromSingle(s[1..], line + [s[0]]);
    }
  }

  /** A text without line boundaries is one line (none when empty). */
  lemma SplitLinesOfLine(s: string)
    requires HasNoLineBreak(s)
    ensures SplitLines(s) == if s == [] then [] else [s]
  {
    LinesFromSingle(s, "");
    assert "" + s == s;
  }

  lemma {:induction false} TokensFromAtSpace(a: string, c: char, b: string, token: string)
    requires IsSpace(c)
    ensures TokensFrom(a + [c] + b, token) == TokensFrom(a, token) + TokensFrom(b, "")
    decreases |a|
  {
    var s := a + [c] + b;
    if a == [] {
      assert s[0] == c && s[1..] == b;
    } else {
      assert s[0] == a[0] && s[1..] == a[1..] + [c] + b;
      if IsSpace(a[0]) {
        TokensFromAtSpace(a[1..], c, b, "");
      } else {
        TokensFromAtSpace(a[1..], c, b, token + [a[0]]);
      }
    }
  }

  /** `split()` separates on every whitespace character, not only on "\n":
      the tokens on both sides of one are the tokens of each side. */
  lemma SplitAtSpace(a: string, c: char, b: string)
    requires IsSpace(c)
    ensures Split(a + [c] + b) == Split(a) + Split(b)
  {
    TokensFromAtSpace(a, c, b, "");
  }

  lemma {:induction false} TokensFromWord(w: string, token: string)
    requires forall i | 0 <= i < |w| :: !IsSpace(w[i])
    ensures TokensFrom(w, token) == if token + w == [] then [] else [token + w]
    decreases |w|
  {
    if w == [] {
      assert token + w == token;
    } else {
      assert token + w == (token + [w[0]]) + w[1..];
      TokensFromWord(w[1..], token + [w[0]]);
    }
  }

  /** A non-empty run of non-whitespace characters is a single token. */
  lemma SplitOfWord(w: string)
    requires IsToken(w)
    ensures Split(w) == [w]
  {
    TokensFromWord(w, "");
    assert "" + w == w;
  }

  lemma {:induction false} TokensFromShape(s: string, token: string)
    requires forall i | 0 <= i < |token| :: !IsSpace(token[i])
    ensures forall k | 0 <= k < |TokensFrom(s, token)| :: IsToken(TokensFrom(s, token)[k])
    ensures Concat(TokensFrom(s, token)) == token + WithoutSpaces(s)
    decreases |s|
  {
    if s == [] {
      if token != [] {
        assert Concat([token]) == token + Concat([]);
      }
    } else if IsSpace(s[0]) {
      TokensFromShape(s[1..], "");
      var rest := TokensFrom(s[1..], "");
      assert WithoutSpaces(s) == WithoutSpaces(s[1..]);
      if token != [] {
        assert ([token] + rest)[0] == token && ([token] + rest)[1..] == rest;
      } else {
        assert [] + rest == rest;
      }
    } else {
      TokensFromShape(s[1..], token + [s[0]]);
      assert WithoutSpaces(s) == [s[0]] + WithoutSpaces(s[1..]);
    }
  }

  /** Every token of `split()` is non-empty and whitespace-free, and together
      the tokens hold exactly the non-whitespace characters, in order. */
  lemma SplitShape(s: string)
    ensures forall k | 0 <= k < |Split(s)| :: IsToken(Split(s)[k])
    ensures Concat(Split(s)) == WithoutSpaces(s)
  {
    TokensFromShape(s, "");
  }

  lemma {:induction false} BasenameAfterSeparator(x: string, b: string, sep: char)
    requires x == [] || x[|x| - 1] == sep
    requires sep !in b
    ensures Basename(x + b, sep) == b
    decreases |b|
  {
    if b == [] {
      assert x + b == x;
    } else {
      var p := x + b;
      assert p[..|p| - 1] == x + b[..|b| - 1];
      assert p[|p| - 1] == b[|b| - 1];
      BasenameAfterSeparator(x, b[..|b| - 1], sep);
      assert b == b[..|b| - 1] + [b[|b| - 1]];
    }
  }

  /** The base name of `os.path.join(a, b)` is `b` when `b` holds no separator. */
  lemma BasenameOfJoin(a: string, b: string, sep: char)
    requires sep !in b
    ensures Basename(PathJoin(a, b, sep), sep) == b
  {
    assert !(b != [] && b[0] == sep) by {
      if b != [] { assert b[0] in b; }
    }
    if a == [] || a[|a| - 1] == sep {
      BasenameAfterSeparator(a, b, sep);
    } else {
      BasenameAfterSeparator(a + [sep], b, sep);
      assert a + [sep] + b == (a + [sep]) + b;
    }
  }
}
