/**
 * The handful of Rust string operations the response protocol relies on:
 * `starts_with`, `ends_with`, `trim`, `lines`, `split('\n')` and `join("\n")`,
 * over strings modelled as sequences of Unicode scalar values.
 */
module Text {
  import opened Wrappers

  predicate StartsWith(s: string, prefix: string) {
    |prefix| <= |s| && s[..|prefix|] == prefix
  }

  predicate EndsWith(s: string, suffix: string) {
    |suffix| <= |s| && s[|s| - |suffix|..] == suffix
  }

  /** `contains`: `part` occurs somewhere in `s`. */
  predicate Contains(s: string, part: string) {
    exists i, j :: 0 <= i <= j <= |s| && s[i..j] == part
  }

  /** Unicode White_Space, the set `char::is_whitespace` (and so `str::trim`) uses. */
  predicate IsWhitespace(c: char) {
    var n := c as int;
    (0x09 <= n <= 0x0D) || n == 0x20 || n == 0x85 || n == 0xA0 || n == 0x1680
    || (0x2000 <= n <= 0x200A) || n == 0x2028 || n == 0x2029 || n == 0x202F
    || n == 0x205F || n == 0x3000
  }

  /** `trim_start`: drops the leading whitespace. */
  function TrimStart(s: string): string {
    if |s| > 0 && IsWhitespace(s[0]) then TrimStart(s[1..]) else s
  }

  /** `trim_end`: drops the trailing whitespace. */
  function TrimEnd(s: string): string {
    if |s| > 0 && IsWhitespace(s[|s| - 1]) then TrimEnd(s[..|s| - 1]) else s
  }

  function Trim(s: string): string {
    TrimEnd(TrimStart(s))
  }

  /** `trim_start` keeps a suffix, drops only whitespace, and stops at the first other character. */
  lemma {:induction false} TrimStartShape(s: string)
    ensures |TrimStart(s)| <= |s| && TrimStart(s) == s[|s| - |TrimStart(s)|..]
    ensures TrimStart(s) == [] || !IsWhitespace(TrimStart(s)[0])
    ensures forall i :: 0 <= i < |s| - |TrimStart(s)| ==> IsWhitespace(s[i])
  {
    if |s| > 0 && IsWhitespace(s[0]) {
      TrimStartShape(s[1..]);
      var r := TrimStart(s);
      assert s[1..][|s| - 1 - |r|..] == s[|s| - |r|..];
      forall i | 0 <= i < |s| - |r| ensures IsWhitespace(s[i]) {
        if i > 0 {
          assert s[1..][i - 1] == s[i];
        }
      }
    }
  }

  /** `trim_end` keeps a prefix, drops only whitespace, and stops at the last other character. */
  lemma {:induction false} TrimEndShape(s: string)
    ensures |TrimEnd(s)| <= |s| && TrimEnd(s) == s[..|TrimEnd(s)|]
    ensures TrimEnd(s) == [] || !IsWhitespace(TrimEnd(s)[|TrimEnd(s)| - 1])
    ensures forall i :: |TrimEnd(s)| <= i < |s| ==> IsWhitespace(s[i])
  {
    if |s| > 0 && IsWhitespace(s[|s| - 1]) {
      var s' := s[..|s| - 1];
      TrimEndShape(s');
      var r := TrimEnd(s);
      assert s'[..|r|] == s[..|r|];
      forall i | |r| <= i < |s| ensures IsWhitespace(s[i]) {
        if i < |s| - 1 {
          assert s'[i] == s[i];
        }
      }
    }
  }

  /** A string that neither starts nor ends with whitespace is its own trim. */
  lemma TrimUnchanged(s: string)
    requires s != [] && !IsWhitespace(s[0]) && !IsWhitespace(s[|s| - 1])
    ensures Trim(s) == s
  {
    assert TrimStart(s) == s;
  }

  /** Drops one carriage return at the end of a line, as `lines` does before a '\n'. */
  function StripCR(line: string): string {
    if |line| > 0 && line[|line| - 1] == '\r' then line[..|line| - 1] else line
  }

  function StripEach(lines: seq<string>): (r: seq<string>)
    ensures |r| == |lines|
  {
    if lines == [] then [] else [StripCR(lines[0])] + StripEach(lines[1..])
  }

  /** `str::split('\n')`: the pieces between '\n's, one more than there are '\n's. */
  function SplitNewlines(s: string): (r: seq<string>)
    ensures |r| >= 1
  {
    if s == [] then [""]
    else
      var rest := SplitNewlines(s[1..]);
      if s[0] == '\n' then [""] + rest
      else [[s[0]] + rest[0]] + rest[1..]
  }

  /**
   * `str::lines`: the pieces between '\n's, where a "\r\n" ending counts
   * as one line ending and the final line ending is optional. A carriage
   * return not followed by '\n' stays in its line.
   */
  function Lines(s: string): seq<string> {
    LinesOfPieces(SplitNewlines(s))
  }

  /**
   * Every piece but the last was followed by '\n'; the last is empty exactly
   * when the text is empty or ends with '\n', and is then not a line.
   */
  function LinesOfPieces(pieces: seq<string>): seq<string>
    requires |pieces| >= 1
  {
    var last := pieces[|pieces| - 1];
    StripEach(pieces[..|pieces| - 1]) + (if last == "" then [] else [last])
  }

  /** `join("\n")` on a slice of strings. */
  function JoinLines(parts: seq<string>): string {
    if |parts| == 0 then ""
    else if |parts| == 1 then parts[0]
    else parts[0] + "\n" + JoinLines(parts[1..])
  }

  /** Joining the pieces of a split gives back the string it was split from. */
  lemma {:induction false} JoinSplit(s: string)
    ensures JoinLines(SplitNewlines(s)) == s
  {
    if s != [] {
      var rest := SplitNewlines(s[1..]);
      JoinSplit(s[1..]);
      if s[0] == '\n' {
        assert SplitNewlines(s) == [""] + rest;
        assert s == "\n" + s[1..];
      } else if |rest| == 1 {
        assert s == [s[0]] + rest[0];
      } else {
        assert JoinLines(rest) == rest[0] + "\n" + JoinLines(rest[1..]);
        assert s == [s[0]] + s[1..];
      }
    }
  }

  /** A text without '\n' is a single piece. */
  lemma {:induction false} SplitSingle(s: string)
    requires '\n' !in s
    ensures SplitNewlines(s) == [s]
  {
    if s != [] {
      assert s[1..] == [] || s[1..][0] == s[1];
      assert '\n' !in s[1..] by {
        forall j | 0 <= j < |s| - 1 ensures s[1..][j] != '\n' {
          assert s[1..][j] == s[j + 1];
        }
      }
      SplitSingle(s[1..]);
      assert s == [s[0]] + s[1..];
    }
  }

  /** Splitting at a '\n' splits the two sides separately. */
  lemma {:induction false} SplitAppend(x: string, y: string)
    ensures SplitNewlines(x + "\n" + y) == SplitNewlines(x) + SplitNewlines(y)
  {
    var s := x + "\n" + y;
    if x == [] {
      assert s == "\n" + y;
      assert s[1..] == y;
    } else {
      assert s[0] == x[0];
      assert s[1..] == x[1..] + "\n" + y;
      SplitAppend(x[1..], y);
    }
  }

  /** Pieces of a text without carriage returns have none either. */
  lemma {:induction false} SplitKeepsNoCR(s: string)
    requires '\r' !in s
    ensures forall k :: 0 <= k < |SplitNewlines(s)| ==> '\r' !in SplitNewlines(s)[k]
  {
    if s != [] {
      assert '\r' !in s[1..] by {
        forall j | 0 <= j < |s| - 1 ensures s[1..][j] != '\r' {
          assert s[1..][j] == s[j + 1];
        }
      }
      SplitKeepsNoCR(s[1..]);
    }
  }

  /** `lines` of a text that continues after a '\n': the pieces before it, then the rest. */
  lemma LinesAfter(x: string, y: string)
    ensures Lines(x + "\n" + y) == StripEach(SplitNewlines(x)) + Lines(y)
  {
    SplitAppend(x, y);
    LinesOfPiecesAppend(SplitNewlines(x), SplitNewlines(y));
  }

  lemma LinesOfPiecesAppend(a: seq<string>, b: seq<string>)
    requires |b| >= 1
    ensures LinesOfPieces(a + b) == StripEach(a) + LinesOfPieces(b)
  {
    var last := b[|b| - 1];
    var final := if last == "" then [] else [last];
    var front := b[..|b| - 1];
    assert (a + b)[..|a + b| - 1] == a + front;
    StripEachAppend(a, front);
    var x, y := StripEach(a), StripEach(front);
    assert (x + y) + final == x + (y + final);
  }

  lemma {:induction false} StripEachAppend(a: seq<string>, b: seq<string>)
    ensures StripEach(a + b) == StripEach(a) + StripEach(b)
  {
    if a == [] {
      assert a + b == b;
    } else {
      assert (a + b)[1..] == a[1..] + b;
      StripEachAppend(a[1..], b);
    }
  }

  /** Text without carriage returns, followed by '\n', reads back as its split pieces. */
  lemma LinesOfText(text: string, rest: string)
    requires '\r' !in text
    ensures Lines(text + "\n" + rest) == SplitNewlines(text) + Lines(rest)
  {
    LinesAfter(text, rest);
    SplitKeepsNoCR(text);
    StripEachNoCR(SplitNewlines(text));
  }

  /** Stripping changes nothing in lines without carriage returns. */
  lemma {:induction false} StripEachNoCR(lines: seq<string>)
    requires forall k :: 0 <= k < |lines| ==> '\r' !in lines[k]
    ensures StripEach(lines) == lines
  {
    if lines != [] {
      var l := lines[0];
      if |l| > 0 {
        assert l[|l| - 1] in l;
      }
      StripEachNoCR(lines[1..]);
    }
  }

  /** A line with no '\n' and no final carriage return, followed by '\n', is one line. */
  lemma LinesOfLine(line: string, rest: string)
    requires '\n' !in line
    requires line == [] || line[|line| - 1] != '\r'
    ensures Lines(line + "\n" + rest) == [line] + Lines(rest)
  {
    LinesAfter(line, rest);
    SplitSingle(line);
    assert StripEach([line]) == [line];
  }

  /** `lines` distributes over a concatenation whose first part ends a line. */
  lemma LinesAppend(x: string, y: string)
    requires x == [] || x[|x| - 1] == '\n'
    ensures Lines(x + y) == Lines(x) + Lines(y)
  {
    if x == [] {
      assert Lines(x) == [];
      assert x + y == y;
    } else {
      var x' := x[..|x| - 1];
      assert x == x' + "\n" + "";
      assert x + y == x' + "\n" + y;
      LinesAfter(x', y);
      LinesAfter(x', "");
      assert Lines("") == [];
    }
  }

  /** A string that, on a line of its own, comes back unchanged from `lines`. */
  predicate StandsAlone(s: string) {
    '\n' !in s && (s == [] || s[|s| - 1] != '\r')
  }

  /** A piece without '\n' followed by one that stands alone on a line stands alone with it. */
  lemma StandsAloneJoin(a: string, b: string)
    requires '\n' !in a && StandsAlone(b) && (b == [] ==> StandsAlone(a))
    ensures StandsAlone(a + b)
  {
    assert forall c :: c in a + b ==> c in a || c in b;
    if b == [] {
      assert a + b == a;
    } else {
      assert (a + b)[|a + b| - 1] == b[|b| - 1];
    }
  }

  /** One more line at the end of a text that is empty or ends a line. */
  lemma LinesLastLine(before: string, item: string)
    requires before == [] || before[|before| - 1] == '\n'
    requires StandsAlone(item)
    ensures Lines(before + (item + "\n")) == Lines(before) + [item]
  {
    LinesAppend(before, item + "\n");
    assert item + "\n" == item + "\n" + "";
    LinesOfLine(item, "");
    assert Lines("") == [];
  }

  /** A text between an opening and a closing line reads back between them. */
  lemma FramedLines(open: string, body: string, close: string)
    requires StandsAlone(open) && StandsAlone(close)
    requires body == [] || body[|body| - 1] == '\n'
    ensures Lines(open + "\n" + body + (close + "\n")) == [open] + Lines(body) + [close]
  {
    assert open + "\n" + body + (close + "\n") == open + "\n" + (body + (close + "\n"));
    LinesOfLine(open, body + (close + "\n"));
    LinesLastLine(body, close);
  }

  /** A text between an opening and a closing line reads back as its pieces between them. */
  lemma FramedText(open: string, text: string, close: string)
    requires StandsAlone(open) && StandsAlone(close) && '\r' !in text
    ensures Lines(open + "\n" + (text + "\n") + (close + "\n")) == [open] + SplitNewlines(text) + [close]
  {
    FramedLines(open, text + "\n", close);
    LinesOfEndedText(text);
  }

  /** A text without carriage returns, ended by '\n', has its pieces as lines. */
  lemma LinesOfEndedText(text: string)
    requires '\r' !in text
    ensures Lines(text + "\n") == SplitNewlines(text)
  {
    assert text + "\n" == text + "\n" + "";
    LinesOfText(text, "");
    assert Lines("") == [];
  }

  /** The last line of a text needs no line ending: with or without it, `lines` reads the same. */
  lemma FinalLineEnding(before: string, item: string)
    requires before == [] || before[|before| - 1] == '\n'
    requires StandsAlone(item) && item != []
    ensures Lines(before + item) == Lines(before + (item + "\n"))
  {
    LinesAppend(before, item);
    SplitSingle(item);
    assert StripEach([]) == [];
    LinesLastLine(before, item);
  }
}
