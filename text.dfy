/**
 * The string operations the code relies on, written out: `String.prototype.trim`,
 * the regular-expression class `\s`, `split('\n')`, `join`, `startsWith`,
 * `includes`, decimal rendering of numbers and `parseInt(s, 10)` on digits.
 */
module Text {

  /**
   * ECMAScript WhiteSpace and LineTerminator code points: the set that
   * `trim()` removes and that `\s` matches.
   */
  predicate IsSpace(c: char)
  {
    || c == '\t' || c == '\n' || c == '\U{000B}' || c == '\U{000C}' || c == '\r'
    || c == ' ' || c == '\U{00A0}' || c == '\U{1680}'
    || ('\U{2000}' <= c <= '\U{200A}')
    || c == '\U{2028}' || c == '\U{2029}' || c == '\U{202F}' || c == '\U{205F}'
    || c == '\U{3000}' || c == '\U{FEFF}'
  }

  predicate NoSpace(s: string)
  {
    forall i :: 0 <= i < |s| ==> !IsSpace(s[i])
  }

  function TrimStart(s: string): (r: string)
    ensures |r| <= |s| && r == s[|s| - |r|..]
    ensures forall i :: 0 <= i < |s| - |r| ==> IsSpace(s[i])
    ensures r == [] || !IsSpace(r[0])
  {
    if s != [] && IsSpace(s[0]) then TrimStart(s[1..]) else s
  }

  function TrimEnd(s: string): (r: string)
    ensures |r| <= |s| && r == s[..|r|]
    ensures forall i :: |r| <= i < |s| ==> IsSpace(s[i])
    ensures r == [] || !IsSpace(r[|r| - 1])
  {
    if s != [] && IsSpace(s[|s| - 1]) then TrimEnd(s[..|s| - 1]) else s
  }

  /** `s.trim()`: the result neither starts nor ends with white space. */
  function Trim(s: string): (r: string)
    ensures |r| <= |s|
    ensures r == [] || (!IsSpace(r[0]) && !IsSpace(r[|r| - 1]))
  {
    TrimEnd(TrimStart(s))
  }

  /** Trimming a string that neither starts nor ends with white space gives it back. */
  lemma TrimKeeps(s: string)
    requires s == [] || (!IsSpace(s[0]) && !IsSpace(s[|s| - 1]))
    ensures Trim(s) == s
  {
  }

  predicate StartsWith(s: string, prefix: string)
  {
    |prefix| <= |s| && s[..|prefix|] == prefix
  }

  /** Starting with a longer prefix implies starting with the shorter one. */
  lemma StartsWithLonger(s: string, p: string, q: string)
    ensures StartsWith(s, p + q) ==> StartsWith(s, p)
  {
    if StartsWith(s, p + q) {
      assert s[..|p|] == (p + q)[..|p|];
    }
  }

  /** `s.includes(p)`, also the test of a regular expression that is a plain literal. */
  function Contains(s: string, p: string): (r: bool)
    ensures r <==> exists i :: 0 <= i <= |s| && StartsWith(s[i..], p)
  {
    if StartsWith(s, p) then
      assert s[0..] == s;
      true
    else if s == [] then
      false
    else
      var r := Contains(s[1..], p);
      assert forall i :: 1 <= i <= |s| ==> s[i..] == s[1..][i - 1..];
      r
  }

  /** ASCII case folding, which is what a JavaScript `/i` regex does for Latin letters. */
  function LowerAscii(c: char): char
  {
    if 'A' <= c <= 'Z' then (c as int + 32) as char else c
  }

  predicate StartsWithIgnoreCase(s: string, prefix: string)
  {
    |prefix| <= |s| && forall i :: 0 <= i < |prefix| ==> LowerAscii(s[i]) == LowerAscii(prefix[i])
  }

  function ContainsIgnoreCase(s: string, p: string): (r: bool)
    ensures r <==> exists i :: 0 <= i <= |s| && StartsWithIgnoreCase(s[i..], p)
  {
    if StartsWithIgnoreCase(s, p) then
      assert s[0..] == s;
      true
    else if s == [] then
      false
    else
      var r := ContainsIgnoreCase(s[1..], p);
      assert forall i :: 1 <= i <= |s| ==> s[i..] == s[1..][i - 1..];
      r
  }

  /** `s.split('\n')`: the pieces between line feeds, never an empty list. */
  function Split(s: string): (r: seq<string>)
    ensures |r| >= 1
  {
    if s == [] then [""]
    else
      var rest := Split(s[1..]);
      if s[0] == '\n' then [""] + rest else [[s[0]] + rest[0]] + rest[1..]
  }

  /** Text without a line feed splits into itself alone. */
  lemma {:induction false} SplitNoBreak(s: string)
    requires '\n' !in s
    ensures Split(s) == [s]
  {
    if s != [] {
      SplitNoBreak(s[1..]);
      assert [s[0]] + s[1..] == s;
    }
  }

  /** Text splits into itself alone exactly when it has no line feed. */
  lemma SplitWhole(s: string)
    ensures '\n' !in s ==> Split(s) == [s]
  {
    if '\n' !in s {
      SplitNoBreak(s);
    }
  }

  /** No piece of a split holds a line feed. */
  lemma {:induction false} SplitNoLineFeed(s: string)
    ensures forall i :: 0 <= i < |Split(s)| ==> '\n' !in Split(s)[i]
  {
    if s != [] {
      SplitNoLineFeed(s[1..]);
    }
  }

  /** `parts.join(sep)`. */
  function Join(parts: seq<string>, sep: string): string
  {
    if parts == [] then ""
    else if |parts| == 1 then parts[0]
    else parts[0] + sep + Join(parts[1..], sep)
  }

  /** The text a sequence of complete lines came from: each line followed by its line feed. */
  function FlattenLines(lines: seq<string>): string
  {
    if lines == [] then "" else FlattenLines(lines[..|lines| - 1]) + lines[|lines| - 1] + "\n"
  }

  function Last<T>(s: seq<T>): T
    requires |s| >= 1
  {
    s[|s| - 1]
  }

  function AllButLast<T>(s: seq<T>): seq<T>
    requires |s| >= 1
  {
    s[..|s| - 1]
  }

  /** Joining the pieces of a split with line feeds gives the text back. */
  lemma {:induction false} SplitJoin(s: string)
    ensures Join(Split(s), "\n") == s
  {
    if s != [] {
      var rest := Split(s[1..]);
      SplitJoin(s[1..]);
      assert s == [s[0]] + s[1..];
      if s[0] == '\n' {
        assert Split(s) == [""] + rest;
        JoinPrependEmpty(rest);
      } else {
        assert Split(s) == [[s[0]] + rest[0]] + rest[1..];
        JoinPrependChar(s[0], rest);
      }
    }
  }

  /** An empty first piece contributes only its line feed. */
  lemma JoinPrependEmpty(parts: seq<string>)
    requires |parts| >= 1
    ensures Join([""] + parts, "\n") == "\n" + Join(parts, "\n")
  {
    var r := [""] + parts;
    assert r[0] == "" && r[1..] == parts;
    var j := Join(parts, "\n");
    assert Join(r, "\n") == "" + "\n" + j;
    assert "" + "\n" + j == "\n" + j;
  }

  /** A character in front of the first piece stays in front of the joined text. */
  lemma JoinPrependChar(c: char, parts: seq<string>)
    requires |parts| >= 1
    ensures Join([[c] + parts[0]] + parts[1..], "\n") == [c] + Join(parts, "\n")
  {
    var r := [[c] + parts[0]] + parts[1..];
    if |parts| > 1 {
      assert r[0] == [c] + parts[0] && r[1..] == parts[1..];
      var j := Join(parts[1..], "\n");
      assert Join(r, "\n") == ([c] + parts[0]) + "\n" + j;
      assert Join(parts, "\n") == parts[0] + "\n" + j;
      ConcatAssoc([c], parts[0], "\n", j);
    }
  }

  lemma ConcatAssoc(a: string, b: string, c: string, d: string)
    ensures (a + b) + c + d == a + (b + c + d)
  {
  }

  /** A line without a line feed, then a line feed: splitting yields that line, then the pieces of the rest. */
  lemma {:induction false} SplitAfterLine(line: string, rest: string)
    requires '\n' !in line
    ensures Split(line + "\n" + rest) == [line] + Split(rest)
  {
    if line == [] {
      assert line + "\n" + rest == "\n" + rest;
      SplitCons('\n', rest);
    } else {
      SplitAfterLine(line[1..], rest);
      assert line + "\n" + rest == [line[0]] + (line[1..] + "\n" + rest);
      SplitCons(line[0], line[1..] + "\n" + rest);
      assert [line[0]] + line[1..] == line;
    }
  }

  /** Pieces free of line feeds, joined with line feeds, split back into the same pieces. */
  lemma {:induction false} JoinSplit(parts: seq<string>)
    requires parts != []
    requires forall i :: 0 <= i < |parts| ==> '\n' !in parts[i]
    ensures Split(Join(parts, "\n")) == parts
  {
    if |parts| == 1 {
      SplitNoBreak(parts[0]);
    } else {
      JoinSplit(parts[1..]);
      SplitAfterLine(parts[0], Join(parts[1..], "\n"));
      assert [parts[0]] + parts[1..] == parts;
    }
  }

  /** The complete lines, each with its line feed, followed by the last piece, make the joined text. */
  lemma {:induction false} FlattenJoin(parts: seq<string>)
    requires |parts| >= 1
    ensures FlattenLines(AllButLast(parts)) + Last(parts) == Join(parts, "\n")
  {
    if |parts| > 1 {
      var tail := parts[1..];
      FlattenJoin(tail);
      FlattenPrepend(parts[0], AllButLast(tail));
      assert AllButLast(parts) == [parts[0]] + AllButLast(tail);
    }
  }

  lemma {:induction false} FlattenPrepend(line: string, lines: seq<string>)
    ensures FlattenLines([line] + lines) == line + "\n" + FlattenLines(lines)
    decreases |lines|
  {
    if lines != [] {
      FlattenPrepend(line, AllButLast(lines));
      assert AllButLast([line] + lines) == [line] + AllButLast(lines);
    }
  }

  lemma {:induction false} FlattenAppend(a: seq<string>, b: seq<string>)
    ensures FlattenLines(a + b) == FlattenLines(a) + FlattenLines(b)
    decreases |b|
  {
    if b == [] {
      assert a + b == a;
    } else {
      FlattenAppend(a, AllButLast(b));
      assert AllButLast(a + b) == a + AllButLast(b);
    }
  }

  /**
   * Line framing: the complete lines of a split, each with its line feed,
   * followed by the carried-over last piece rebuild the text exactly.
   */
  lemma SplitFraming(s: string)
    ensures FlattenLines(AllButLast(Split(s))) + Last(Split(s)) == s
  {
    FlattenJoin(Split(s));
    SplitJoin(s);
  }

  /** One unfolding of `Split` on a string given as its first character and the rest. */
  lemma SplitCons(x: char, t: string)
    ensures Split([x] + t) ==
      if x == '\n' then [""] + Split(t) else [[x] + Split(t)[0]] + Split(t)[1..]
  {
    assert ([x] + t)[1..] == t;
  }

  /**
   * Splitting is insensitive to where the text was cut: appending `c` to `s`
   * leaves the complete lines of `s` alone and re-splits only its last piece.
   */
  lemma {:induction false} SplitAppend(s: string, c: string)
    ensures Split(s + c) == AllButLast(Split(s)) + Split(Last(Split(s)) + c)
  {
    if s == [] {
      assert s + c == c;
    } else {
      var x, t := s[0], s[1..];
      assert s == [x] + t;
      assert s + c == [x] + (t + c);
      SplitAppend(t, c);
      SplitAppendStep(x, t, c);
    }
  }

  /** The inductive step of `SplitAppend`: one more character in front. */
  lemma SplitAppendStep(x: char, t: string, c: string)
    requires Split(t + c) == AllButLast(Split(t)) + Split(Last(Split(t)) + c)
    ensures Split([x] + t + c) == AllButLast(Split([x] + t)) + Split(Last(Split([x] + t)) + c)
  {
    if x == '\n' {
      SplitAppendStepBreak(x, t, c);
    } else if |Split(t)| == 1 {
      SplitAppendStepShort(x, t, c);
    } else {
      SplitAppendStepNonBreak(x, t, c);
    }
  }

  lemma SplitAppendStepBreak(x: char, t: string, c: string)
    requires x == '\n'
    requires Split(t + c) == AllButLast(Split(t)) + Split(Last(Split(t)) + c)
    ensures Split([x] + t + c) == AllButLast(Split([x] + t)) + Split(Last(Split([x] + t)) + c)
  {
    SplitBreakFront(x, t, c);
    SplitAppendBreak(Split(t), Split(t + c), Split(Last(Split(t)) + c));
  }

  /** A leading line feed contributes an empty first piece, with or without `c` appended. */
  lemma SplitBreakFront(x: char, t: string, c: string)
    requires x == '\n'
    ensures Split([x] + t) == [""] + Split(t)
    ensures Split([x] + t + c) == [""] + Split(t + c)
  {
    SplitCons(x, t);
    SplitCons(x, t + c);
    assert [x] + t + c == [x] + (t + c);
  }

  lemma SplitAppendStepShort(x: char, t: string, c: string)
    requires x != '\n' && |Split(t)| == 1
    ensures Split([x] + t + c) == AllButLast(Split([x] + t)) + Split(Last(Split([x] + t)) + c)
  {
    var u := [x] + t;
    SplitJoin(t);
    assert Split(t) == [t];
    SplitCons(x, t);
    assert Split(u) == [u];
    assert AllButLast(Split(u)) == [] && Last(Split(u)) == u;
  }

  lemma SplitAppendStepNonBreak(x: char, t: string, c: string)
    requires x != '\n' && |Split(t)| > 1
    requires Split(t + c) == AllButLast(Split(t)) + Split(Last(Split(t)) + c)
    ensures Split([x] + t + c) == AllButLast(Split([x] + t)) + Split(Last(Split([x] + t)) + c)
  {
    assert [x] + t + c == [x] + (t + c);
    SplitCons(x, t);
    SplitCons(x, t + c);
    SplitAppendNonBreak(x, Split(t), Split(t + c), Split(Last(Split(t)) + c));
  }

  lemma SplitAppendBreak(rest: seq<string>, rest2: seq<string>, tail: seq<string>)
    requires |rest| >= 1
    requires rest2 == AllButLast(rest) + tail
    ensures [""] + rest2 == AllButLast([""] + rest) + tail
    ensures Last([""] + rest) == Last(rest)
  {
    assert AllButLast([""] + rest) == [""] + AllButLast(rest);
  }

  /** The list step of `SplitAppend` when the first character is not a line feed. */
  lemma SplitAppendNonBreak(x: char, rest: seq<string>, rest2: seq<string>, tail: seq<string>)
    requires |rest| >= 2 && |tail| >= 1
    requires rest2 == AllButLast(rest) + tail
    ensures [[x] + rest2[0]] + rest2[1..] ==
      AllButLast([[x] + rest[0]] + rest[1..]) + tail
    ensures Last([[x] + rest[0]] + rest[1..]) == Last(rest)
  {
    assert rest2[0] == rest[0];
    assert rest2[1..] == rest[1..|rest| - 1] + tail;
    assert AllButLast([[x] + rest[0]] + rest[1..]) == [[x] + rest[0]] + rest[1..|rest| - 1];
  }

  predicate IsDigit(c: char)
  {
    '0' <= c <= '9'
  }

  predicate AllDigits(s: string)
  {
    forall i :: 0 <= i < |s| ==> IsDigit(s[i])
  }

  function DigitChar(d: nat): (c: char)
    requires d < 10
    ensures IsDigit(c)
  {
    ('0' as int + d) as char
  }

  /** Decimal rendering of a natural number, as `${n}` prints it. */
  function NatToString(n: nat): (r: string)
    ensures |r| >= 1 && AllDigits(r)
  {
    if n < 10 then [DigitChar(n)] else NatToString(n / 10) + [DigitChar(n % 10)]
  }

  /** `parseInt(s, 10)` on a non-empty run of ASCII digits. */
  function DigitsValue(s: string): nat
    requires AllDigits(s)
  {
    if s == [] then 0 else DigitsValue(s[..|s| - 1]) * 10 + (s[|s| - 1] as int - '0' as int)
  }

  /** Reading back a rendered number gives the number. */
  lemma {:induction false} DigitsRoundTrip(n: nat)
    ensures DigitsValue(NatToString(n)) == n
  {
    if n >= 10 {
      DigitsRoundTrip(n / 10);
      var s := NatToString(n);
      assert s[..|s| - 1] == NatToString(n / 10);
    }
  }
}
