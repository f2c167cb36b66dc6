/** String operations the source relies on, with JavaScript's meaning:
    `join`, `split` on one character, `startsWith`, `includes`, ASCII `toLowerCase`/`toUpperCase`,
    `trim` over JavaScript's whitespace, and the decimal text of an integer. */
module Text {

  /** `parts.join(sep)`: the parts with `sep` between neighbours; the empty list joins to "". */
  function Join(parts: seq<string>, sep: string): string
  {
    if parts == [] then ""
    else if |parts| == 1 then parts[0]
    else parts[0] + sep + Join(parts[1..], sep)
  }

  /** Joining a list cut in two is joining the halves with one more separator between them. */
  lemma {:induction false} JoinAppend(a: seq<string>, b: seq<string>, sep: string)
    requires a != [] && b != []
    ensures Join(a + b, sep) == Join(a, sep) + sep + Join(b, sep)
  {
    if |a| == 1 {
      assert (a + b)[1..] == b;
    } else {
      assert (a + b)[1..] == a[1..] + b;
      JoinAppend(a[1..], b, sep);
    }
  }

  /** The summed lengths of the parts. */
  function TotalLength(parts: seq<string>): nat
  {
    if parts == [] then 0 else |parts[0]| + TotalLength(parts[1..])
  }

  /** A join of `n` parts holds the parts and exactly `n - 1` separators. */
  lemma {:induction false} JoinLength(parts: seq<string>, sep: string)
    requires parts != []
    ensures |Join(parts, sep)| == TotalLength(parts) + |sep| * (|parts| - 1)
  {
    if |parts| > 1 {
      JoinLength(parts[1..], sep);
    }
  }

  /** The text of a multi-line template: its lines with a newline between neighbours. */
  function JoinLines(lines: seq<string>): string
  {
    Join(lines, "\n")
  }

  /** `s.startsWith(p)`. */
  predicate StartsWith(s: string, p: string)
  {
    |p| <= |s| && s[..|p|] == p
  }

  /** A line built from a literal that disagrees with `p` at position `i` does not start with `p`. */
  lemma PrefixMismatch(a: string, x: string, p: string, i: nat)
    requires i < |a| && i < |p| && a[i] != p[i]
    ensures !StartsWith(a + x, p)
  {
  }

  /** A text that disagrees with `p` at position `i` does not start with `p`. */
  lemma MismatchAt(a: string, p: string, i: nat)
    requires i < |a| && i < |p| && a[i] != p[i]
    ensures !StartsWith(a, p)
  {
  }

  /** A text built from `p` followed by anything starts with `p`. */
  lemma StartsWithConcat(p: string, rest: string)
    ensures StartsWith(p + rest, p)
  {
    assert (p + rest)[..|p|] == p;
  }

  /** The lines of `lines` that start with `p`, in order. */
  function WithPrefix(lines: seq<string>, p: string): (r: seq<string>)
    ensures |r| <= |lines|
  {
    if lines == [] then []
    else (if StartsWith(lines[0], p) then [lines[0]] else []) + WithPrefix(lines[1..], p)
  }

  /** Three lines none of which starts with `p` leave nothing. */
  lemma WithPrefixOfThree(a: string, b: string, c: string, p: string)
    requires !StartsWith(a, p) && !StartsWith(b, p) && !StartsWith(c, p)
    ensures WithPrefix([a, b, c], p) == []
  {
    WithPrefixNone([a, b, c], p);
  }

  lemma {:induction false} WithPrefixConcat(a: seq<string>, b: seq<string>, p: string)
    ensures WithPrefix(a + b, p) == WithPrefix(a, p) + WithPrefix(b, p)
  {
    if a == [] {
      assert a + b == b;
    } else {
      var ab := a + b;
      var head := if StartsWith(a[0], p) then [a[0]] else [];
      assert ab[0] == a[0];
      assert ab[1..] == a[1..] + b;
      WithPrefixConcat(a[1..], b, p);
      calc {
        WithPrefix(ab, p);
        head + WithPrefix(a[1..] + b, p);
        head + (WithPrefix(a[1..], p) + WithPrefix(b, p));
        (head + WithPrefix(a[1..], p)) + WithPrefix(b, p);
      }
    }
  }

  lemma WithPrefixOne(line: string, p: string)
    ensures WithPrefix([line], p) == if StartsWith(line, p) then [line] else []
  {
    assert [line][1..] == [];
  }

  /** Lines around a block that contribute nothing to the filter leave the block's survivors. */
  lemma WithPrefixAround(a: seq<string>, m: seq<string>, o: seq<string>, p: string)
    requires WithPrefix(a, p) == [] && WithPrefix(o, p) == []
    ensures WithPrefix(a + m + o, p) == WithPrefix(m, p)
  {
    WithPrefixConcat(a + m, o, p);
    WithPrefixConcat(a, m, p);
  }

  /** The survivors of four consecutive blocks of which the first and last contribute nothing. */
  lemma WithPrefixOfFour(a: seq<string>, m: seq<string>, h: seq<string>, o: seq<string>, p: string)
    requires WithPrefix(a, p) == [] && WithPrefix(o, p) == []
    ensures WithPrefix(a + m + h + o, p) == WithPrefix(m, p) + WithPrefix(h, p)
  {
    WithPrefixConcat(a + m + h, o, p);
    WithPrefixConcat(a + m, h, p);
    WithPrefixConcat(a, m, p);
  }

  /** The survivors of five consecutive blocks of which only the second and fourth contribute. */
  lemma WithPrefixOfFive(b: seq<string>, h: seq<string>, e: seq<string>, l: seq<string>, a: seq<string>,
                         p: string, hs: seq<string>, ls: seq<string>)
    requires WithPrefix(b, p) == [] && WithPrefix(h, p) == hs && WithPrefix(e, p) == []
    requires WithPrefix(l, p) == ls && WithPrefix(a, p) == []
    ensures WithPrefix(b + h + e + l + a, p) == hs + ls
  {
    WithPrefixConcat(b + h + e + l, a, p);
    WithPrefixConcat(b + h + e, l, p);
    WithPrefixConcat(b + h, e, p);
    WithPrefixConcat(b, h, p);
  }

  /** No line starting with `p` leaves nothing. */
  lemma {:induction false} WithPrefixNone(lines: seq<string>, p: string)
    requires forall k :: 0 <= k < |lines| ==> !StartsWith(lines[k], p)
    ensures WithPrefix(lines, p) == []
  {
    if lines != [] {
      WithPrefixNone(lines[1..], p);
    }
  }

  /** Lines that are either shorter than `p` or differ from it at position `i` are all dropped. */
  lemma WithPrefixNoneAt(lines: seq<string>, p: string, i: nat)
    requires i < |p|
    requires forall k :: 0 <= k < |lines| ==> |lines[k]| < |p| || lines[k][i] != p[i]
    ensures WithPrefix(lines, p) == []
  {
    forall k | 0 <= k < |lines| ensures !StartsWith(lines[k], p) {
      if |p| <= |lines[k]| {
        assert lines[k][..|p|][i] == lines[k][i];
      }
    }
    WithPrefixNone(lines, p);
  }

  /** When every line starts with `p`, all of them are kept. */
  lemma {:induction false} WithPrefixAll(lines: seq<string>, p: string)
    requires forall k :: 0 <= k < |lines| ==> StartsWith(lines[k], p)
    ensures WithPrefix(lines, p) == lines
  {
    if lines != [] {
      WithPrefixAll(lines[1..], p);
      assert [lines[0]] + lines[1..] == lines;
    }
  }

  /** ASCII `toLowerCase` of one character; every other character is left as it is. */
  function LowerChar(c: char): char
  {
    if 'A' <= c <= 'Z' then (c as int + 32) as char else c
  }

  /** ASCII `toUpperCase` of one character; every other character is left as it is. */
  function UpperChar(c: char): char
  {
    if 'a' <= c <= 'z' then (c as int - 32) as char else c
  }

  /** `s.toLowerCase()` over ASCII letters. */
  function Lower(s: string): (r: string)
    ensures |r| == |s|
    ensures forall i :: 0 <= i < |s| ==> r[i] == LowerChar(s[i])
  {
    if s == [] then [] else [LowerChar(s[0])] + Lower(s[1..])
  }

  /** `s.toUpperCase()` over ASCII letters. */
  function Upper(s: string): (r: string)
    ensures |r| == |s|
    ensures forall i :: 0 <= i < |s| ==> r[i] == UpperChar(s[i])
  {
    if s == [] then [] else [UpperChar(s[0])] + Upper(s[1..])
  }

  /** Lower-casing forgets the case a letter had. */
  lemma LowerOfUpper(s: string)
    ensures Lower(Upper(s)) == Lower(s)
  {
    forall i | 0 <= i < |s| ensures Lower(Upper(s))[i] == Lower(s)[i] {
      assert Upper(s)[i] == UpperChar(s[i]);
    }
  }

  lemma LowerConcat(a: string, b: string)
    ensures Lower(a + b) == Lower(a) + Lower(b)
  {
    forall i | 0 <= i < |a + b| ensures Lower(a + b)[i] == (Lower(a) + Lower(b))[i] {
      if i < |a| {
        assert (a + b)[i] == a[i];
      } else {
        assert (a + b)[i] == b[i - |a|];
      }
    }
  }

  /** `sub` occurs in `s` starting at position `i`. */
  predicate OccursAt(s: string, sub: string, i: nat)
  {
    i + |sub| <= |s| && s[i..i + |sub|] == sub
  }

  /** `s.includes(sub)`. */
  predicate Contains(s: string, sub: string)
  {
    exists i: nat | i <= |s| :: OccursAt(s, sub, i)
  }

  lemma ContainsMiddle(a: string, sub: string, b: string)
    ensures Contains(a + sub + b, sub)
  {
    var s := a + sub + b;
    assert s[|a|..|a| + |sub|] == sub;
    assert OccursAt(s, sub, |a|);
  }

  /** A character JavaScript's `trim` removes: WhiteSpace and LineTerminator of ECMA-262. */
  predicate IsJsWhitespace(c: char)
  {
    c == ' ' || c == '\t' || c == '\n' || c == '\r' || c == '\U{000B}' || c == '\U{000C}'
    || c == '\U{00A0}' || c == '\U{1680}' || ('\U{2000}' <= c <= '\U{200A}')
    || c == '\U{2028}' || c == '\U{2029}' || c == '\U{202F}' || c == '\U{205F}'
    || c == '\U{3000}' || c == '\U{FEFF}'
  }

  /** `s.trimStart()`. */
  function TrimStart(s: string): (r: string)
    ensures r == [] || !IsJsWhitespace(r[0])
    ensures r == [] <==> forall i :: 0 <= i < |s| ==> IsJsWhitespace(s[i])
    decreases |s|
  {
    if s != [] && IsJsWhitespace(s[0]) then TrimStart(s[1..]) else s
  }

  /** `s.trimEnd()`. */
  function TrimEnd(s: string): (r: string)
    ensures r == [] || !IsJsWhitespace(r[|r| - 1])
    ensures |r| <= |s| && r == s[..|r|]
    decreases |s|
  {
    if s != [] && IsJsWhitespace(s[|s| - 1]) then TrimEnd(s[..|s| - 1]) else s
  }

  /** `s.trim()`. */
  function Trim(s: string): string
  {
    TrimEnd(TrimStart(s))
  }

  /** `!s.trim()`: the text is empty or whitespace only. */
  predicate IsBlank(s: string)
  {
    Trim(s) == ""
  }

  /** A string is blank exactly when every character of it is JavaScript whitespace. */
  lemma BlankIffAllWhitespace(s: string)
    ensures IsBlank(s) <==> forall i :: 0 <= i < |s| ==> IsJsWhitespace(s[i])
  {
    var t := TrimStart(s);
    if t != [] {
      assert TrimEnd(t) != [] by {
        if TrimEnd(t) == [] {
          TrimEndKeepsHead(t);
        }
      }
    }
  }

  lemma {:induction false} TrimEndKeepsHead(t: string)
    requires t != [] && !IsJsWhitespace(t[0])
    ensures TrimEnd(t) != []
    decreases |t|
  {
    if IsJsWhitespace(t[|t| - 1]) {
      TrimEndKeepsHead(t[..|t| - 1]);
    }
  }

  /** The decimal digits of a natural number, as JavaScript prints it. */
  function NatToDecimal(n: nat): string
  {
    if n < 10 then [DigitChar(n)] else NatToDecimal(n / 10) + [DigitChar(n % 10)]
  }

  function DigitChar(d: nat): char
    requires d < 10
  {
    ('0' as int + d) as char
  }

  /** The decimal text of a number is a non-empty run of digits. */
  lemma {:induction false} NatToDecimalDigits(n: nat)
    ensures |NatToDecimal(n)| >= 1
    ensures forall i :: 0 <= i < |NatToDecimal(n)| ==> '0' <= NatToDecimal(n)[i] <= '9'
  {
    if n >= 10 {
      NatToDecimalDigits(n / 10);
    }
  }

  /** The text of an integer-valued JavaScript number, with a leading '-' when negative. */
  function IntToDecimal(n: int): string
  {
    if n < 0 then "-" + NatToDecimal(-n) else NatToDecimal(n)
  }

  /** `s.split(sep)` for a one-character separator: the maximal runs between separators, empty ones
      included, so there is always at least one part. */
  function Split(s: string, sep: char): (r: seq<string>)
    ensures |r| >= 1
    ensures forall k :: 0 <= k < |r| ==> sep !in r[k]
  {
    SplitFrom(s, sep, "")
  }

  /** `Split` with `cur` the part read so far. */
  function SplitFrom(s: string, sep: char, cur: string): (r: seq<string>)
    requires sep !in cur
    ensures |r| >= 1
    ensures forall k :: 0 <= k < |r| ==> sep !in r[k]
    decreases |s|
  {
    if s == [] then [cur]
    else if s[0] == sep then [cur] + SplitFrom(s[1..], sep, "")
    else SplitFrom(s[1..], sep, cur + [s[0]])
  }

  lemma {:induction false} SplitFromWord(w: string, rest: string, sep: char, cur: string)
    requires sep !in w && sep !in cur
    ensures SplitFrom(w + rest, sep, cur) == SplitFrom(rest, sep, cur + w)
    decreases |w|
  {
    if w == [] {
      assert w + rest == rest;
      assert cur + w == cur;
    } else {
      assert (w + rest)[0] == w[0];
      assert (w + rest)[1..] == w[1..] + rest;
      assert w[0] != sep;
      SplitFromWord(w[1..], rest, sep, cur + [w[0]]);
      assert cur + [w[0]] + w[1..] == cur + w;
    }
  }

  /** Splitting a join undoes it, when no part contains the separator. */
  lemma {:induction false} SplitJoin(parts: seq<string>, sep: char)
    requires |parts| >= 1
    requires forall k :: 0 <= k < |parts| ==> sep !in parts[k]
    ensures Split(Join(parts, [sep]), sep) == parts
  {
    SplitFromJoin(parts, sep, "");
    assert "" + parts[0] == parts[0];
    assert [parts[0]] + parts[1..] == parts;
  }

  lemma {:induction false} SplitFromJoin(parts: seq<string>, sep: char, cur: string)
    requires |parts| >= 1 && sep !in cur
    requires forall k :: 0 <= k < |parts| ==> sep !in parts[k]
    ensures SplitFrom(Join(parts, [sep]), sep, cur) == [cur + parts[0]] + parts[1..]
    decreases |parts|
  {
    if |parts| == 1 {
      SplitFromWord(parts[0], "", sep, cur);
      assert parts[0] + "" == parts[0];
    } else {
      var tail := Join(parts[1..], [sep]);
      assert Join(parts, [sep]) == parts[0] + ([sep] + tail);
      SplitFromWord(parts[0], [sep] + tail, sep, cur);
      assert ([sep] + tail)[0] == sep && ([sep] + tail)[1..] == tail;
      SplitFromJoin(parts[1..], sep, "");
      assert "" + parts[1..][0] == parts[1];
      assert [parts[1]] + parts[1..][1..] == parts[1..];
    }
  }

  /** A value with no newline in it: interpolated into a template line, it stays on that line. */
  predicate SingleLine(s: string)
  {
    '\n' !in s
  }

  /** A join of parts avoiding a character, with a separator avoiding it, avoids it too. */
  lemma {:induction false} JoinAvoids(parts: seq<string>, sep: string, c: char)
    requires c !in sep
    requires forall k :: 0 <= k < |parts| ==> c !in parts[k]
    ensures c !in Join(parts, sep)
  {
    if |parts| > 1 {
      JoinAvoids(parts[1..], sep, c);
    }
  }
}
