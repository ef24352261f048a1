/**
 * The string operations of ECMAScript that the event layer relies on:
 * `trim`, `split` on one character, `join`, `toLowerCase` (on the scripts the
 * city list uses), `includes`, `slice(0, n)` and decimal rendering of counts.
 */
module Text {

  /** WhiteSpace and LineTerminator code points of ECMAScript (what `trim` removes). */
  predicate IsJsSpace(c: char)
  {
    c == '\t' || c == '\n' || c == '\U{000B}' || c == '\U{000C}' || c == '\r' || c == ' '
    || c == '\U{00A0}' || c == '\U{1680}' || ('\U{2000}' <= c <= '\U{200A}')
    || c == '\U{2028}' || c == '\U{2029}' || c == '\U{202F}' || c == '\U{205F}'
    || c == '\U{3000}' || c == '\U{FEFF}'
  }

  function TrimStart(s: string): (r: string)
    ensures |r| <= |s| && r == s[|s| - |r|..]
    ensures r == [] || !IsJsSpace(r[0])
    ensures forall i :: 0 <= i < |s| - |r| ==> IsJsSpace(s[i])
  {
    if s != [] && IsJsSpace(s[0]) then TrimStart(s[1..]) else s
  }

  function TrimEnd(s: string): (r: string)
    ensures |r| <= |s| && r == s[..|r|]
    ensures r == [] || !IsJsSpace(r[|r| - 1])
    ensures forall i :: |r| <= i < |s| ==> IsJsSpace(s[i])
  {
    if s != [] && IsJsSpace(s[|s| - 1]) then TrimEnd(s[..|s| - 1]) else s
  }

  /** `s.trim()`: drops the white space at both ends. */
  function Trim(s: string): (r: string)
    ensures |r| <= |s|
    ensures r == [] || (!IsJsSpace(r[0]) && !IsJsSpace(r[|r| - 1]))
  {
    TrimEnd(TrimStart(s))
  }

  /** The trimmed text is the middle slice of `s` left once the white space before and
    * after it is removed. */
  lemma TrimIsMiddleSlice(s: string)
    ensures exists i, j :: (0 <= i <= j <= |s| && Trim(s) == s[i..j]
      && (forall k :: 0 <= k < i ==> IsJsSpace(s[k]))
      && (forall k :: j <= k < |s| ==> IsJsSpace(s[k])))
  {
    var t := TrimStart(s);
    var r := TrimEnd(t);
    var i := |s| - |t|;
    var j := i + |r|;
    assert r == s[i..j];
    assert forall k :: j <= k < |s| ==> IsJsSpace(s[k]) by {
      forall k | j <= k < |s| ensures IsJsSpace(s[k]) {
        assert s[k] == t[k - i];
      }
    }
  }

  lemma {:induction false} TrimIdempotent(s: string)
    ensures Trim(Trim(s)) == Trim(s)
  {
    var t := Trim(s);
    if t != [] {
      assert TrimStart(t) == t;
      assert TrimEnd(t) == t;
    }
  }

  /** `s.split(sep)` for a one-character separator: the pieces between separators, in order. */
  function Split(s: string, sep: char): (r: seq<string>)
    ensures |r| >= 1
    decreases |s|
  {
    if s == [] then [""]
    else if s[0] == sep then [""] + Split(s[1..], sep)
    else
      var rest := Split(s[1..], sep);
      [[s[0]] + rest[0]] + rest[1..]
  }

  /** `xs.join(sep)`. */
  function Join(xs: seq<string>, sep: string): string
  {
    if xs == [] then ""
    else if |xs| == 1 then xs[0]
    else xs[0] + sep + Join(xs[1..], sep)
  }

  lemma {:induction false} SplitPiecesHaveNoSeparator(s: string, sep: char)
    ensures forall k :: 0 <= k < |Split(s, sep)| ==> sep !in Split(s, sep)[k]
    decreases |s|
  {
    if s != [] {
      SplitPiecesHaveNoSeparator(s[1..], sep);
    }
  }

  /** Joining the pieces again with the separator gives back the string. */
  lemma {:induction false} JoinSplit(s: string, sep: char)
    ensures Join(Split(s, sep), [sep]) == s
    decreases |s|
  {
    if s != [] {
      var rest := Split(s[1..], sep);
      JoinSplit(s[1..], sep);
      if s[0] == sep {
        calc {
          Join(Split(s, sep), [sep]);
          Join([""] + rest, [sep]);
          "" + [sep] + Join(rest, [sep]);
          [s[0]] + s[1..];
        }
      } else if |rest| == 1 {
        assert Split(s, sep) == [[s[0]] + rest[0]];
      } else {
        var head := [[s[0]] + rest[0]] + rest[1..];
        assert head[1..] == rest[1..];
        calc {
          Join(head, [sep]);
          [s[0]] + rest[0] + [sep] + Join(rest[1..], [sep]);
          [s[0]] + (rest[0] + [sep] + Join(rest[1..], [sep]));
          [s[0]] + Join(rest, [sep]);
        }
      }
    }
  }

  /** Splitting a join of separator-free pieces gives back the pieces. */
  lemma {:induction false} SplitJoin(xs: seq<string>, sep: char)
    requires |xs| >= 1
    requires forall k :: 0 <= k < |xs| ==> sep !in xs[k]
    ensures Split(Join(xs, [sep]), sep) == xs
    decreases |xs|, |xs[0]|
  {
    if |xs| == 1 {
      SplitOfSeparatorFree(xs[0], sep);
    } else if xs[0] == [] {
      assert Join(xs, [sep]) == [sep] + Join(xs[1..], [sep]);
      SplitJoin(xs[1..], sep);
      assert [sep] + Join(xs[1..], [sep]) != [];
      assert ([sep] + Join(xs[1..], [sep]))[1..] == Join(xs[1..], [sep]);
    } else {
      var c := xs[0][0];
      var ys := [xs[0][1..]] + xs[1..];
      assert ys[1..] == xs[1..];
      forall k | 0 <= k < |ys| ensures sep !in ys[k] {
        if k == 0 { assert forall m :: 0 <= m < |xs[0][1..]| ==> xs[0][1..][m] == xs[0][m + 1]; }
      }
      SplitJoin(ys, sep);
      var j := Join(xs, [sep]);
      assert j == [c] + Join(ys, [sep]) by {
        assert xs[0] == [c] + xs[0][1..];
      }
      assert j[1..] == Join(ys, [sep]);
      assert c != sep by { assert xs[0][0] in xs[0]; }
      assert xs == [[c] + ys[0]] + ys[1..];
    }
  }

  lemma {:induction false} SplitOfSeparatorFree(s: string, sep: char)
    requires sep !in s
    ensures Split(s, sep) == [s]
    decreases |s|
  {
    if s != [] {
      assert sep !in s[1..] by { assert forall m :: 0 <= m < |s[1..]| ==> s[1..][m] == s[m + 1]; }
      SplitOfSeparatorFree(s[1..], sep);
      assert s == [s[0]] + s[1..];
    }
  }

  /** `s.toLowerCase()` on one character: Latin capitals and the Cyrillic capitals U+0400..U+042F and U+0490. */
  function LowerChar(c: char): (r: char)
  {
    if 'A' <= c <= 'Z' then (c as int + 32) as char
    else if '\U{0410}' <= c <= '\U{042F}' then (c as int + 0x20) as char
    else if '\U{0400}' <= c <= '\U{040F}' then (c as int + 0x50) as char
    else if c == '\U{0490}' then '\U{0491}'
    else c
  }

  function ToLower(s: string): (r: string)
    ensures |r| == |s|
    ensures forall i :: 0 <= i < |s| ==> r[i] == LowerChar(s[i])
  {
    if s == [] then [] else [LowerChar(s[0])] + ToLower(s[1..])
  }

  /** `haystack.includes(needle)`. */
  predicate Includes(haystack: string, needle: string)
    decreases |haystack|
  {
    needle <= haystack || (haystack != [] && Includes(haystack[1..], needle))
  }

  /** `needle` occurs in `haystack` starting at index `i`. */
  predicate OccursAt(haystack: string, needle: string, i: int)
  {
    0 <= i && i + |needle| <= |haystack| && haystack[i..i + |needle|] == needle
  }

  lemma {:induction false} IncludesAt(haystack: string, needle: string)
    ensures Includes(haystack, needle) <==> exists i :: OccursAt(haystack, needle, i)
    decreases |haystack|
  {
    if haystack != [] {
      IncludesAt(haystack[1..], needle);
      if needle <= haystack {
        assert OccursAt(haystack, needle, 0);
      } else if Includes(haystack[1..], needle) {
        var i :| OccursAt(haystack[1..], needle, i);
        assert haystack[i + 1..i + 1 + |needle|] == haystack[1..][i..i + |needle|];
        assert OccursAt(haystack, needle, i + 1);
      }
      if exists i :: OccursAt(haystack, needle, i) {
        var i :| OccursAt(haystack, needle, i);
        if i > 0 {
          assert haystack[1..][i - 1..i - 1 + |needle|] == haystack[i..i + |needle|];
          assert OccursAt(haystack[1..], needle, i - 1);
        } else {
          assert needle <= haystack;
        }
      }
    } else {
      if needle == [] {
        assert OccursAt(haystack, needle, 0);
      }
      if exists i :: OccursAt(haystack, needle, i) {
        var i :| OccursAt(haystack, needle, i);
        assert needle == [] && needle <= haystack;
      }
    }
  }

  /** `s.slice(0, n)`: the first `n` characters, or all of `s` when it is shorter. */
  function Prefix(s: string, n: nat): (r: string)
    ensures |r| == if |s| < n then |s| else n
    ensures r <= s
  {
    if |s| <= n then s else s[..n]
  }

  predicate IsDigit(c: char) { '0' <= c <= '9' }

  function DigitChar(d: nat): (c: char)
    requires d < 10
    ensures IsDigit(c) && (c as int) - ('0' as int) == d
  {
    ('0' as int + d) as char
  }

  /** Template-literal rendering `${n}` of a non-negative integer. */
  function NatToString(n: nat): (r: string)
    ensures |r| >= 1
    ensures forall i :: 0 <= i < |r| ==> IsDigit(r[i])
    decreases n
  {
    if n < 10 then [DigitChar(n)] else NatToString(n / 10) + [DigitChar(n % 10)]
  }

  function DigitsValue(s: string): nat
    requires forall i :: 0 <= i < |s| ==> IsDigit(s[i])
  {
    if s == [] then 0 else DigitsValue(s[..|s| - 1]) * 10 + DigitOf(s[|s| - 1])
  }

  function DigitOf(c: char): (d: nat)
    requires IsDigit(c)
    ensures d < 10
  {
    (c as int) - ('0' as int)
  }

  /** Reading the rendered digits back gives the number. */
  lemma {:induction false} NatToStringRoundTrip(n: nat)
    ensures DigitsValue(NatToString(n)) == n
    decreases n
  {
    if n >= 10 {
      NatToStringRoundTrip(n / 10);
      var r := NatToString(n);
      assert r[..|r| - 1] == NatToString(n / 10);
    }
  }
}
