/** The JavaScript string operations the dashboard relies on: `repeat`, `padEnd`, `trim`,
    `split("\n")` / `join("\n")`, `includes`, and decimal rendering of integers. Characters are
    Dafny `char`s; see the README for how that differs from UTF-16 code units. */
module Strings {
  import opened Seqs

  /** `c.repeat(n)` for a one-character string `c`. */
  function Repeat(c: char, n: nat): (r: string)
    ensures |r| == n
    ensures forall i :: 0 <= i < n ==> r[i] == c
  {
    seq(n, _ => c)
  }

  /** `s.repeat(n)` for an arbitrary string `s`. */
  function RepeatString(s: string, n: nat): string
  {
    if n == 0 then "" else s + RepeatString(s, n - 1)
  }

  lemma {:induction false} RepeatStringLength(s: string, n: nat)
    ensures |RepeatString(s, n)| == n * |s|
  {
    if n > 0 {
      RepeatStringLength(s, n - 1);
    }
  }

  /** Character `i` of `s` repeated is character `i % |s|` of `s`: the copies follow each
      other without gaps. */
  lemma {:induction false} RepeatStringAt(s: string, n: nat)
    requires s != []
    ensures forall i :: 0 <= i < |RepeatString(s, n)| ==> RepeatString(s, n)[i] == s[i % |s|]
  {
    if n > 0 {
      RepeatStringAt(s, n - 1);
      var rest := RepeatString(s, n - 1);
      var whole := RepeatString(s, n);
      assert whole == s + rest;
      forall i | 0 <= i < |whole|
        ensures whole[i] == s[i % |s|]
      {
        if i >= |s| {
          assert whole[i] == rest[i - |s|];
          ModSubtract(i, |s|);
        } else {
          assert whole[i] == s[i];
          ModUnique(i, |s|, 0, i);
        }
      }
    }
  }

  lemma ModSubtract(i: int, k: int)
    requires k > 0 && i >= k
    ensures (i - k) % k == i % k
  {
    var q := (i - k) / k;
    var r := (i - k) % k;
    assert i - k == q * k + r;
    assert i == (q + 1) * k + r;
    ModUnique(i, k, q + 1, r);
  }

  /** Euclidean division is unique: a remainder in `[0, k)` is the remainder. */
  lemma ModUnique(x: int, k: int, q: int, r: int)
    requires k > 0 && 0 <= r < k && x == q * k + r
    ensures x % k == r
  {
    var q0 := x / k;
    var r0 := x % k;
    assert x == q0 * k + r0;
    assert (q - q0) * k == r0 - r;
    if q - q0 >= 1 {
      MulAtLeast(q - q0, k);
    } else if q - q0 <= -1 {
      assert (q0 - q) * k == r - r0;
      MulAtLeast(q0 - q, k);
    }
  }

  lemma {:induction false} MulAtLeast(d: int, k: int)
    requires d >= 1 && k > 0
    ensures d * k >= k
    decreases d
  {
    if d > 1 {
      MulAtLeast(d - 1, k);
      assert d * k == (d - 1) * k + k;
    }
  }

  /** Repeating a one-character string is the character repeated. */
  lemma {:induction false} RepeatStringSingle(c: char, n: nat)
    ensures RepeatString([c], n) == Repeat(c, n)
  {
    if n > 0 {
      RepeatStringSingle(c, n - 1);
      assert RepeatString([c], n) == [c] + Repeat(c, n - 1);
    }
  }

  /** `s.padEnd(n)`: spaces are appended until the length is `n`; a longer string (or a
      negative target) leaves `s` unchanged. */
  function PadEnd(s: string, n: int): (r: string)
    ensures |r| == Max(n, |s|)
    ensures r[..|s|] == s
    ensures forall i :: |s| <= i < |r| ==> r[i] == ' '
  {
    if |s| >= n then s else s + Repeat(' ', n - |s|)
  }

  /** The characters `String.prototype.trim` removes: ECMAScript WhiteSpace (tab, vertical
      tab, form feed, space, no-break space, byte order mark and the Unicode space separators)
      and LineTerminator (line feed, carriage return, line and paragraph separators). */
  predicate IsWhitespace(c: char)
  {
    var k := c as int;
    (0x09 <= k <= 0x0D) || k == 0x20 || k == 0xA0 || k == 0x1680 ||
    (0x2000 <= k <= 0x200A) || k == 0x2028 || k == 0x2029 || k == 0x202F ||
    k == 0x205F || k == 0x3000 || k == 0xFEFF
  }

  predicate AllWhitespace(s: string)
  {
    forall i :: 0 <= i < |s| ==> IsWhitespace(s[i])
  }

  /** Leading whitespace removed: the longest suffix that does not start with whitespace. */
  function TrimStart(s: string): (r: string)
    ensures |r| <= |s| && r == s[|s| - |r|..]
    ensures AllWhitespace(s[..|s| - |r|])
    ensures r == [] || !IsWhitespace(r[0])
  {
    if s != [] && IsWhitespace(s[0]) then
      var r := TrimStart(s[1..]);
      TrimStartStep(s, r);
      r
    else s
  }

  /** Leading whitespace after a whitespace head is leading whitespace of the whole. */
  lemma TrimStartStep(s: string, r: string)
    requires s != [] && IsWhitespace(s[0])
    requires |r| <= |s| - 1 && r == s[1..][|s| - 1 - |r|..] && AllWhitespace(s[1..][..|s| - 1 - |r|])
    ensures r == s[|s| - |r|..] && AllWhitespace(s[..|s| - |r|])
  {
    var m := |s| - 1 - |r|;
    assert s[1..][m..] == s[1 + m..];
    forall i | 0 <= i < |s| - |r|
      ensures IsWhitespace(s[i])
    {
      if i > 0 {
        assert s[i] == s[1..][..m][i - 1];
      }
    }
  }

  /** Trailing whitespace removed: the longest prefix that does not end with whitespace. */
  function TrimEnd(s: string): (r: string)
    ensures |r| <= |s| && r == s[..|r|]
    ensures AllWhitespace(s[|r|..])
    ensures r == [] || !IsWhitespace(r[|r| - 1])
  {
    if s != [] && IsWhitespace(s[|s| - 1]) then
      var r := TrimEnd(s[..|s| - 1]);
      TrimEndStep(s, r);
      r
    else s
  }

  /** Trailing whitespace before a whitespace last character is trailing whitespace of the
      whole. */
  lemma TrimEndStep(s: string, r: string)
    requires s != [] && IsWhitespace(s[|s| - 1])
    requires |r| <= |s| - 1 && r == s[..|s| - 1][..|r|] && AllWhitespace(s[..|s| - 1][|r|..])
    ensures r == s[..|r|] && AllWhitespace(s[|r|..])
  {
    assert s[..|s| - 1][..|r|] == s[..|r|];
    forall i | |r| <= i < |s|
      ensures IsWhitespace(s[i])
    {
      if i < |s| - 1 {
        assert s[i] == s[..|s| - 1][|r|..][i - |r|];
      }
    }
  }

  /** The length of the leading whitespace run of `s`. */
  function LeadingWhitespace(s: string): (k: nat)
    ensures k <= |s| && AllWhitespace(s[..k])
    ensures k < |s| ==> !IsWhitespace(s[k])
  {
    var t := TrimStart(s);
    assert t != [] ==> s[|s| - |t|] == t[0];
    |s| - |t|
  }

  /** `s.trim()`: the part of `s` between its leading and its trailing whitespace. */
  function Trim(s: string): (r: string)
    ensures r == [] <==> AllWhitespace(s)
    ensures r == [] || (!IsWhitespace(r[0]) && !IsWhitespace(r[|r| - 1]))
  {
    var t := TrimStart(s);
    var r := TrimEnd(t);
    TrimBetween(s, |s| - |t|, t, r);
    r
  }

  /** `trim` keeps exactly the middle of `s`: it starts after the leading whitespace run and
      only whitespace follows it. */
  lemma TrimKeepsMiddle(s: string)
    ensures var r := Trim(s); var k := LeadingWhitespace(s);
      && k + |r| <= |s| && r == s[k..k + |r|] && AllWhitespace(s[k + |r|..])
  {
    TrimUnfolds(s);
    TrimBetween(s, LeadingWhitespace(s), TrimStart(s), Trim(s));
  }

  lemma TrimUnfolds(s: string)
    ensures Trim(s) == TrimEnd(TrimStart(s)) && LeadingWhitespace(s) == |s| - |TrimStart(s)|
  {
  }

  /** Dropping `k` leading whitespace characters and then trailing whitespace keeps the middle
      of `s` between two whitespace runs. */
  lemma TrimBetween(s: string, k: nat, t: string, r: string)
    requires k <= |s| && t == s[k..] && AllWhitespace(s[..k])
    requires t == [] || !IsWhitespace(t[0])
    requires |r| <= |t| && r == t[..|r|] && AllWhitespace(t[|r|..])
    requires r == [] || !IsWhitespace(r[|r| - 1])
    ensures r == [] <==> AllWhitespace(s)
    ensures r == [] || (!IsWhitespace(r[0]) && !IsWhitespace(r[|r| - 1]))
    ensures k + |r| <= |s| && r == s[k..k + |r|] && AllWhitespace(s[k + |r|..])
  {
    SliceOfSuffix(s, k, |r|);
    if t == [] {
      assert s[..k] == s;
    } else {
      assert s[k] == t[0];
      assert r != [] && r[0] == t[0];
    }
  }

  /** A slice of a suffix is a slice of the whole. */
  lemma SliceOfSuffix<T>(s: seq<T>, k: nat, n: nat)
    requires k + n <= |s|
    ensures s[k..][..n] == s[k..k + n] && s[k..][n..] == s[k + n..]
  {
  }

  lemma {:induction false} TrimStartSkipsWhitespace(w: string, s: string)
    requires AllWhitespace(w)
    ensures TrimStart(w + s) == TrimStart(s)
    decreases |w|
  {
    if w != [] {
      assert (w + s)[1..] == w[1..] + s;
      TrimStartSkipsWhitespace(w[1..], s);
    } else {
      assert w + s == s;
    }
  }

  lemma {:induction false} TrimEndSkipsWhitespace(s: string, w: string)
    requires AllWhitespace(w)
    ensures TrimEnd(s + w) == TrimEnd(s)
    decreases |w|
  {
    if w != [] {
      var v := w[..|w| - 1];
      assert (s + w)[..|s + w| - 1] == s + v;
      TrimEndSkipsWhitespace(s, v);
    } else {
      assert s + w == s;
    }
  }

  lemma {:induction false} TrimStartAppend(s: string, w: string)
    ensures TrimStart(s + w) == if AllWhitespace(s) then TrimStart(w) else TrimStart(s) + w
    decreases |s|
  {
    if s == [] {
      assert s + w == w;
    } else if IsWhitespace(s[0]) {
      assert (s + w)[0] == s[0] && (s + w)[1..] == s[1..] + w;
      assert TrimStart(s + w) == TrimStart(s[1..] + w);
      assert TrimStart(s) == TrimStart(s[1..]);
      TrimStartAppend(s[1..], w);
      AllWhitespaceTail(s);
    } else {
      assert (s + w)[0] == s[0];
      assert TrimStart(s + w) == s + w && TrimStart(s) == s;
      AllWhitespaceTail(s);
    }
  }

  lemma AllWhitespaceTail(s: string)
    requires s != []
    ensures AllWhitespace(s) <==> IsWhitespace(s[0]) && AllWhitespace(s[1..])
  {
    if IsWhitespace(s[0]) && AllWhitespace(s[1..]) {
      forall i | 1 <= i < |s| ensures IsWhitespace(s[i]) { assert s[i] == s[1..][i - 1]; }
    }
  }

  /** Whitespace around a string does not change what `trim` returns. */
  lemma TrimIgnoresSurroundingWhitespace(w1: string, s: string, w2: string)
    requires AllWhitespace(w1) && AllWhitespace(w2)
    ensures Trim(w1 + s + w2) == Trim(s)
  {
    assert w1 + s + w2 == w1 + (s + w2);
    TrimStartSkipsWhitespace(w1, s + w2);
    TrimStartAppend(s, w2);
    if AllWhitespace(s) {
      assert TrimStart(w2) == [];
      assert TrimStart(s) == [];
    } else {
      TrimEndSkipsWhitespace(TrimStart(s), w2);
    }
  }

  /** `hay.includes(needle)`. */
  predicate Contains(hay: string, needle: string)
  {
    exists i :: 0 <= i <= |hay| - |needle| && OccursAt(hay, needle, i)
  }

  predicate OccursAt(hay: string, needle: string, i: int)
  {
    0 <= i <= |hay| - |needle| && hay[i..i + |needle|] == needle
  }

  /** A string contains whatever sits between a prefix and a suffix of it (the empty string and
      itself among them), and nothing longer than itself. */
  lemma ContainsInfix(before: string, needle: string, after: string)
    ensures Contains(before + needle + after, needle)
    ensures forall hay :: Contains(hay, needle) ==> |needle| <= |hay|
  {
    var hay := before + needle + after;
    assert hay[|before|..|before| + |needle|] == needle;
    assert OccursAt(hay, needle, |before|);
  }

  /** `s.split(sep)` for a one-character separator: the pieces between separators, always at
      least one (the empty string splits into `[""]`). */
  function Split(s: string, sep: char): (r: seq<string>)
    ensures |r| >= 1
    ensures forall i :: 0 <= i < |r| ==> sep !in r[i]
  {
    if s == [] then [""]
    else
      var rest := Split(s[1..], sep);
      if s[0] == sep then [""] + rest else [[s[0]] + rest[0]] + rest[1..]
  }

  /** `parts.join(sep)`; joining no parts gives the empty string. */
  function Join(parts: seq<string>, sep: char): string
  {
    if |parts| == 0 then ""
    else if |parts| == 1 then parts[0]
    else parts[0] + [sep] + Join(parts[1..], sep)
  }

  /** Splitting and re-joining gives back the original string. */
  lemma {:induction false} JoinSplit(s: string, sep: char)
    ensures Join(Split(s, sep), sep) == s
    decreases |s|
  {
    if s != [] {
      var rest := Split(s[1..], sep);
      JoinSplit(s[1..], sep);
      if s[0] == sep {
        assert Join(Split(s, sep), sep) == "" + [sep] + Join(rest, sep);
      } else {
        var parts := [[s[0]] + rest[0]] + rest[1..];
        if |rest| == 1 {
          assert Join(parts, sep) == [s[0]] + rest[0];
        } else {
          assert parts[1..] == rest[1..];
          assert Join(parts, sep) == [s[0]] + (rest[0] + [sep] + Join(rest[1..], sep));
        }
      }
    }
  }

  lemma {:induction false} SplitNoSeparator(a: string, sep: char)
    requires sep !in a
    ensures Split(a, sep) == [a]
    decreases |a|
  {
    if a != [] {
      SplitNoSeparator(a[1..], sep);
      assert [a[0]] + a[1..] == a;
    }
  }

  lemma {:induction false} SplitAtFirstSeparator(a: string, sep: char, b: string)
    requires sep !in a
    ensures Split(a + [sep] + b, sep) == [a] + Split(b, sep)
    decreases |a|
  {
    var s := a + [sep] + b;
    if a == [] {
      assert s[1..] == b;
    } else {
      assert s[1..] == a[1..] + [sep] + b;
      SplitAtFirstSeparator(a[1..], sep, b);
      assert [a[0]] + a[1..] == a;
    }
  }

  /** Joining pieces that contain no separator and splitting again gives back the pieces:
      the line structure of a joined text is exactly its parts. */
  lemma {:induction false} SplitJoin(parts: seq<string>, sep: char)
    requires |parts| >= 1
    requires forall i :: 0 <= i < |parts| ==> sep !in parts[i]
    ensures Split(Join(parts, sep), sep) == parts
    decreases |parts|
  {
    if |parts| == 1 {
      SplitNoSeparator(parts[0], sep);
    } else {
      SplitJoin(parts[1..], sep);
      SplitAtFirstSeparator(parts[0], sep, Join(parts[1..], sep));
    }
  }

  /** The decimal digit for `d < 10`. */
  function Digit(d: nat): char
    requires d < 10
  {
    ('0' as int + d) as char
  }

  predicate IsDigit(c: char) { '0' <= c <= '9' }

  /** The value of a string of decimal digits. */
  function DigitsValue(s: string): int
    requires forall i :: 0 <= i < |s| ==> IsDigit(s[i])
  {
    if s == [] then 0 else DigitsValue(s[..|s| - 1]) * 10 + ((s[|s| - 1] as int) - ('0' as int))
  }

  /** The decimal rendering JavaScript gives a non-negative integer (no leading zeros). */
  function NatToString(n: nat): (r: string)
    ensures |r| >= 1
    ensures forall i :: 0 <= i < |r| ==> IsDigit(r[i])
    ensures |r| > 1 ==> r[0] != '0'
  {
    if n < 10 then [Digit(n)] else NatToString(n / 10) + [Digit(n % 10)]
  }

  /** Reading the rendered digits back gives the number. */
  lemma {:induction false} NatToStringRoundTrip(n: nat)
    ensures DigitsValue(NatToString(n)) == n
  {
    if n >= 10 {
      NatToStringRoundTrip(n / 10);
      var s := NatToString(n);
      assert s == NatToString(n / 10) + [Digit(n % 10)];
      assert s[..|s| - 1] == NatToString(n / 10);
      assert (s[|s| - 1] as int) - ('0' as int) == n % 10;
    }
  }

  /** The decimal rendering of an integer, with a leading minus sign when negative. */
  function IntToString(i: int): string
  {
    if i < 0 then "-" + NatToString(-i) else NatToString(i)
  }
}
