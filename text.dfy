/**
 * String operations the sync service and its web pages rely on: Python's
 * ordering of `str` values (used by `sorted`), `str.removeprefix`, and the
 * JavaScript `includes`, `toLowerCase`, `split`, `trim`, `join` and
 * `replace` with a one-character pattern.
 */
module Text {

  // ---------------------------------------------------------------------
  // Python's `str` ordering: lexicographic by code point
  // ---------------------------------------------------------------------

  predicate LessEq(a: string, b: string)
    decreases |a|
  {
    |a| == 0 || (|b| > 0 && (a[0] < b[0] || (a[0] == b[0] && LessEq(a[1..], b[1..]))))
  }

  predicate Less(a: string, b: string) {
    LessEq(a, b) && a != b
  }

  lemma {:induction false} LessEqRefl(a: string)
    ensures LessEq(a, a)
    decreases |a|
  {
    if |a| > 0 {
      LessEqRefl(a[1..]);
    }
  }

  lemma {:induction false} LessEqTotal(a: string, b: string)
    ensures LessEq(a, b) || LessEq(b, a)
    decreases |a|
  {
    if |a| > 0 && |b| > 0 && a[0] == b[0] {
      LessEqTotal(a[1..], b[1..]);
    }
  }

  lemma {:induction false} LessEqAntisymmetric(a: string, b: string)
    requires LessEq(a, b) && LessEq(b, a)
    ensures a == b
    decreases |a|
  {
    if |a| > 0 {
      LessEqAntisymmetric(a[1..], b[1..]);
      assert a == [a[0]] + a[1..];
      assert b == [b[0]] + b[1..];
    }
  }

  lemma {:induction false} LessEqTransitive(a: string, b: string, c: string)
    requires LessEq(a, b) && LessEq(b, c)
    ensures LessEq(a, c)
    decreases |a|
  {
    if |a| > 0 && a[0] == b[0] && b[0] == c[0] {
      LessEqTransitive(a[1..], b[1..], c[1..]);
    }
  }

  // ---------------------------------------------------------------------
  // Decimal numerals: `str(n)` for a natural number
  // ---------------------------------------------------------------------

  function Digit(d: nat): (c: char)
    requires d < 10
    ensures '0' <= c <= '9' && c as int - '0' as int == d
  {
    ('0' as int + d) as char
  }

  /** The number a string of decimal digits denotes, most significant digit first. */
  function DigitsValue(s: string): nat
    requires forall i :: 0 <= i < |s| ==> '0' <= s[i] <= '9'
    decreases |s|
  {
    if s == [] then 0
    else DigitsValue(s[..|s| - 1]) * 10 + (s[|s| - 1] as int - '0' as int)
  }

  /** `str(n)`: the shortest decimal numeral of `n`, with no leading zero. */
  function Decimal(n: nat): (r: string)
    ensures |r| > 0
    ensures forall i :: 0 <= i < |r| ==> '0' <= r[i] <= '9'
    ensures DigitsValue(r) == n
    ensures n == 0 || r[0] != '0'
    decreases n
  {
    if n < 10 then [Digit(n)]
    else
      var init := Decimal(n / 10);
      var r := init + [Digit(n % 10)];
      assert r[..|r| - 1] == init;
      r
  }

  // ---------------------------------------------------------------------
  // Prefixes and substrings
  // ---------------------------------------------------------------------

  predicate StartsWith(s: string, prefix: string) {
    |prefix| <= |s| && s[..|prefix|] == prefix
  }

  /** Python's `str.removeprefix`. */
  function RemovePrefix(s: string, prefix: string): (r: string)
    ensures StartsWith(s, prefix) ==> prefix + r == s
    ensures !StartsWith(s, prefix) ==> r == s
  {
    if StartsWith(s, prefix) then
      assert s == s[..|prefix|] + s[|prefix|..];
      s[|prefix|..]
    else s
  }

  /** JavaScript's `String.prototype.includes`. */
  predicate Contains(s: string, sub: string)
    decreases |s|
  {
    StartsWith(s, sub) || (|s| > 0 && Contains(s[1..], sub))
  }

  /** One character of JavaScript's `toLowerCase`, restricted to ASCII letters. */
  function LowerChar(c: char): char {
    if 'A' <= c <= 'Z' then (c as int + 32) as char else c
  }

  function ToLower(s: string): (r: string)
    ensures |r| == |s|
    ensures forall i :: 0 <= i < |s| ==> r[i] == LowerChar(s[i])
  {
    seq(|s|, i requires 0 <= i < |s| => LowerChar(s[i]))
  }

  // ---------------------------------------------------------------------
  // JavaScript split, trim and join
  // ---------------------------------------------------------------------

  /** `s.split(c)` for a one-character separator: the pieces between separators, empty ones kept. */
  function Split(s: string, c: char): (r: seq<string>)
    ensures |r| >= 1
    ensures forall i :: 0 <= i < |r| ==> c !in r[i]
    decreases |s|
  {
    if s == [] then [""]
    else
      var rest := Split(s[1..], c);
      if s[0] == c then [""] + rest else [[s[0]] + rest[0]] + rest[1..]
  }

  /** `pieces.join(sep)`. */
  function Join(pieces: seq<string>, sep: string): string
    decreases |pieces|
  {
    if |pieces| == 0 then ""
    else if |pieces| == 1 then pieces[0]
    else pieces[0] + sep + Join(pieces[1..], sep)
  }

  /** A string without the separator splits into itself. */
  lemma {:induction false} SplitNoSeparator(a: string, c: char)
    requires c !in a
    ensures Split(a, c) == [a]
    decreases |a|
  {
    if a != [] {
      SplitNoSeparator(a[1..], c);
      assert a == [a[0]] + a[1..];
    }
  }

  /** A separator closes the piece before it: `(a + c + b).split(c)` is `[a]` followed by `b.split(c)`. */
  lemma {:induction false} SplitAtSeparator(a: string, b: string, c: char)
    requires c !in a
    ensures Split(a + [c] + b, c) == [a] + Split(b, c)
    decreases |a|
  {
    var s := a + [c] + b;
    if a == [] {
      assert s[0] == c && s[1..] == b;
    } else {
      assert s[0] == a[0] && s[1..] == a[1..] + [c] + b;
      SplitAtSeparator(a[1..], b, c);
      assert a == [a[0]] + a[1..];
    }
  }

  /** A leading non-separator character joins the first piece. */
  lemma SplitAfterChar(x: char, s: string, c: char)
    requires x != c
    ensures Split([x] + s, c) == [[x] + Split(s, c)[0]] + Split(s, c)[1..]
  {
    assert ([x] + s)[1..] == s;
  }

  /** The white-space characters `trim` removes, restricted to the ASCII ones and NBSP. */
  predicate IsSpace(c: char) {
    c == ' ' || c == '\t' || c == '\n' || c == '\r' || c == '\U{000B}' || c == '\U{000C}' || c == '\U{00A0}'
  }

  function TrimStart(s: string): (r: string)
    ensures |r| <= |s| && r == s[|s| - |r|..]
    ensures r == [] || !IsSpace(r[0])
    decreases |s|
  {
    if |s| > 0 && IsSpace(s[0]) then TrimStart(s[1..]) else s
  }

  function TrimEnd(s: string): (r: string)
    ensures |r| <= |s| && r == s[..|r|]
    ensures r == [] || !IsSpace(r[|r| - 1])
    decreases |s|
  {
    if |s| > 0 && IsSpace(s[|s| - 1]) then TrimEnd(s[..|s| - 1]) else s
  }

  /** JavaScript's `String.prototype.trim`. */
  function Trim(s: string): string {
    TrimEnd(TrimStart(s))
  }

  /** A string `trim` leaves as it is. */
  predicate IsTrimmed(s: string) {
    s == [] || (!IsSpace(s[0]) && !IsSpace(s[|s| - 1]))
  }

  lemma TrimOfTrimmed(s: string)
    requires IsTrimmed(s)
    ensures Trim(s) == s
  {
  }

  lemma TrimAfterSpace(s: string)
    requires IsTrimmed(s)
    ensures Trim(" " + s) == s
  {
    assert (" " + s)[1..] == s;
    assert TrimStart(" " + s) == TrimStart(s) == s;
  }

  // ---------------------------------------------------------------------
  // JavaScript `s.replace(a, b)` with a one-character string pattern
  // ---------------------------------------------------------------------

  /** The position of the first `a` in `s`, or -1 (JavaScript's `indexOf`). */
  function IndexOf(s: string, a: char): (k: int)
    ensures -1 <= k < |s|
    ensures k == -1 <==> a !in s
    ensures k >= 0 ==> s[k] == a && a !in s[..k]
    decreases |s|
  {
    if s == [] then -1
    else if s[0] == a then 0
    else
      var k := IndexOf(s[1..], a);
      assert s[1..] == s[..][1..];
      if k == -1 then -1
      else
        assert s[..k + 1] == [s[0]] + s[1..][..k];
        k + 1
  }

  /** Replaces the first occurrence of `a` only. */
  function ReplaceFirst(s: string, a: char, b: char): string
    decreases |s|
  {
    if s == [] then []
    else if s[0] == a then [b] + s[1..]
    else [s[0]] + ReplaceFirst(s[1..], a, b)
  }

  /** Only the first `a` is replaced, whatever follows it. */
  lemma {:induction false} ReplaceFirstAt(pre: string, post: string, a: char, b: char)
    requires a !in pre
    ensures ReplaceFirst(pre + [a] + post, a, b) == pre + [b] + post
    decreases |pre|
  {
    var s := pre + [a] + post;
    if pre == [] {
      assert s[0] == a && s[1..] == post;
    } else {
      assert s[0] == pre[0] && s[1..] == pre[1..] + [a] + post;
      ReplaceFirstAt(pre[1..], post, a, b);
      assert pre == [pre[0]] + pre[1..];
    }
  }

  /** Without an `a` there is nothing to replace. */
  lemma {:induction false} ReplaceFirstAbsent(s: string, a: char, b: char)
    requires a !in s
    ensures ReplaceFirst(s, a, b) == s
    decreases |s|
  {
    if s != [] {
      ReplaceFirstAbsent(s[1..], a, b);
      assert s == [s[0]] + s[1..];
    }
  }

  lemma {:induction false} ReplaceFirstSpec(s: string, a: char, b: char)
    ensures var k := IndexOf(s, a);
            ReplaceFirst(s, a, b) == if k == -1 then s else s[..k] + [b] + s[k + 1..]
    decreases |s|
  {
    if s != [] && s[0] != a {
      ReplaceFirstSpec(s[1..], a, b);
      var k := IndexOf(s[1..], a);
      if k == -1 {
        assert s == [s[0]] + s[1..];
      } else {
        assert s[..k + 1] == [s[0]] + s[1..][..k];
        assert s[k + 2..] == s[1..][k + 1..];
      }
    }
  }
}
