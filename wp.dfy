/**
 * Value semantics of the PHP and WordPress primitives the plugin builds on:
 * optional values, `empty()`, integer casts, `implode`, `trim`,
 * `str_replace`, and PHP's insertion-ordered associative arrays.
 */
module Wp {

  datatype Option<+T> = None | Some(value: T) {
    /** PHP's `??`: the value when present (even an empty one), else the default. */
    function GetOr(default: T): T {
      if Some? then value else default
    }
  }

  /** PHP `empty()` applied to a string: true for "" and for "0". */
  predicate Empty(s: string) {
    s == "" || s == "0"
  }

  /** PHP `empty()` applied to an array element that may be missing. */
  predicate EmptyOpt(o: Option<string>) {
    o.None? || Empty(o.value)
  }

  /** A string's value, or "" when it is missing (`$a['k'] ?? ''`). */
  function OrEmpty(o: Option<string>): string {
    o.GetOr("")
  }

  /** WordPress `absint`. */
  function Absint(n: int): nat {
    if n < 0 then -n else n
  }

  // ---------------------------------------------------------------------
  // Integer casts of strings
  // ---------------------------------------------------------------------

  predicate IsDigit(c: char) {
    '0' <= c <= '9'
  }

  /** Whitespace that PHP skips before the digits of a numeric string. */
  predicate IsNumericSpace(c: char) {
    c == ' ' || c == '\t' || c == '\n' || c == '\r' || c == '\U{000B}' || c == '\U{000C}'
  }

  function SkipNumericSpace(s: string): (r: string)
    ensures |r| <= |s| && r == s[|s| - |r|..]
    ensures |r| > 0 ==> !IsNumericSpace(r[0])
  {
    if |s| > 0 && IsNumericSpace(s[0]) then SkipNumericSpace(s[1..]) else s
  }

  /** The longest prefix of `s` made only of decimal digits. */
  function DigitPrefix(s: string): (r: string)
    ensures |r| <= |s| && r == s[..|r|]
    ensures forall i :: 0 <= i < |r| ==> IsDigit(r[i])
    ensures |r| < |s| ==> !IsDigit(s[|r|])
  {
    if |s| > 0 && IsDigit(s[0]) then [s[0]] + DigitPrefix(s[1..]) else ""
  }

  /** Decimal value of a string of digits, most significant first. */
  function DigitsValue(d: string): nat
    requires forall i :: 0 <= i < |d| ==> IsDigit(d[i])
  {
    if |d| == 0 then 0
    else
      assert IsDigit(d[|d| - 1]);
      DigitsValue(d[..|d| - 1]) * 10 + (d[|d| - 1] as int - '0' as int)
  }

  /**
   * PHP's `(int)` cast of a decimal string: leading whitespace is skipped, an
   * optional sign is read, then the longest run of digits; no digits give 0.
   */
  function Intval(s: string): int {
    var t := SkipNumericSpace(s);
    if |t| > 0 && t[0] == '-' then 0 - DigitsValue(DigitPrefix(t[1..]))
    else if |t| > 0 && t[0] == '+' then DigitsValue(DigitPrefix(t[1..]))
    else DigitsValue(DigitPrefix(t))
  }

  /** The decimal representation PHP gives a non-negative integer. */
  function DecimalString(n: nat): (r: string)
    ensures |r| > 0
    ensures forall i :: 0 <= i < |r| ==> IsDigit(r[i])
  {
    if n < 10 then [('0' as int + n) as char]
    else DecimalString(n / 10) + [('0' as int + n % 10) as char]
  }

  lemma {:induction false} DigitsValueOfDecimal(n: nat)
    ensures DigitsValue(DecimalString(n)) == n
  {
    var d := DecimalString(n);
    if n >= 10 {
      DigitsValueOfDecimal(n / 10);
      assert d[..|d| - 1] == DecimalString(n / 10);
    }
  }

  lemma {:induction false} DigitPrefixOfDigits(d: string)
    requires forall i :: 0 <= i < |d| ==> IsDigit(d[i])
    ensures DigitPrefix(d) == d
  {
    if |d| > 0 {
      DigitPrefixOfDigits(d[1..]);
      assert d == [d[0]] + d[1..];
    }
  }

  /** Reading back the decimal text of a number gives the number. */
  lemma IntvalOfDecimal(n: nat)
    ensures Intval(DecimalString(n)) == n
    ensures Intval("-" + DecimalString(n)) == 0 - n
  {
    var d := DecimalString(n);
    DigitPrefixOfDigits(d);
    DigitsValueOfDecimal(n);
    assert IsDigit(d[0]) && !IsNumericSpace(d[0]) && d[0] != '-' && d[0] != '+';
    assert SkipNumericSpace(d) == d;
    assert Intval(d) == DigitsValue(DigitPrefix(d));
    NegativeIntval(d);
  }

  /** A minus sign before a string of digits negates its value. */
  lemma NegativeIntval(d: string)
    requires forall i :: 0 <= i < |d| ==> IsDigit(d[i])
    requires DigitPrefix(d) == d
    ensures Intval("-" + d) == 0 - DigitsValue(d)
  {
    var t := "-" + d;
    assert |t| > 0 && t[0] == '-' && !IsNumericSpace(t[0]);
    assert SkipNumericSpace(t) == t;
    assert t[1..] == d;
    assert Intval(t) == 0 - DigitsValue(DigitPrefix(t[1..]));
  }

  /** An empty string in PHP's sense reads as 0. */
  lemma IntvalOfEmpty(s: string)
    requires Empty(s)
    ensures Intval(s) == 0
  {
    if s == "" {
      assert SkipNumericSpace(s) == s;
      assert DigitPrefix(s) == s;
    } else {
      assert |s| == 1 && s[0] == '0' && !IsNumericSpace(s[0]) && IsDigit(s[0]);
      assert SkipNumericSpace(s) == s;
      assert s[1..] == [];
      assert DigitPrefix(s) == [s[0]];
      assert [s[0]][..0] == [];
      assert DigitsValue([s[0]]) == 0;
    }
  }

  // ---------------------------------------------------------------------
  // implode / trim / str_replace / strpos
  // ---------------------------------------------------------------------

  /** PHP `implode(sep, parts)`. */
  function Join(sep: string, parts: seq<string>): string {
    if |parts| == 0 then ""
    else if |parts| == 1 then parts[0]
    else parts[0] + sep + Join(sep, parts[1..])
  }

  /** Joining two non-empty lists is joining each and gluing with the separator. */
  lemma {:induction false} JoinAppend(sep: string, a: seq<string>, b: seq<string>)
    requires |a| > 0 && |b| > 0
    ensures Join(sep, a + b) == Join(sep, a) + sep + Join(sep, b)
  {
    if |a| == 1 {
      assert (a + b)[1..] == b;
    } else {
      JoinAppend(sep, a[1..], b);
      assert (a + b)[1..] == a[1..] + b;
    }
  }

  /** A nested join with the same separator flattens into one join. */
  lemma {:induction false} JoinFlatten(sep: string, a: seq<string>, b: seq<string>, c: seq<string>)
    requires |b| > 0
    ensures Join(sep, a + [Join(sep, b)] + c) == Join(sep, a + b + c)
  {
    var mid := [Join(sep, b)] + c;
    var rest := b + c;
    if |c| > 0 {
      JoinAppend(sep, [Join(sep, b)], c);
      JoinAppend(sep, b, c);
    } else {
      assert mid == [Join(sep, b)] && rest == b;
    }
    assert Join(sep, mid) == Join(sep, rest);
    assert a + [Join(sep, b)] + c == a + mid;
    assert a + b + c == a + rest;
    if |a| > 0 {
      JoinAppend(sep, a, mid);
      JoinAppend(sep, a, rest);
    } else {
      assert a + mid == mid && a + rest == rest;
    }
  }

  /** Joining PHP-non-empty parts with a non-empty separator gives a PHP-non-empty string. */
  lemma JoinOfNonEmpty(sep: string, parts: seq<string>)
    requires sep != "" && |parts| > 0
    requires forall i :: 0 <= i < |parts| ==> !Empty(parts[i])
    ensures !Empty(Join(sep, parts))
  {
    if |parts| > 1 {
      assert |Join(sep, parts)| >= |parts[0]| + |sep| >= 2;
    }
  }

  /** PHP `explode(sep, s)` with a one-character separator and no limit. */
  function Explode(sep: char, s: string): (parts: seq<string>)
    ensures |parts| >= 1
    ensures forall i :: 0 <= i < |parts| ==> sep !in parts[i]
    decreases |s|
  {
    if |s| == 0 then [""]
    else
      var rest := Explode(sep, s[1..]);
      if s[0] == sep then [""] + rest
      else [[s[0]] + rest[0]] + rest[1..]
  }

  /** `implode` undoes `explode` with the same separator. */
  lemma {:induction false} JoinExplode(sep: char, s: string)
    ensures Join([sep], Explode(sep, s)) == s
    decreases |s|
  {
    if |s| > 0 {
      var rest := Explode(sep, s[1..]);
      JoinExplode(sep, s[1..]);
      var parts := Explode(sep, s);
      if s[0] == sep {
        assert parts[1..] == rest;
        assert s == [sep] + s[1..];
      } else if |rest| == 1 {
        assert s == [s[0]] + s[1..];
      } else {
        assert parts[1..] == rest[1..];
        assert s == [s[0]] + s[1..];
      }
    }
  }

  /** The characters PHP's `trim` removes by default. */
  predicate IsTrimChar(c: char) {
    c == ' ' || c == '\t' || c == '\n' || c == '\r' || c == '\0' || c == '\U{000B}'
  }

  function TrimLeft(s: string): (r: string)
    ensures |r| <= |s| && r == s[|s| - |r|..]
    ensures |r| > 0 ==> !IsTrimChar(r[0])
  {
    if |s| > 0 && IsTrimChar(s[0]) then TrimLeft(s[1..]) else s
  }

  function TrimRight(s: string): (r: string)
    ensures |r| <= |s| && r == s[..|r|]
    ensures |r| > 0 ==> !IsTrimChar(r[|r| - 1])
    ensures |s| > 0 && !IsTrimChar(s[0]) ==> |r| > 0 && r[0] == s[0]
  {
    if |s| > 0 && IsTrimChar(s[|s| - 1]) then TrimRight(s[..|s| - 1]) else s
  }

  /** PHP `trim` with its default character list. */
  function Trim(s: string): (r: string)
    ensures |r| <= |s|
    ensures |r| > 0 ==> !IsTrimChar(r[0]) && !IsTrimChar(r[|r| - 1])
  {
    TrimRight(TrimLeft(s))
  }
  /** A lone space trims to nothing. */
  lemma TrimOfSpace()
    ensures Trim(" ") == ""
  {
    var s := " ";
    assert IsTrimChar(s[0]) && s[1..] == "";
    assert TrimLeft(s) == "";
    assert TrimRight("") == "";
  }


  /** `s` starts with `p`. */
  predicate StartsWith(s: string, p: string) {
    |p| <= |s| && s[..|p|] == p
  }

  /** PHP `strpos(s, sub) !== false`. */
  predicate Contains(s: string, sub: string)
    decreases |s|
  {
    StartsWith(s, sub) || (|s| > 0 && Contains(s[1..], sub))
  }

  /** For a one-character needle, `strpos` finds it exactly when it occurs. */
  lemma {:induction false} ContainsChar(s: string, c: char)
    ensures Contains(s, [c]) <==> c in s
    decreases |s|
  {
    if |s| > 0 {
      ContainsChar(s[1..], c);
      assert s == [s[0]] + s[1..];
    }
  }

  /** PHP `explode(sep, s, 2)` on a string holding `sep`: the text before its first occurrence and the rest after it. */
  function SplitOnce(sep: char, s: string): (parts: (string, string))
    requires sep in s
    ensures sep !in parts.0
    ensures parts.0 + [sep] + parts.1 == s
    decreases |s|
  {
    if s[0] == sep then ("", s[1..])
    else
      var rest := SplitOnce(sep, s[1..]);
      assert s == [s[0]] + s[1..];
      ([s[0]] + rest.0, rest.1)
  }

  /** The split is the only one whose first part is free of `sep`. */
  lemma {:induction false} SplitOnceUnique(sep: char, a: string, b: string)
    requires sep !in a
    ensures sep in a + [sep] + b
    ensures SplitOnce(sep, a + [sep] + b) == (a, b)
    decreases |a|
  {
    assert (a + [sep] + b)[|a|] == sep;
    if |a| > 0 {
      SplitOnceUnique(sep, a[1..], b);
      var s := a + [sep] + b;
      assert s[1..] == a[1..] + [sep] + b;
      assert s[0] == a[0] != sep;
      assert [a[0]] + a[1..] == a;
    }
  }

  lemma {:induction false} ContainsAppendRight(a: string, b: string, sub: string)
    requires Contains(b, sub)
    ensures Contains(a + b, sub)
    decreases |a|
  {
    if |a| == 0 {
      assert a + b == b;
    } else {
      assert (a + b)[1..] == a[1..] + b;
      ContainsAppendRight(a[1..], b, sub);
    }
  }

  lemma {:induction false} ContainsAppendLeft(a: string, b: string, sub: string)
    requires Contains(a, sub)
    ensures Contains(a + b, sub)
    decreases |a|
  {
    if StartsWith(a, sub) {
      assert (a + b)[..|sub|] == a[..|sub|];
    } else {
      assert (a + b)[1..] == a[1..] + b;
      ContainsAppendLeft(a[1..], b, sub);
    }
  }

  /** A substring of a suffix is a substring of the whole. */
  lemma {:induction false} ContainsOfSuffix(s: string, k: nat, sub: string)
    requires k <= |s| && Contains(s[k..], sub)
    ensures Contains(s, sub)
    decreases k
  {
    if k == 0 {
      assert s[k..] == s;
    } else {
      assert s[1..][k - 1..] == s[k..];
      ContainsOfSuffix(s[1..], k - 1, sub);
    }
  }

  /** Whatever occurs inside an occurrence of `a + b + c` occurs in `s`. */
  lemma {:induction false} ContainsMiddle(s: string, a: string, b: string, c: string)
    requires Contains(s, a + b + c)
    ensures Contains(s, b)
    decreases |s|
  {
    if StartsWith(s, a + b + c) {
      assert s[|a|..][..|b|] == (a + b + c)[|a|..|a| + |b|] == b;
      assert StartsWith(s[|a|..], b);
      ContainsOfSuffix(s, |a|, b);
    } else {
      ContainsMiddle(s[1..], a, b, c);
    }
  }

  /**
   * PHP `str_replace(from, to, s)`: every non-overlapping occurrence of
   * `from`, scanning left to right, is replaced; an empty `from` leaves `s`.
   */
  function ReplaceAll(s: string, from: string, to: string): (r: string)
    ensures !Contains(s, from) ==> r == s
    decreases |s|
  {
    if from == "" || |s| == 0 then s
    else if StartsWith(s, from) then to + ReplaceAll(s[|from|..], from, to)
    else [s[0]] + ReplaceAll(s[1..], from, to)
  }

  /** Replacing an occurring, non-empty `from` leaves an occurrence of `to`. */
  lemma {:induction false} ReplaceAllIntroduces(s: string, from: string, to: string)
    requires from != "" && Contains(s, from)
    ensures Contains(ReplaceAll(s, from, to), to)
    decreases |s|
  {
    if StartsWith(s, from) {
      var r := ReplaceAll(s, from, to);
      assert r == to + ReplaceAll(s[|from|..], from, to);
      assert r[..|to|] == to;
    } else {
      ReplaceAllIntroduces(s[1..], from, to);
      ContainsAppendRight([s[0]], ReplaceAll(s[1..], from, to), to);
    }
  }

  // ---------------------------------------------------------------------
  // Ordered associative arrays
  // ---------------------------------------------------------------------

  /** A PHP associative array: keys in insertion order and their values. */
  datatype Table<V> = Table(keys: seq<string>, entries: map<string, V>) {
    ghost predicate Valid() {
      (forall i, j :: 0 <= i < j < |keys| ==> keys[i] != keys[j])
      && (forall k :: k in entries <==> k in keys)
    }

    /** `$a[k] = v`: overwrite in place, or append a new key at the end. */
    function Put(k: string, v: V): (t: Table<V>)
      ensures t.entries == entries[k := v]
      ensures k in keys ==> t.keys == keys
      ensures k !in keys ==> t.keys == keys + [k]
    {
      Table(if k in keys then keys else keys + [k], entries[k := v])
    }
  }

  function EmptyTable<V>(): (t: Table<V>)
    ensures t.Valid() && |t.keys| == 0
  {
    Table([], map[])
  }

  /** Assignment to an array element keeps the keys unique and in step with the values. */
  lemma PutKeepsValid<V>(t: Table<V>, k: string, v: V)
    requires t.Valid()
    ensures t.Put(k, v).Valid()
    ensures k in t.Put(k, v).keys
    ensures forall x :: x in t.keys ==> x in t.Put(k, v).keys
  {
  }
}
