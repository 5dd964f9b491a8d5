/**
  The pieces of Go's standard library that the tool handlers rely on:
  `strings.Split` with a one-character separator, `strings.TrimSpace`
  (with `unicode.IsSpace`), the `[]byte(s)` conversion of a string to its
  UTF-8 bytes, and `strconv.Atoi`.
 */
module GoStrings {
  import opened Results

  newtype byte = x: int | 0 <= x < 0x100

  type Bytes = seq<byte>

  // ---------------------------------------------------------------------
  // unicode.IsSpace and strings.TrimSpace
  // ---------------------------------------------------------------------

  /** Go's `unicode.IsSpace`: the Latin-1 spaces '\t', '\n', '\v', '\f',
      '\r', ' ', U+0085, U+00A0, and the other Unicode White_Space runes. */
  predicate IsSpace(c: char) {
    var n := c as int;
    (0x09 <= n <= 0x0D) || n == 0x20 || n == 0x85 || n == 0xA0
    || n == 0x1680 || (0x2000 <= n <= 0x200A) || n == 0x2028 || n == 0x2029
    || n == 0x202F || n == 0x205F || n == 0x3000
  }

  predicate AllSpace(s: string) {
    forall k :: 0 <= k < |s| ==> IsSpace(s[k])
  }

  /** `s` with its leading white space removed. */
  function TrimLeft(s: string): (t: string)
    ensures |t| <= |s|
  {
    if s != [] && IsSpace(s[0]) then TrimLeft(s[1..]) else s
  }

  /** `s` with its trailing white space removed. */
  function TrimRight(s: string): (t: string)
    ensures |t| <= |s|
  {
    if s != [] && IsSpace(s[|s| - 1]) then TrimRight(s[..|s| - 1]) else s
  }

  /** Go's `strings.TrimSpace`: `s` with leading and trailing white space
      cut off. */
  function TrimSpace(s: string): (t: string) {
    TrimRight(TrimLeft(s))
  }

  /** `TrimLeft` keeps a suffix that does not start with white space and
      cuts off only white space. */
  lemma {:induction false} TrimLeftSpec(s: string)
    ensures |TrimLeft(s)| <= |s| && TrimLeft(s) == s[|s| - |TrimLeft(s)|..]
    ensures AllSpace(s[..|s| - |TrimLeft(s)|])
    ensures TrimLeft(s) == [] || !IsSpace(TrimLeft(s)[0])
  {
    if s != [] && IsSpace(s[0]) {
      TrimLeftSpec(s[1..]);
      var n := |s| - |TrimLeft(s)|;
      assert s[..n] == [s[0]] + s[1..][..n - 1];
    }
  }

  /** `TrimRight` keeps a prefix that does not end with white space and
      cuts off only white space. */
  lemma {:induction false} TrimRightSpec(s: string)
    ensures |TrimRight(s)| <= |s| && TrimRight(s) == s[..|TrimRight(s)|]
    ensures AllSpace(s[|TrimRight(s)|..])
    ensures TrimRight(s) == [] || !IsSpace(TrimRight(s)[|TrimRight(s)| - 1])
  {
    if s != [] && IsSpace(s[|s| - 1]) {
      TrimRightSpec(s[..|s| - 1]);
      var n := |TrimRight(s)|;
      assert s[n..] == s[..|s| - 1][n..] + [s[|s| - 1]];
    }
  }

  /** What `TrimSpace` keeps: an infix of `s` that neither starts nor ends
      with white space, with only white space before and after it. */
  lemma {:induction false} TrimSpaceSpec(s: string)
    ensures TrimSpace(s) == [] || (!IsSpace(TrimSpace(s)[0]) && !IsSpace(TrimSpace(s)[|TrimSpace(s)| - 1]))
    ensures |s| - |TrimLeft(s)| + |TrimSpace(s)| <= |s|
    ensures var lead := |s| - |TrimLeft(s)|; s[lead..lead + |TrimSpace(s)|] == TrimSpace(s)
    ensures AllSpace(s[..|s| - |TrimLeft(s)|])
    ensures AllSpace(s[|s| - |TrimLeft(s)| + |TrimSpace(s)|..])
  {
    TrimLeftSpec(s);
    TrimmedEnds(s);
    TrimmedIsInfix(s);
    TrimmedTail(s);
  }

  lemma {:induction false} TrimmedEnds(s: string)
    ensures var t := TrimRight(TrimLeft(s)); t == [] || (!IsSpace(t[0]) && !IsSpace(t[|t| - 1]))
  {
    var u := TrimLeft(s);
    var t := TrimRight(u);
    TrimLeftSpec(s);
    TrimRightSpec(u);
    assert t == [] || t[0] == u[0];
  }

  lemma {:induction false} TrimmedIsInfix(s: string)
    ensures var u := TrimLeft(s); var t := TrimRight(u); var lead := |s| - |u|;
      && lead + |t| <= |s|
      && s[lead..lead + |t|] == t
  {
    var u := TrimLeft(s);
    var t := TrimRight(u);
    var lead := |s| - |u|;
    TrimLeftSpec(s);
    TrimRightSpec(u);
    assert u == s[lead..];
    assert t == u[..|t|];
  }

  lemma {:induction false} TrimmedTail(s: string)
    ensures var u := TrimLeft(s); var t := TrimRight(u); var lead := |s| - |u|;
      AllSpace(s[lead + |t|..])
  {
    var u := TrimLeft(s);
    var t := TrimRight(u);
    var lead := |s| - |u|;
    TrimLeftSpec(s);
    TrimRightSpec(u);
    assert AllSpace(u[|t|..]);
    assert s[lead + |t|..] == u[|t|..];
  }

  /** A string made of white space around a core that neither starts nor
      ends with white space trims to exactly that core: `TrimSpace` agrees
      with the reference definition "strip the white space at both ends". */
  lemma {:induction false} TrimSpaceOfPadded(p: string, t: string, q: string)
    requires AllSpace(p) && AllSpace(q)
    requires t == [] || (!IsSpace(t[0]) && !IsSpace(t[|t| - 1]))
    ensures TrimSpace(p + t + q) == t
  {
    if t == [] {
      assert p + t + q == p + q;
      TrimLeftOfPadded(p, q);
    } else {
      assert p + t + q == p + (t + q);
      assert (t + q)[0] == t[0];
      TrimLeftOfPadded(p, t + q);
      TrimRightOfPadded(t, q);
    }
  }

  lemma {:induction false} TrimLeftOfPadded(p: string, u: string)
    requires AllSpace(p)
    requires u == [] || !IsSpace(u[0]) || AllSpace(u)
    ensures TrimLeft(p + u) == if AllSpace(u) then [] else u
  {
    if p == [] {
      assert p + u == u;
      TrimLeftAllSpace(u);
    } else {
      assert (p + u)[1..] == p[1..] + u;
      TrimLeftOfPadded(p[1..], u);
    }
  }

  lemma {:induction false} TrimLeftAllSpace(u: string)
    ensures AllSpace(u) ==> TrimLeft(u) == []
    ensures !AllSpace(u) && (u == [] || !IsSpace(u[0])) ==> TrimLeft(u) == u
  {
    if u != [] && IsSpace(u[0]) {
      TrimLeftAllSpace(u[1..]);
      if AllSpace(u[1..]) {
        assert AllSpace(u);
      }
    }
  }

  lemma {:induction false} TrimRightOfPadded(t: string, q: string)
    requires AllSpace(q)
    requires t == [] || !IsSpace(t[|t| - 1])
    ensures TrimRight(t + q) == t
  {
    if q == [] {
      assert t + q == t;
    } else {
      assert (t + q)[..|t + q| - 1] == t + q[..|q| - 1];
      TrimRightOfPadded(t, q[..|q| - 1]);
    }
  }

  // ---------------------------------------------------------------------
  // strings.Split with a single-character separator
  // ---------------------------------------------------------------------

  /** Number of occurrences of `c` in `s`. */
  function CountOf(s: string, c: char): nat {
    if s == [] then 0 else (if s[0] == c then 1 else 0) + CountOf(s[1..], c)
  }

  /** Go's `strings.Split(s, string(sep))`: the pieces of `s` between the
      occurrences of `sep`, in order, empty pieces included. */
  function SplitOn(s: string, sep: char): (parts: seq<string>)
    ensures |parts| >= 1
  {
    if s == [] then [[]]
    else
      var rest := SplitOn(s[1..], sep);
      if s[0] == sep then [[]] + rest else [[s[0]] + rest[0]] + rest[1..]
  }

  /** Go's `strings.Join(parts, string(sep))`, the inverse of `SplitOn`. */
  function Join(parts: seq<string>, sep: char): string
    requires |parts| >= 1
  {
    if |parts| == 1 then parts[0] else parts[0] + [sep] + Join(parts[1..], sep)
  }

  /** Splitting yields one piece more than there are separators. */
  lemma {:induction false} SplitCount(s: string, sep: char)
    ensures |SplitOn(s, sep)| == CountOf(s, sep) + 1
  {
    if s != [] {
      SplitCount(s[1..], sep);
    }
  }

  /** No piece contains the separator. */
  lemma {:induction false} SplitPiecesFree(s: string, sep: char)
    ensures forall i :: 0 <= i < |SplitOn(s, sep)| ==> sep !in SplitOn(s, sep)[i]
  {
    if s != [] {
      SplitPiecesFree(s[1..], sep);
    }
  }

  /** Joining the pieces back with the separator gives the original string:
      nothing is dropped, reordered or added. */
  lemma {:induction false} JoinSplit(s: string, sep: char)
    ensures Join(SplitOn(s, sep), sep) == s
  {
    if s != [] {
      var rest := SplitOn(s[1..], sep);
      JoinSplit(s[1..], sep);
      if s[0] == sep {
        assert SplitOn(s, sep)[1..] == rest;
        assert s == [sep] + s[1..];
      } else if |rest| == 1 {
        assert s == [s[0]] + s[1..];
      } else {
        var parts := SplitOn(s, sep);
        assert parts[1..] == rest[1..];
        assert Join(rest, sep) == rest[0] + [sep] + Join(rest[1..], sep);
        assert s == [s[0]] + s[1..];
      }
    }
  }

  /** Splitting a join of separator-free pieces gives the pieces back, so
      `SplitOn` is exactly the inverse of `Join`. */
  lemma {:induction false} SplitJoin(parts: seq<string>, sep: char)
    requires |parts| >= 1
    requires forall i :: 0 <= i < |parts| ==> sep !in parts[i]
    ensures SplitOn(Join(parts, sep), sep) == parts
  {
    if |parts| == 1 {
      SplitPrefix(parts[0], [], sep);
      assert parts[0] + [] == parts[0];
    } else {
      var tail := Join(parts[1..], sep);
      SplitJoin(parts[1..], sep);
      SplitPrefix(parts[0], [sep] + tail, sep);
      assert parts[0] + [sep] + tail == parts[0] + ([sep] + tail);
      assert ([sep] + tail)[1..] == tail;
      assert SplitOn([sep] + tail, sep) == [[]] + SplitOn(tail, sep);
      assert parts[0] + [] == parts[0];
      assert [parts[0]] + parts[1..] == parts;
    }
  }

  lemma {:induction false} SplitPrefix(a: string, rest: string, sep: char)
    requires sep !in a
    ensures SplitOn(a + rest, sep) == [a + SplitOn(rest, sep)[0]] + SplitOn(rest, sep)[1..]
  {
    if a == [] {
      var x := SplitOn(rest, sep);
      assert a + rest == rest;
      assert a + x[0] == x[0];
      assert x == [x[0]] + x[1..];
    } else {
      assert (a + rest)[1..] == a[1..] + rest;
      SplitPrefix(a[1..], rest, sep);
      assert [a[0]] + (a[1..] + SplitOn(rest, sep)[0]) == a + SplitOn(rest, sep)[0];
    }
  }

  // ---------------------------------------------------------------------
  // []byte(s): UTF-8 encoding
  // ---------------------------------------------------------------------

  /** The UTF-8 encoding of one rune. */
  function RuneBytes(c: char): (b: Bytes)
    ensures 1 <= |b| <= 4
    ensures |b| == 1 <==> (c as int) < 0x80
    ensures |b| == 1 ==> b[0] as int == c as int
  {
    var n := c as int;
    if n < 0x80 then [n as byte]
    else if n < 0x800 then [(0xC0 + n / 0x40) as byte, (0x80 + n % 0x40) as byte]
    else if n < 0x1_0000 then
      [(0xE0 + n / 0x1000) as byte, (0x80 + (n / 0x40) % 0x40) as byte, (0x80 + n % 0x40) as byte]
    else
      [(0xF0 + n / 0x4_0000) as byte, (0x80 + (n / 0x1000) % 0x40) as byte,
       (0x80 + (n / 0x40) % 0x40) as byte, (0x80 + n % 0x40) as byte]
  }

  /** Go's conversion `[]byte(s)`: the UTF-8 bytes of `s`. */
  function Utf8Bytes(s: string): (b: Bytes) {
    if s == [] then [] else RuneBytes(s[0]) + Utf8Bytes(s[1..])
  }

  /** The encoding of a concatenation is the concatenation of the
      encodings. */
  lemma {:induction false} Utf8Append(s: string, t: string)
    ensures Utf8Bytes(s + t) == Utf8Bytes(s) + Utf8Bytes(t)
  {
    if s != [] {
      assert (s + t)[0] == s[0] && (s + t)[1..] == s[1..] + t;
      Utf8Append(s[1..], t);
      calc {
        Utf8Bytes(s + t);
        RuneBytes(s[0]) + Utf8Bytes(s[1..] + t);
        RuneBytes(s[0]) + (Utf8Bytes(s[1..]) + Utf8Bytes(t));
        (RuneBytes(s[0]) + Utf8Bytes(s[1..])) + Utf8Bytes(t);
      }
    } else {
      assert s + t == t;
    }
  }

  /** Each character takes one to four bytes. */
  lemma {:induction false} Utf8Length(s: string)
    ensures |s| <= |Utf8Bytes(s)| <= 4 * |s|
  {
    if s != [] {
      Utf8Length(s[1..]);
    }
  }

  predicate IsAscii(s: string) {
    forall k :: 0 <= k < |s| ==> (s[k] as int) < 0x80
  }

  /** An ASCII string converts byte for byte. */
  lemma {:induction false} AsciiBytes(s: string)
    requires IsAscii(s)
    ensures |Utf8Bytes(s)| == |s|
    ensures forall k :: 0 <= k < |s| ==> Utf8Bytes(s)[k] as int == s[k] as int
  {
    if s != [] {
      AsciiBytes(s[1..]);
    }
  }

  // ---------------------------------------------------------------------
  // strconv.Atoi: signed decimal integers
  // ---------------------------------------------------------------------

  predicate IsDigit(c: char) {
    '0' <= c <= '9'
  }

  predicate AllDigits(s: string) {
    forall k :: 0 <= k < |s| ==> IsDigit(s[k])
  }

  /** The value of a run of decimal digits, leading zeros allowed. */
  function DigitsValue(s: string): (n: nat)
    requires AllDigits(s)
  {
    if s == [] then 0 else 10 * DigitsValue(s[..|s| - 1]) + (s[|s| - 1] as int - '0' as int)
  }

  /** The shortest decimal rendering of `n`, as `strconv.Itoa` writes it. */
  function Decimal(n: nat): (s: string)
    ensures s != [] && AllDigits(s)
  {
    var last := ('0' as int + n % 10) as char;
    if n < 10 then [last] else Decimal(n / 10) + [last]
  }

  /** `strconv.Atoi` on a 64-bit platform: an optional '+' or '-', then one
      or more decimal digits, whose value must fit int64; anything else is
      an error (no white space, no underscores, no base prefix). */
  function Atoi(s: string): (r: Option<int>)
    ensures r.Some? ==> -0x8000_0000_0000_0000 <= r.value <= 0x7FFF_FFFF_FFFF_FFFF
    ensures r.Some? ==> s != [] && (IsDigit(s[0]) || s[0] == '+' || s[0] == '-')
  {
    var signed := s != [] && (s[0] == '+' || s[0] == '-');
    var digits := if signed then s[1..] else s;
    if digits == [] || !AllDigits(digits) then None
    else
      var v: int := if signed && s[0] == '-' then -(DigitsValue(digits) as int) else DigitsValue(digits);
      if -0x8000_0000_0000_0000 <= v <= 0x7FFF_FFFF_FFFF_FFFF then Some(v) else None
  }

  /** Reading back a rendering gives the number. */
  lemma {:induction false} DigitsValueOfDecimal(n: nat)
    ensures DigitsValue(Decimal(n)) == n
  {
    var s := Decimal(n);
    if n >= 10 {
      assert s[..|s| - 1] == Decimal(n / 10);
      DigitsValueOfDecimal(n / 10);
    }
  }

  /** `strconv.Atoi` inverts `strconv.Itoa` over the whole int64 range, with
      an optional '+' before a non-negative number; past that range it
      reports an error. */
  lemma {:induction false} AtoiDecimal(n: nat)
    ensures n <= 0x7FFF_FFFF_FFFF_FFFF ==> Atoi(Decimal(n)) == Some(n)
    ensures n <= 0x7FFF_FFFF_FFFF_FFFF ==> Atoi("+" + Decimal(n)) == Some(n)
    ensures n > 0x7FFF_FFFF_FFFF_FFFF ==> Atoi(Decimal(n)) == None
    ensures n > 0x7FFF_FFFF_FFFF_FFFF ==> Atoi("+" + Decimal(n)) == None
    ensures n <= 0x8000_0000_0000_0000 ==> Atoi("-" + Decimal(n)) == Some(-(n as int))
    ensures n > 0x8000_0000_0000_0000 ==> Atoi("-" + Decimal(n)) == None
  {
    AtoiUnsigned(n);
    AtoiSigned(n, '+');
    AtoiSigned(n, '-');
  }

  lemma {:induction false} AtoiUnsigned(n: nat)
    ensures Atoi(Decimal(n)) == if n <= 0x7FFF_FFFF_FFFF_FFFF then Some(n) else None
  {
    var d := Decimal(n);
    DigitsValueOfDecimal(n);
    assert IsDigit(d[0]);
  }

  lemma {:induction false} AtoiSigned(n: nat, sign: char)
    requires sign == '+' || sign == '-'
    ensures var v: int := if sign == '-' then -(n as int) else n;
      Atoi([sign] + Decimal(n)) == if -0x8000_0000_0000_0000 <= v <= 0x7FFF_FFFF_FFFF_FFFF then Some(v) else None
  {
    var d := Decimal(n);
    DigitsValueOfDecimal(n);
    assert ([sign] + d)[0] == sign;
    assert ([sign] + d)[1..] == d;
  }

  /** No digits, or anything besides digits after the sign, is an error. */
  lemma AtoiRejects(s: string)
    ensures Atoi("") == None && Atoi("+") == None && Atoi("-") == None
    ensures (exists k :: 0 < k < |s| && !IsDigit(s[k])) ==> Atoi(s) == None
  {
    assert "+"[1..] == [];
    assert "-"[1..] == [];
    if exists k :: 0 < k < |s| && !IsDigit(s[k]) {
      var k :| 0 < k < |s| && !IsDigit(s[k]);
      var signed := s[0] == '+' || s[0] == '-';
      if signed {
        assert s[1..][k - 1] == s[k];
      }
    }
  }
}
