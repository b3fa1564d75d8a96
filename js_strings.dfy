/**
 * The JavaScript built-ins the core relies on, over `string == seq<char>`:
 * `String.prototype.trim`, `String.prototype.split` with a one-character
 * separator, `Number.parseInt` (decimal only) and the decimal rendering of a
 * non-negative integer inside a template literal (`${n}`).
 */
module JsStrings {
  import opened Wrappers

  /** WhiteSpace and LineTerminator code points of ECMA-262 (sections 12.2 and 12.3): what `trim` removes. */
  predicate IsWhitespace(c: char) {
    || c == ' ' || c == '\t' || c == '\n' || c == '\r'
    || c == '\U{000B}' || c == '\U{000C}' || c == '\U{00A0}' || c == '\U{1680}'
    || ('\U{2000}' <= c <= '\U{200A}')
    || c == '\U{2028}' || c == '\U{2029}' || c == '\U{202F}' || c == '\U{205F}'
    || c == '\U{3000}' || c == '\U{FEFF}'
  }

  /** Removes leading whitespace; what is removed is all whitespace and the result does not start with any. */
  function TrimStart(s: string): (r: string)
    ensures |r| <= |s| && r == s[|s| - |r|..]
    ensures r == [] || !IsWhitespace(r[0])
    ensures forall i :: 0 <= i < |s| - |r| ==> IsWhitespace(s[i])
  {
    if s != [] && IsWhitespace(s[0]) then TrimStart(s[1..]) else s
  }

  /** Removes trailing whitespace; what is removed is all whitespace and the result does not end with any. */
  function TrimEnd(s: string): (r: string)
    ensures |r| <= |s| && r == s[..|r|]
    ensures r == [] || !IsWhitespace(r[|r| - 1])
    ensures forall i :: |r| <= i < |s| ==> IsWhitespace(s[i])
  {
    if s != [] && IsWhitespace(s[|s| - 1]) then TrimEnd(s[..|s| - 1]) else s
  }

  /** `String.prototype.trim`. */
  function Trim(s: string): (r: string)
    ensures |r| <= |s|
    ensures r == [] || (!IsWhitespace(r[0]) && !IsWhitespace(r[|r| - 1]))
    ensures exists i, j :: 0 <= i <= j <= |s| && r == s[i..j] && AllWhitespace(s[..i]) && AllWhitespace(s[j..])
  {
    TrimIsInfix(s);
    TrimEnd(TrimStart(s))
  }

  predicate AllWhitespace(w: string) {
    forall k :: 0 <= k < |w| ==> IsWhitespace(w[k])
  }

  /** What trimming keeps is one infix of the text; everything before and after it is whitespace. */
  lemma TrimIsInfix(s: string)
    ensures exists i, j :: 0 <= i <= j <= |s| && TrimEnd(TrimStart(s)) == s[i..j]
                           && AllWhitespace(s[..i]) && AllWhitespace(s[j..])
  {
    var t := TrimStart(s);
    var r := TrimEnd(t);
    var i := |s| - |t|;
    WhitespaceAfterInfix(s, t, r, i);
    assert AllWhitespace(s[..i]);
    assert 0 <= i <= i + |r| <= |s| && r == s[i..i + |r|] && AllWhitespace(s[..i]) && AllWhitespace(s[i + |r|..]);
  }

  /** Whitespace at the end of a suffix of `s` is whitespace at the end of `s`. */
  lemma WhitespaceAfterInfix(s: string, t: string, r: string, i: nat)
    requires i <= |s| && t == s[i..] && |r| <= |t| && r == t[..|r|]
    requires forall k :: |r| <= k < |t| ==> IsWhitespace(t[k])
    ensures r == s[i..i + |r|]
    ensures AllWhitespace(s[i + |r|..])
  {
    var tail := s[i + |r|..];
    forall k | 0 <= k < |tail| ensures IsWhitespace(tail[k]) {
      assert tail[k] == t[|r| + k];
    }
  }

  /** Trimming twice is trimming once. */
  lemma TrimIdempotent(s: string)
    ensures Trim(Trim(s)) == Trim(s)
  {
    var t := Trim(s);
    assert TrimStart(t) == t;
    assert TrimEnd(t) == t;
  }

  /** Every piece between two separators, as `s.split(sep)` gives them for a one-character `sep`. */
  function Split(s: string, sep: char): (r: seq<string>)
    ensures |r| >= 1
    ensures forall k :: 0 <= k < |r| ==> sep !in r[k]
  {
    if s == [] then [""]
    else
      var rest := Split(s[1..], sep);
      if s[0] == sep then [""] + rest
      else [[s[0]] + rest[0]] + rest[1..]
  }

  /** `pieces.join(sep)`: the inverse of Split. */
  function Join(pieces: seq<string>, sep: char): string
    requires |pieces| >= 1
  {
    if |pieces| == 1 then pieces[0] else pieces[0] + [sep] + Join(pieces[1..], sep)
  }

  /** Splitting loses nothing: joining the pieces back gives the original text. */
  lemma {:induction false} SplitJoin(s: string, sep: char)
    ensures Join(Split(s, sep), sep) == s
  {
    if s != [] {
      var rest := Split(s[1..], sep);
      SplitJoin(s[1..], sep);
      if s[0] == sep {
        assert Join([""] + rest, sep) == [sep] + Join(rest, sep);
      } else {
        var r := [[s[0]] + rest[0]] + rest[1..];
        if |rest| == 1 {
          assert Join(r, sep) == [s[0]] + rest[0];
        } else {
          assert r[1..] == rest[1..];
          assert Join(r, sep) == [s[0]] + rest[0] + [sep] + Join(rest[1..], sep);
          assert Join(rest, sep) == rest[0] + [sep] + Join(rest[1..], sep);
        }
      }
    }
  }

  /** Splitting a separator-free piece followed by the separator peels that piece off. */
  lemma {:induction false} SplitAfterPiece(a: string, t: string, sep: char)
    requires sep !in a
    ensures Split(a + [sep] + t, sep) == [a] + Split(t, sep)
    ensures Split(a, sep) == [a]
  {
    if a != [] {
      SplitAfterPiece(a[1..], t, sep);
      assert (a + [sep] + t)[1..] == a[1..] + [sep] + t;
      assert [a[0]] + a[1..] == a;
    } else {
      assert a + [sep] + t == [sep] + t;
    }
  }

  /** Joining separator-free pieces and splitting again gives the pieces back. */
  lemma {:induction false} JoinSplit(pieces: seq<string>, sep: char)
    requires |pieces| >= 1
    requires forall k :: 0 <= k < |pieces| ==> sep !in pieces[k]
    ensures Split(Join(pieces, sep), sep) == pieces
  {
    if |pieces| == 1 {
      SplitAfterPiece(pieces[0], [], sep);
    } else {
      JoinSplit(pieces[1..], sep);
      SplitAfterPiece(pieces[0], Join(pieces[1..], sep), sep);
      assert [pieces[0]] + pieces[1..] == pieces;
    }
  }

  predicate IsDigit(c: char) {
    '0' <= c <= '9'
  }

  function DigitValue(c: char): nat
    requires IsDigit(c)
  {
    (c as int) - ('0' as int)
  }

  function DigitChar(d: nat): (c: char)
    requires d < 10
    ensures IsDigit(c) && DigitValue(c) == d
  {
    "0123456789"[d]
  }

  predicate AllDigits(s: string) {
    forall i :: 0 <= i < |s| ==> IsDigit(s[i])
  }

  /** The longest prefix of `s` made of decimal digits. */
  function LeadingDigits(s: string): (r: string)
    ensures |r| <= |s| && r == s[..|r|] && AllDigits(r)
    ensures |r| < |s| ==> !IsDigit(s[|r|])
  {
    if s != [] && IsDigit(s[0]) then [s[0]] + LeadingDigits(s[1..]) else []
  }

  /** The value of a run of decimal digits, most significant first. */
  function DigitsValue(ds: string): nat
    requires AllDigits(ds)
  {
    if ds == [] then 0 else DigitsValue(ds[..|ds| - 1]) * 10 + DigitValue(ds[|ds| - 1])
  }

  /**
   * `Number.parseInt(s)` with no radix, restricted to decimal: leading
   * whitespace is skipped, one optional sign is read, then the longest run of
   * digits; None stands for `NaN` (no digit after the sign).
   */
  function ParseInt(s: string): (r: Option<int>)
    ensures r.Some? <==> LeadingDigits(UnsignedPart(TrimStart(s))) != []
  {
    ParseSigned(TrimStart(s))
  }

  /** Reads one optional sign and the longest run of digits from text that no longer starts with whitespace. */
  function ParseSigned(t: string): (r: Option<int>)
    ensures r.Some? <==> LeadingDigits(UnsignedPart(t)) != []
  {
    var ds := LeadingDigits(UnsignedPart(t));
    if ds == [] then None
    else
      var v: int := DigitsValue(ds);
      if t[0] == '-' then Some(-v) else Some(v)
  }

  /** The text after one optional leading `+` or `-`. */
  function UnsignedPart(t: string): string {
    if t != [] && (t[0] == '-' || t[0] == '+') then t[1..] else t
  }

  /** `${n}` for a non-negative integer: its decimal digits, with no leading zero. */
  function NatToString(n: nat): (r: string)
    ensures |r| >= 1 && AllDigits(r)
    ensures DigitsValue(r) == n
    ensures r[0] == '0' ==> n == 0 && r == "0"
  {
    if n < 10 then [DigitChar(n)]
    else
      var r := NatToString(n / 10) + [DigitChar(n % 10)];
      assert r[..|r| - 1] == NatToString(n / 10);
      r
  }

  /** Reading back the decimal rendering of a natural number gives the number. */
  lemma ParseIntNatToString(n: nat)
    ensures ParseInt(NatToString(n)) == Some(n)
    ensures ParseInt("-" + NatToString(n)) == Some(-(n as int))
  {
    ParsePositive(n);
    ParseNegative(n);
  }

  lemma ParsePositive(n: nat)
    ensures ParseInt(NatToString(n)) == Some(n)
  {
    var s := NatToString(n);
    StartsWithoutWhitespace(s);
    assert UnsignedPart(s) == s;
    LeadingDigitsOfDigits(s);
  }

  lemma ParseNegative(n: nat)
    ensures ParseInt("-" + NatToString(n)) == Some(-(n as int))
  {
    var s := NatToString(n);
    var m := "-" + s;
    StartsWithoutWhitespace(m);
    assert m[1..] == s;
    assert UnsignedPart(m) == s;
    LeadingDigitsOfDigits(s);
  }

  /**
   * The value `parseInt` reads from a cell as it may appear in a file: leading
   * whitespace, an optional sign, leading zeros, the digits of n, then any
   * text that does not start with a digit (`" 007abc"` reads as 7).
   */
  lemma ParseIntOfCell(w: string, sign: string, z: string, n: nat, rest: string)
    requires AllWhitespace(w) && (sign == "" || sign == "+" || sign == "-") && AllZeros(z)
    requires rest == [] || !IsDigit(rest[0])
    ensures ParseInt(w + sign + z + NatToString(n) + rest) == Some(if sign == "-" then -(n as int) else n)
  {
    var d := NatToString(n);
    var u := z + d + rest;
    var t := sign + u;
    assert w + sign + z + d + rest == w + t;
    DigitRunOfCell(z, d, rest);
    SignedPart(sign, u);
    SignOrDigitNotWhitespace(t[0]);
    ParseAfterWhitespace(w, t);
    SignedValue(t, z + d, n);
  }

  /** One optional sign in front of a digit: it is read as the sign, and only a `-` negates. */
  lemma SignedPart(sign: string, u: string)
    requires sign == "" || sign == "+" || sign == "-"
    requires u != [] && IsDigit(u[0])
    ensures sign + u != [] && ((sign + u)[0] == '+' || (sign + u)[0] == '-' || IsDigit((sign + u)[0]))
    ensures UnsignedPart(sign + u) == u
    ensures (sign + u)[0] == '-' <==> sign == "-"
  {
    var t := sign + u;
    if sign == "" {
      assert t == u && u[0] != '-';
    } else if sign == "+" {
      assert t[1..] == u;
      assert t[0] == '+' && sign[0] != "-"[0];
    } else {
      assert t[1..] == u;
      assert t[0] == '-';
    }
  }

  /** Zeros, then the digits of a number, then a non-digit: the run is the zeros and the digits. */
  lemma DigitRunOfCell(z: string, d: string, rest: string)
    requires AllZeros(z) && d != [] && AllDigits(d)
    requires rest == [] || !IsDigit(rest[0])
    ensures LeadingDigits(z + d + rest) == z + d
    ensures z + d != [] && AllDigits(z + d) && DigitsValue(z + d) == DigitsValue(d)
    ensures IsDigit((z + d + rest)[0])
  {
    LeadingZerosValue(z, d);
    LeadingDigitsStop(z + d, rest);
    assert (z + d + rest)[0] == (z + d)[0];
  }

  /** `parseInt` skips the whitespace in front of the text it reads. */
  lemma ParseAfterWhitespace(w: string, t: string)
    requires AllWhitespace(w) && t != [] && !IsWhitespace(t[0])
    ensures ParseInt(w + t) == ParseSigned(t)
  {
    TrimStartAfterWhitespace(w, t);
  }

  /** Once the trimmed text and its digit run are known, the value is the run's value with the text's sign. */
  lemma SignedValue(t: string, ds: string, n: nat)
    requires t != []
    requires LeadingDigits(UnsignedPart(t)) == ds && ds != [] && AllDigits(ds) && DigitsValue(ds) == n
    ensures ParseSigned(t) == Some(if t[0] == '-' then -(n as int) else n)
  {
  }

  lemma SignOrDigitNotWhitespace(c: char)
    requires c == '+' || c == '-' || IsDigit(c)
    ensures !IsWhitespace(c)
  {
  }

  predicate AllZeros(z: string) {
    forall i :: 0 <= i < |z| ==> z[i] == '0'
  }

  /** Whitespace in front of text that starts with something else is exactly what TrimStart removes. */
  lemma {:induction false} TrimStartAfterWhitespace(w: string, x: string)
    requires AllWhitespace(w) && x != [] && !IsWhitespace(x[0])
    ensures TrimStart(w + x) == x
  {
    if w == [] {
      assert w + x == x;
    } else {
      assert (w + x)[1..] == w[1..] + x;
      TrimStartAfterWhitespace(w[1..], x);
    }
  }

  /** The digit run stops at the first character that is not a digit. */
  lemma {:induction false} LeadingDigitsStop(ds: string, rest: string)
    requires AllDigits(ds) && (rest == [] || !IsDigit(rest[0]))
    ensures LeadingDigits(ds + rest) == ds
  {
    if ds == [] {
      assert ds + rest == rest;
    } else {
      assert (ds + rest)[1..] == ds[1..] + rest;
      LeadingDigitsStop(ds[1..], rest);
    }
  }

  /** Leading zeros do not change the value of a digit run. */
  lemma {:induction false} LeadingZerosValue(z: string, d: string)
    requires AllZeros(z) && AllDigits(d)
    ensures AllDigits(z + d) && DigitsValue(z + d) == DigitsValue(d)
  {
    if d == [] {
      assert z + d == z;
      ZerosValue(z);
    } else {
      var p := d[..|d| - 1];
      LeadingZerosValue(z, p);
      assert (z + d)[..|z + d| - 1] == z + p;
    }
  }

  lemma {:induction false} ZerosValue(z: string)
    requires AllZeros(z)
    ensures AllDigits(z) && DigitsValue(z) == 0
  {
    if z != [] {
      ZerosValue(z[..|z| - 1]);
    }
  }

  /** Text that does not start with whitespace is left alone by TrimStart. */
  lemma StartsWithoutWhitespace(s: string)
    requires s != [] && !IsWhitespace(s[0])
    ensures TrimStart(s) == s
  {
  }

  lemma {:induction false} LeadingDigitsOfDigits(s: string)
    requires AllDigits(s)
    ensures LeadingDigits(s) == s
  {
    if s != [] {
      LeadingDigitsOfDigits(s[1..]);
    }
  }

  /** Distinct numbers render differently, so `mod ${i}` and `artifact ${i}` keys never collide. */
  lemma NatToStringInjective(a: nat, b: nat)
    requires NatToString(a) == NatToString(b)
    ensures a == b
  {
  }
}
