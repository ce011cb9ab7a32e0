/** The pieces of JavaScript's string semantics that the server and the
    browser code rely on: `trim`, the regex class `\s`, `split`, `join`,
    `parseInt`, the rendering of an integer in a template literal, and the
    truthiness of an optional string. */
module JsText {
  import opened Wrappers

  /** ECMAScript WhiteSpace and LineTerminator code points: what `trim`
      strips, what `parseInt` skips and what the regex class `\s` matches. */
  predicate IsWhite(c: char) {
    || c == '\t' || c == '\n' || c == '\U{B}' || c == '\U{C}' || c == '\r'
    || c == ' ' || c == '\U{A0}' || c == '\U{1680}'
    || ('\U{2000}' <= c <= '\U{200A}')
    || c == '\U{2028}' || c == '\U{2029}' || c == '\U{202F}' || c == '\U{205F}'
    || c == '\U{3000}' || c == '\U{FEFF}'
  }

  predicate NoWhite(s: string) {
    forall i :: 0 <= i < |s| ==> !IsWhite(s[i])
  }

  predicate StartsWith(s: string, prefix: string) {
    |prefix| <= |s| && s[..|prefix|] == prefix
  }

  /** Appending to a sequence that was built by appending (used by the loops
      and proofs that build texts piece by piece). */
  lemma AppendAssoc<T>(a: seq<T>, b: seq<T>, c: seq<T>)
    ensures a + (b + c) == (a + b) + c
  {
  }

  /** A prefix of a text is a prefix of any extension of it. */
  lemma StartsWithAppend(s: string, t: string, prefix: string)
    requires StartsWith(s, prefix)
    ensures StartsWith(s + t, prefix)
  {
    assert (s + t)[..|prefix|] == s[..|prefix|];
  }

  /** Leading white space removed (the first step of `parseInt`). */
  function TrimStart(s: string): (r: string)
    ensures |r| <= |s| && r == s[|s| - |r|..]
    ensures forall i :: 0 <= i < |s| - |r| ==> IsWhite(s[i])
    ensures r == [] || !IsWhite(r[0])
  {
    if s != [] && IsWhite(s[0]) then TrimStart(s[1..]) else s
  }

  function TrimEnd(s: string): (r: string)
    ensures |r| <= |s| && r == s[..|r|]
    ensures forall i :: |r| <= i < |s| ==> IsWhite(s[i])
    ensures r == [] || !IsWhite(r[|r| - 1])
  {
    if s != [] && IsWhite(s[|s| - 1]) then TrimEnd(s[..|s| - 1]) else s
  }

  /** `String.prototype.trim`. */
  function Trim(s: string): string {
    TrimEnd(TrimStart(s))
  }

  /** `s.replace(/\s+/g, '')`: every white space character deleted. */
  function RemoveWhite(s: string): (r: string)
    ensures NoWhite(r)
    ensures |r| <= |s|
    ensures NoWhite(s) ==> r == s
  {
    if s == [] then []
    else if IsWhite(s[0]) then RemoveWhite(s[1..])
    else [s[0]] + RemoveWhite(s[1..])
  }

  lemma {:induction false} TrimOfNoWhite(s: string)
    requires NoWhite(s)
    ensures Trim(s) == s
  {
    if s != [] {
      assert !IsWhite(s[0]) && !IsWhite(s[|s| - 1]);
    }
  }

  // ---------------------------------------------------------------------
  // split and join

  /** `s.split(sep)` for a one-character separator; `"".split(sep)` is `[""]`. */
  function Split(s: string, sep: char): (parts: seq<string>)
    ensures |parts| >= 1
    ensures forall k :: 0 <= k < |parts| ==> sep !in parts[k]
  {
    if s == [] then [[]]
    else
      var tail := Split(s[1..], sep);
      if s[0] == sep then [[]] + tail
      else [[s[0]] + tail[0]] + tail[1..]
  }

  /** `parts.join(sep)`. */
  function Join(parts: seq<string>, sep: string): string {
    if |parts| == 0 then ""
    else if |parts| == 1 then parts[0]
    else parts[0] + sep + Join(parts[1..], sep)
  }

  /** `items.map((x, i) => `${i + 1}. ${x}`).join('\n')` */
  function NumberedList(items: seq<string>): string {
    Join(seq(|items|, i requires 0 <= i < |items| => NatToString(i + 1) + ". " + items[i]), "\n")
  }

  function Last(parts: seq<string>): string
    requires |parts| >= 1
  {
    parts[|parts| - 1]
  }

  /** Joining the pieces of a split with the separator gives back the input. */
  lemma {:induction false} JoinSplit(s: string, sep: char)
    ensures Join(Split(s, sep), [sep]) == s
  {
    if s != [] {
      var tail := Split(s[1..], sep);
      JoinSplit(s[1..], sep);
      if s[0] == sep {
        assert Split(s, sep) == [[]] + tail;
      } else if |tail| > 1 {
        assert Split(s, sep) == [[s[0]] + tail[0]] + tail[1..];
        assert Join(tail, [sep]) == tail[0] + [sep] + Join(tail[1..], [sep]);
        assert (Split(s, sep))[1..] == tail[1..];
      }
    }
  }

  lemma {:induction false} SplitWithoutSeparator(s: string, sep: char)
    requires sep !in s
    ensures Split(s, sep) == [s]
  {
    if s != [] {
      assert s == [s[0]] + s[1..];
      assert sep !in s[1..];
      SplitWithoutSeparator(s[1..], sep);
    }
  }

  /** Appending a separator and a separator-free segment appends exactly one part. */
  lemma {:induction false} SplitAppend(p: string, sep: char, q: string)
    requires sep !in q
    ensures Split(p + [sep] + q, sep) == Split(p, sep) + [q]
  {
    if p == [] {
      assert p + [sep] + q == [sep] + q;
      assert ([sep] + q)[1..] == q;
      SplitWithoutSeparator(q, sep);
    } else {
      var s := p + [sep] + q;
      assert s[0] == p[0];
      assert s[1..] == p[1..] + [sep] + q;
      SplitAppend(p[1..], sep, q);
    }
  }

  /** A separator-free text before the first separator is the first part. */
  lemma {:induction false} SplitFirstPart(p: string, sep: char, q: string)
    requires sep !in p
    ensures Split(p + [sep] + q, sep) == [p] + Split(q, sep)
    decreases |p|
  {
    if p == [] {
      assert p + [sep] + q == [sep] + q;
      assert ([sep] + q)[1..] == q;
    } else {
      var s := p + [sep] + q;
      assert s[0] == p[0];
      assert s[1..] == p[1..] + [sep] + q;
      assert sep !in p[1..];
      SplitFirstPart(p[1..], sep, q);
      assert [p[0]] + p[1..] == p;
    }
  }

  /** The last part of a split is the text after the final separator, and a
      split with a single part is the whole input. */
  lemma {:induction false} LastPartIsSuffix(s: string, sep: char)
    ensures var l := Last(Split(s, sep));
      && |l| <= |s| && l == s[|s| - |l|..]
      && (|l| < |s| ==> s[|s| - |l| - 1] == sep)
      && (|Split(s, sep)| == 1 ==> l == s)
      && (|Split(s, sep)| > 1 ==> |l| < |s|)
  {
    if s != [] {
      var tail := Split(s[1..], sep);
      var l := Last(tail);
      LastPartIsSuffix(s[1..], sep);
      assert s[1..][|s| - 1 - |l|..] == s[|s| - |l|..];
      if s[0] == sep {
        assert Split(s, sep) == [[]] + tail;
        assert Last(Split(s, sep)) == l;
      } else if |tail| == 1 {
        assert Split(s, sep) == [[s[0]] + tail[0]];
        assert s == [s[0]] + s[1..];
      } else {
        assert Split(s, sep) == [[s[0]] + tail[0]] + tail[1..];
        assert Last(Split(s, sep)) == l;
      }
    }
  }

  // ---------------------------------------------------------------------
  // numbers: rendering and parseInt

  function DigitChar(d: nat): (c: char)
    requires d < 10
    ensures '0' <= c <= '9'
  {
    "0123456789"[d]
  }

  /** Decimal rendering of a natural number, as in `${n}`. */
  function NatToString(n: nat): (s: string)
    ensures |s| >= 1
    ensures forall i :: 0 <= i < |s| ==> '0' <= s[i] <= '9'
  {
    if n < 10 then [DigitChar(n)] else NatToString(n / 10) + [DigitChar(n % 10)]
  }

  /** Rendering of an integer-valued JavaScript number, as in `${i}`. */
  function IntToString(i: int): (s: string)
    ensures |s| >= 1
  {
    if i < 0 then "-" + NatToString(-i) else NatToString(i)
  }

  /** The value of `c` as a digit in `radix` (10 or 16), if it is one. */
  function DigitValue(c: char, radix: nat): (v: Option<nat>)
    ensures v.Some? ==> v.value < radix
  {
    if '0' <= c <= '9' && (c as int - '0' as int) < radix then Some(c as int - '0' as int)
    else if 'a' <= c <= 'f' && radix == 16 then Some(c as int - 'a' as int + 10)
    else if 'A' <= c <= 'F' && radix == 16 then Some(c as int - 'A' as int + 10)
    else None
  }

  /** Length of the longest prefix of `s` made of `radix` digits. */
  function DigitRun(s: string, radix: nat): (k: nat)
    ensures k <= |s|
    ensures forall i :: 0 <= i < k ==> DigitValue(s[i], radix).Some?
    ensures k < |s| ==> DigitValue(s[k], radix).None?
  {
    if s != [] && DigitValue(s[0], radix).Some? then 1 + DigitRun(s[1..], radix) else 0
  }

  /** The value of a string of digits, most significant first. */
  function DigitsValue(ds: string, radix: nat): nat
    requires forall i :: 0 <= i < |ds| ==> DigitValue(ds[i], radix).Some?
  {
    if ds == [] then 0
    else DigitsValue(ds[..|ds| - 1], radix) * radix + DigitValue(ds[|ds| - 1], radix).value
  }

  /** The unsigned part of `parseInt`: base 16 after `0x`/`0X`, base 10
      otherwise, then the longest run of digits; no digit at all is `NaN`. */
  function ParseMagnitude(u: string): (r: Option<nat>)
    ensures r.None? <==> (if StartsHex(u) then DigitRun(u[2..], 16) else DigitRun(u, 10)) == 0
  {
    var radix := if StartsHex(u) then 16 else 10;
    var body := if StartsHex(u) then u[2..] else u;
    var k := DigitRun(body, radix);
    if k == 0 then None
    else
      assert forall i :: 0 <= i < k ==> body[..k][i] == body[i];
      Some(DigitsValue(body[..k], radix))
  }

  predicate StartsHex(u: string) {
    |u| >= 2 && u[0] == '0' && (u[1] == 'x' || u[1] == 'X')
  }

  /** JavaScript's `parseInt(s)` with no radix: skip leading white space, take
      an optional sign, then read the magnitude; `NaN` is `None`. Precision
      loss above 2^53 and the sign of `-0` are not modelled. */
  function ParseInt(s: string): Option<int> {
    ParseSigned(TrimStart(s))
  }

  /** `parseInt` on text with no leading white space. */
  function ParseSigned(t: string): Option<int> {
    var negative := |t| > 0 && t[0] == '-';
    var u := if |t| > 0 && (t[0] == '-' || t[0] == '+') then t[1..] else t;
    match ParseMagnitude(u)
    case None => None
    case Some(m) => Some(if negative then 0 - m else m)
  }

  lemma {:induction false} NatToStringValue(n: nat)
    ensures forall i :: 0 <= i < |NatToString(n)| ==> DigitValue(NatToString(n)[i], 10).Some?
    ensures DigitsValue(NatToString(n), 10) == n
  {
    var s := NatToString(n);
    if n >= 10 {
      NatToStringValue(n / 10);
      assert s[..|s| - 1] == NatToString(n / 10);
    }
  }

  lemma {:induction false} NatToStringLeadingDigit(n: nat)
    ensures n >= 10 ==> NatToString(n)[0] != '0'
    ensures n < 10 ==> |NatToString(n)| == 1
  {
    if n >= 10 {
      NatToStringLeadingDigit(n / 10);
      assert NatToString(n)[0] == NatToString(n / 10)[0];
    }
  }

  lemma {:induction false} DigitRunOfDigits(s: string, radix: nat)
    requires forall i :: 0 <= i < |s| ==> DigitValue(s[i], radix).Some?
    ensures DigitRun(s, radix) == |s|
  {
    if s != [] {
      assert forall i :: 0 <= i < |s| - 1 ==> s[1..][i] == s[i + 1];
      DigitRunOfDigits(s[1..], radix);
    }
  }

  /** A rendered natural number reads back as itself. */
  lemma ParseMagnitudeOfNatToString(n: nat)
    ensures ParseMagnitude(NatToString(n)) == Some(n)
  {
    var digits := NatToString(n);
    NatToStringValue(n);
    NatToStringLeadingDigit(n);
    assert !StartsHex(digits);
    DigitRunOfDigits(digits, 10);
    assert digits[..|digits|] == digits;
  }

  lemma TrimStartKeeps(s: string)
    requires s != [] && !IsWhite(s[0])
    ensures TrimStart(s) == s
  {
  }

  /** A run of digits that reads as `m`, with or without a leading minus. */
  lemma ParseIntOfDigits(digits: string, m: nat)
    requires digits != [] && '0' <= digits[0] <= '9'
    requires ParseMagnitude(digits) == Some(m)
    ensures ParseInt(digits) == Some(m)
    ensures ParseInt("-" + digits) == Some(0 - m)
  {
    ParseIntOfUnsigned(digits, m);
    ParseIntOfSigned(digits, m);
  }

  lemma ParseIntOfUnsigned(digits: string, m: nat)
    requires digits != [] && '0' <= digits[0] <= '9'
    requires ParseMagnitude(digits) == Some(m)
    ensures ParseInt(digits) == Some(m)
  {
    TrimStartKeeps(digits);
    assert TrimStart(digits) == digits;
  }

  lemma ParseIntOfSigned(digits: string, m: nat)
    requires ParseMagnitude(digits) == Some(m)
    ensures ParseInt("-" + digits) == Some(0 - m)
  {
    var s := "-" + digits;
    TrimStartKeeps(s);
    var t := TrimStart(s);
    assert t == s;
    assert t[1..] == digits;
  }

  /** Leading white space is skipped whatever follows it. */
  lemma {:induction false} TrimStartOfWhite(w: string, s: string)
    requires forall i :: 0 <= i < |w| ==> IsWhite(w[i])
    ensures TrimStart(w + s) == TrimStart(s)
    decreases |w|
  {
    if w == [] {
      assert w + s == s;
    } else {
      assert (w + s)[1..] == w[1..] + s;
      TrimStartOfWhite(w[1..], s);
    }
  }

  /** A run of digits ends where the text following it does not start with one. */
  lemma {:induction false} DigitRunStops(digits: string, rest: string, radix: nat)
    requires forall i :: 0 <= i < |digits| ==> DigitValue(digits[i], radix).Some?
    requires rest == [] || DigitValue(rest[0], radix).None?
    ensures DigitRun(digits + rest, radix) == |digits|
    decreases |digits|
  {
    if digits == [] {
      assert digits + rest == rest;
    } else {
      assert (digits + rest)[1..] == digits[1..] + rest;
      DigitRunStops(digits[1..], rest, radix);
    }
  }

  /** The digits of a positive number, whatever follows them that is not a digit. */
  lemma ParseMagnitudeOfNatToStringThen(n: nat, rest: string)
    requires n >= 1
    requires rest == [] || DigitValue(rest[0], 10).None?
    ensures ParseMagnitude(NatToString(n) + rest) == Some(n)
  {
    var digits := NatToString(n);
    var u := digits + rest;
    NatToStringValue(n);
    NatToStringLeadingDigit(n);
    assert u[0] == digits[0] != '0';
    assert !StartsHex(u);
    DigitRunStops(digits, rest, 10);
    assert u[..|digits|] == digits;
  }

  /** `parseInt` is lenient: leading white space, a `+` sign and whatever
      follows the digits do not change a positive number it reads. */
  lemma ParseIntOfPadded(w: string, sign: string, n: nat, rest: string)
    requires forall i :: 0 <= i < |w| ==> IsWhite(w[i])
    requires sign == "" || sign == "+"
    requires n >= 1
    requires rest == [] || DigitValue(rest[0], 10).None?
    ensures ParseInt(w + sign + NatToString(n) + rest) == Some(n)
  {
    var u := NatToString(n) + rest;
    AppendAssoc(w + sign, NatToString(n), rest);
    AppendAssoc(w, sign, u);
    assert ParseInt(w + (sign + u)) == Some(n) by {
      ParseMagnitudeOfNatToStringThen(n, rest);
      ParseIntAfterSign(w, sign, u, n);
    }
  }

  /** `parseInt` skips leading white space and an optional `+` sign before
      the digits it reads. */
  lemma ParseIntAfterSign(w: string, sign: string, u: string, n: nat)
    requires forall i :: 0 <= i < |w| ==> IsWhite(w[i])
    requires sign == "" || sign == "+"
    requires u != [] && '0' <= u[0] <= '9'
    requires ParseMagnitude(u) == Some(n)
    ensures ParseInt(w + (sign + u)) == Some(n)
  {
    var t := sign + u;
    assert TrimStart(t) == t && TrimStart(w + t) == t by {
      TrimStartOfWhite(w, t);
      TrimStartKeeps(t);
    }
    assert ParseInt(t) == Some(n) by {
      if sign == "+" {
        ParseIntOfPlus(u, n);
      } else {
        assert t == u;
        ParseIntOfUnsigned(u, n);
      }
    }
    ParseIntOfTrimmed(w + t, t);
  }

  /** `parseInt` reads only what is left after the leading white space. */
  lemma ParseIntOfTrimmed(s: string, t: string)
    requires TrimStart(s) == t && TrimStart(t) == t
    ensures ParseInt(s) == ParseInt(t)
  {
  }

  lemma ParseIntOfPlus(digits: string, m: nat)
    requires ParseMagnitude(digits) == Some(m)
    ensures ParseInt("+" + digits) == Some(m)
  {
    var s := "+" + digits;
    TrimStartKeeps(s);
    var t := TrimStart(s);
    assert t == s;
    assert t[1..] == digits;
  }

  /** Reading back a rendered number gives the number: `parseInt(`${i}`) == i`. */
  lemma ParseIntOfIntToString(i: int)
    ensures ParseInt(IntToString(i)) == Some(i)
  {
    var m: nat := if i < 0 then -i else i;
    ParseMagnitudeOfNatToString(m);
    ParseIntOfDigits(NatToString(m), m);
  }
}
