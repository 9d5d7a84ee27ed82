/**
 * Shared vocabulary for the e-invoicing model: optional values and results,
 * the handful of Python string operations the core relies on (strip, upper,
 * isdigit, join, split, endswith), decimal rendering of integers, monetary
 * amounts held as integer cents, half-up rounding of exact decimals, and
 * calendar dates rendered as YYYY-MM-DD (ISO 8601 calendar date).
 */
module Common {

  datatype Option<+T> = None | Some(value: T)

  datatype Result<+T, +E> = Success(value: T) | Failure(error: E)

  /** Python truthiness of an optional string: absent, None and "" are falsy. */
  predicate Truthy(o: Option<string>) {
    o.Some? && o.value != ""
  }

  /** Python truthiness of an optional number held in cents: absent and 0 are falsy. */
  predicate TruthyNum(o: Option<int>) {
    o.Some? && o.value != 0
  }

  /** `d.get(key, default)` for a string-valued key. */
  function GetOr(o: Option<string>, default: string): (r: string)
    ensures o.None? ==> r == default
    ensures o.Some? ==> r == o.value
  {
    match o
    case None => default
    case Some(v) => v
  }

  /** `d.get(key, default)` for a numeric key. */
  function GetOrInt(o: Option<int>, default: int): int {
    if o.Some? then o.value else default
  }

  // ---------------------------------------------------------------- characters

  predicate IsDigit(c: char) { '0' <= c <= '9' }

  predicate AllDigits(s: string) {
    forall i :: 0 <= i < |s| ==> IsDigit(s[i])
  }

  /** The characters Python's `str.strip()` removes, restricted to Latin-1. */
  predicate IsSpace(c: char) {
    c == ' ' || c == '\t' || c == '\n' || c == '\r' || c == 11 as char || c == 12 as char
    || (28 as char <= c <= 31 as char) || c == 133 as char || c == 160 as char
  }

  function DigitChar(d: nat): (c: char)
    requires d < 10
    ensures IsDigit(c)
  {
    (48 + d) as char
  }

  function DigitValue(c: char): (d: nat)
    requires IsDigit(c)
    ensures d < 10 && DigitChar(d) == c
  {
    c as int - 48
  }

  /** ASCII upper-casing of one character. */
  function UpperChar(c: char): (u: char)
    ensures 'a' <= c <= 'z' ==> u as int == c as int - 32
    ensures !('a' <= c <= 'z') ==> u == c
  {
    if 'a' <= c <= 'z' then (c as int - 32) as char else c
  }

  /** `s.upper()` on ASCII letters. */
  function Upper(s: string): (r: string)
    ensures |r| == |s|
    ensures forall i :: 0 <= i < |s| ==> r[i] == UpperChar(s[i])
  {
    if s == [] then [] else [UpperChar(s[0])] + Upper(s[1..])
  }

  /** ASCII lower-casing of one character. */
  function LowerChar(c: char): (l: char)
    ensures 'A' <= c <= 'Z' ==> l as int == c as int + 32
    ensures !('A' <= c <= 'Z') ==> l == c
  {
    if 'A' <= c <= 'Z' then (c as int + 32) as char else c
  }

  /** `s.lower()` on ASCII letters. */
  function Lower(s: string): (r: string)
    ensures |r| == |s|
    ensures forall i :: 0 <= i < |s| ==> r[i] == LowerChar(s[i])
  {
    if s == [] then [] else [LowerChar(s[0])] + Lower(s[1..])
  }

  // ---------------------------------------------------------------- substrings

  predicate StartsWith(s: string, prefix: string) {
    |prefix| <= |s| && s[..|prefix|] == prefix
  }

  predicate EndsWith(s: string, suffix: string) {
    |suffix| <= |s| && s[|s| - |suffix|..] == suffix
  }

  /** `sub` occurs in `s` starting at index `i`. */
  predicate InfixAt(s: string, sub: string, i: int) {
    0 <= i && i + |sub| <= |s| && s[i..i + |sub|] == sub
  }

  /** `sub in s` */
  predicate Contains(s: string, sub: string) {
    exists i | 0 <= i <= |s| - |sub| :: InfixAt(s, sub, i)
  }

  predicate ContainsChar(s: string, c: char) {
    exists i | 0 <= i < |s| :: s[i] == c
  }

  /** `s.rstrip()` with the default whitespace set. */
  function TrimEnd(s: string): (r: string)
    ensures |r| <= |s| && r == s[..|r|]
    ensures r == [] || !IsSpace(r[|r| - 1])
    ensures forall k :: |r| <= k < |s| ==> IsSpace(s[k])
  {
    if s == [] || !IsSpace(s[|s| - 1]) then s else TrimEnd(s[..|s| - 1])
  }

  /** `s.lstrip()` with the default whitespace set. */
  function TrimStart(s: string): (r: string)
    ensures |r| <= |s| && r == s[|s| - |r|..]
    ensures r == [] || !IsSpace(r[0])
    ensures forall k :: 0 <= k < |s| - |r| ==> IsSpace(s[k])
  {
    if s == [] || !IsSpace(s[0]) then s else TrimStart(s[1..])
  }

  /** `s.strip()` */
  function Strip(s: string): (r: string)
    ensures |r| <= |s|
    ensures r == [] || (!IsSpace(r[0]) && !IsSpace(r[|r| - 1]))
  {
    TrimStart(TrimEnd(s))
  }

  /** Stripping keeps a contiguous piece of the text. */
  lemma StripInfix(s: string)
    ensures exists i :: InfixAt(s, Strip(s), i)
  {
    var e := TrimEnd(s);
    var r := TrimStart(e);
    assert r == Strip(s);
    var i := |e| - |r|;
    assert s[i..i + |r|] == e[i..] == r;
    assert InfixAt(s, r, i);
  }

  /** `s.replace(' ', '')` */
  function RemoveSpaces(s: string): (r: string)
    ensures |r| <= |s|
    ensures forall i :: 0 <= i < |r| ==> r[i] != ' '
  {
    if s == [] then [] else (if s[0] == ' ' then [] else [s[0]]) + RemoveSpaces(s[1..])
  }

  // ---------------------------------------------------------------- join and split

  /** `sep.join(parts)` */
  function Join(sep: string, parts: seq<string>): (r: string)
    ensures parts == [] ==> r == []
    ensures |parts| == 1 ==> r == parts[0]
  {
    if parts == [] then [] else if |parts| == 1 then parts[0] else parts[0] + sep + Join(sep, parts[1..])
  }

  /** Index of the first occurrence of `c` in `s`, or |s| when there is none. */
  function IndexOf(s: string, c: char): (k: nat)
    ensures k <= |s|
    ensures forall i :: 0 <= i < k ==> s[i] != c
    ensures k < |s| ==> s[k] == c
  {
    if s == [] then 0 else if s[0] == c then 0 else 1 + IndexOf(s[1..], c)
  }

  /** `s.split(c)` for a one-character separator. */
  function Split(s: string, c: char): (parts: seq<string>)
    ensures |parts| >= 1
    ensures forall p :: p in parts ==> !ContainsChar(p, c)
    decreases |s|
  {
    var k := IndexOf(s, c);
    if k == |s| then [s] else [s[..k]] + Split(s[k + 1..], c)
  }

  lemma {:induction false} IndexOfPrefix(p: string, rest: string, c: char)
    requires !ContainsChar(p, c)
    ensures IndexOf(p + [c] + rest, c) == |p|
    decreases |p|
  {
    if p != [] {
      assert (p + [c] + rest)[1..] == p[1..] + [c] + rest;
      assert !ContainsChar(p[1..], c) by {
        forall i | 0 <= i < |p[1..]| ensures p[1..][i] != c { assert p[1..][i] == p[i + 1]; }
      }
      IndexOfPrefix(p[1..], rest, c);
    }
  }

  lemma {:induction false} IndexOfAbsent(p: string, c: char)
    requires !ContainsChar(p, c)
    ensures IndexOf(p, c) == |p|
  {
  }

  /**
   * Splitting a one-character-separated join recovers the parts, provided no
   * part contains the separator: the join is then an unambiguous encoding.
   */
  lemma {:induction false} SplitJoin(parts: seq<string>, c: char)
    requires |parts| >= 1
    requires forall p :: p in parts ==> !ContainsChar(p, c)
    ensures Split(Join([c], parts), c) == parts
    decreases |parts|
  {
    if |parts| == 1 {
      IndexOfAbsent(parts[0], c);
    } else {
      var tail := Join([c], parts[1..]);
      assert Join([c], parts) == parts[0] + [c] + tail;
      SplitAtSeparator(parts[0], c, tail);
      SplitJoin(parts[1..], c);
      assert parts == [parts[0]] + parts[1..];
    }
  }

  /** A separator-free first part is split off at the first separator. */
  lemma SplitAtSeparator(p: string, c: char, tail: string)
    requires !ContainsChar(p, c)
    ensures Split(p + [c] + tail, c) == [p] + Split(tail, c)
  {
    var s := p + [c] + tail;
    IndexOfPrefix(p, tail, c);
    assert s[..|p|] == p;
    assert s[|p| + 1..] == tail;
  }

  /** Appending a separator and a separator-free last part adds exactly that part to the split. */
  lemma {:induction false} SplitAppend(s: string, c: char, last: string)
    requires !ContainsChar(last, c)
    ensures Split(s + [c] + last, c) == Split(s, c) + [last]
    decreases |s|
  {
    var k := IndexOf(s, c);
    if k == |s| {
      assert !ContainsChar(s, c);
      SplitAtSeparator(s, c, last);
      IndexOfAbsent(last, c);
    } else {
      var head, rest := s[..k], s[k + 1..];
      assert !ContainsChar(head, c);
      assert s + [c] + last == head + [c] + (rest + [c] + last);
      SplitAtSeparator(head, c, rest + [c] + last);
      SplitAppend(rest, c, last);
    }
  }

  // ---------------------------------------------------------------- integers as text

  /** `str(n)` for a natural number. */
  function NatToString(n: nat): (r: string)
    ensures |r| >= 1 && AllDigits(r)
    ensures r[0] == '0' ==> n == 0
    decreases n
  {
    if n < 10 then [DigitChar(n)] else NatToString(n / 10) + [DigitChar(n % 10)]
  }

  /** The number a string of decimal digits denotes. */
  function DigitsValue(s: string): nat
    requires AllDigits(s)
  {
    if s == [] then 0 else DigitsValue(s[..|s| - 1]) * 10 + DigitValue(s[|s| - 1])
  }

  lemma {:induction false} NatToStringRoundTrip(n: nat)
    ensures DigitsValue(NatToString(n)) == n
    decreases n
  {
    if n >= 10 {
      var r := NatToString(n);
      assert r[..|r| - 1] == NatToString(n / 10);
      NatToStringRoundTrip(n / 10);
    }
  }

  /** `str(i)` for any integer. */
  function IntToString(i: int): (r: string)
    ensures |r| >= 1
    ensures i < 0 <==> r[0] == '-'
  {
    if i < 0 then "-" + NatToString(-i) else NatToString(i)
  }

  /** A run of `z` zero digits. */
  function Zeros(z: nat): (r: string)
    ensures |r| == z
    ensures forall i :: 0 <= i < z ==> r[i] == '0'
  {
    seq(z, _ => '0')
  }

  /** Zero-padding of a number below 10^width to exactly `width` digits. */
  function PadNat(n: nat, width: nat): (r: string)
    ensures AllDigits(r)
    ensures |NatToString(n)| <= width ==> |r| == width
    ensures |NatToString(n)| > width ==> r == NatToString(n)
  {
    var s := NatToString(n);
    if |s| >= width then s else Zeros(width - |s|) + s
  }

  // ---------------------------------------------------------------- money

  /**
   * `Decimal.quantize(Decimal('0.01'), rounding=ROUND_HALF_UP)` of an exact
   * decimal, as a whole number of cents. Ties go away from zero.
   */
  function RoundHalfUpCents(x: real): (c: int)
    ensures x >= 0.0 ==> (c as real) - 0.5 <= x * 100.0 < (c as real) + 0.5
    ensures x < 0.0 ==> (c as real) - 0.5 < x * 100.0 <= (c as real) + 0.5
  {
    if x >= 0.0 then (x * 100.0 + 0.5).Floor else -((-x) * 100.0 + 0.5).Floor
  }

  /** The decimal a whole number of cents denotes. */
  function CentsToReal(c: int): real {
    (c as real) / 100.0
  }

  lemma {:induction false} RoundWholeCents(c: int)
    ensures RoundHalfUpCents(CentsToReal(c)) == c
  {
    var x := CentsToReal(c);
    assert x * 100.0 == c as real;
  }

  /** Rounding half away from zero is an odd function. */
  lemma {:induction false} RoundHalfUpOdd(x: real)
    ensures RoundHalfUpCents(-x) == -RoundHalfUpCents(x)
  {
    if x > 0.0 {
      assert -x < 0.0;
    } else if x < 0.0 {
      assert -x > 0.0;
    }
  }

  /** A value whose cent count lies exactly halfway between two whole cents. */
  predicate HalfCentTie(x: real) {
    (x * 100.0 + 0.5).Floor as real == x * 100.0 + 0.5
  }

  /** Away from a tie, half-up rounding lands strictly within half a cent. */
  lemma RoundStrict(x: real)
    requires !HalfCentTie(x)
    ensures (RoundHalfUpCents(x) as real) - 0.5 < x * 100.0 < (RoundHalfUpCents(x) as real) + 0.5
  {
    var t := x * 100.0 + 0.5;
    if x < 0.0 {
      var u := (-x) * 100.0 + 0.5;
      assert u == 1.0 - t;
    }
  }

  /** A value strictly within half a cent of `c` cents rounds to `c`. */
  lemma RoundNear(x: real, c: int)
    requires (c as real) - 0.5 < x * 100.0 < (c as real) + 0.5
    ensures RoundHalfUpCents(x) == c
  {
  }

  /**
   * Adding whole cents commutes with rounding when both parts have the same
   * sign: `round(k + v) == k + round(v)`.
   */
  lemma RoundShift(k: int, v: real)
    requires (k >= 0 && v >= 0.0) || (k <= 0 && v <= 0.0)
    ensures RoundHalfUpCents(CentsToReal(k) + v) == k + RoundHalfUpCents(v)
  {
    assert (CentsToReal(k) + v) * 100.0 == k as real + v * 100.0;
  }

  /** When two values add up to whole cents, one sits at a tie iff the other does. */
  lemma TieComplement(x: real, y: real, n: int)
    requires x * 100.0 + y * 100.0 == n as real
    ensures HalfCentTie(x) <==> HalfCentTie(y)
  {
    var a, b := x * 100.0, y * 100.0;
    if HalfCentTie(y) {
      WholeShift(a, b, n);
    }
    if HalfCentTie(x) {
      WholeShift(b, a, n);
    }
  }

  /** If `b + 0.5` is whole and `a + b` is whole, then `a + 0.5` is whole. */
  lemma WholeShift(a: real, b: real, n: int)
    requires a + b == n as real
    requires (b + 0.5).Floor as real == b + 0.5
    ensures (a + 0.5).Floor as real == a + 0.5
  {
    var m := (b + 0.5).Floor;
    assert a + 0.5 == (n + 1 - m) as real;
  }

  /**
   * Two values that add up to a whole number of cents, neither at a tie,
   * round to parts that add up to the same number of cents.
   */
  lemma RoundComplement(x: real, y: real, n: int)
    requires x * 100.0 + y * 100.0 == n as real
    requires !HalfCentTie(x)
    ensures RoundHalfUpCents(x) + RoundHalfUpCents(y) == n
  {
    TieComplement(x, y, n);
    RoundStrict(x);
    RoundStrict(y);
  }

  /** Whole units, a point and exactly two digits, for a non-negative amount in cents. */
  function FormatUnsignedCents(a: nat): string {
    NatToString(a / 100) + "." + [DigitChar((a % 100) / 10), DigitChar(a % 10)]
  }

  lemma FormatUnsignedCentsShape(a: nat)
    ensures var r := FormatUnsignedCents(a);
      |r| >= 4 && r[|r| - 3] == '.' && r[0] != '-' && IsDigit(r[|r| - 2]) && IsDigit(r[|r| - 1])
      && r[..|r| - 3] == NatToString(a / 100)
  {
    var r := FormatUnsignedCents(a);
    assert r[..|r| - 3] == NatToString(a / 100);
  }

  /**
   * `f"{amount:.2f}"` of an amount held in cents: an optional minus sign,
   * the whole units, a point and exactly two digits.
   */
  function FormatCents(c: int): string {
    if c < 0 then "-" + FormatUnsignedCents(-c) else FormatUnsignedCents(c)
  }

  /** Reads back a string produced by `FormatUnsignedCents`. */
  function ParseUnsignedCents(s: string): Option<int> {
    if |s| < 4 || s[|s| - 3] != '.' || !IsDigit(s[|s| - 2]) || !IsDigit(s[|s| - 1]) || !AllDigits(s[..|s| - 3]) then None
    else Some(DigitsValue(s[..|s| - 3]) * 100 + DigitValue(s[|s| - 2]) * 10 + DigitValue(s[|s| - 1]))
  }

  /** Reads back a string produced by `FormatCents`. */
  function ParseCents(s: string): Option<int> {
    if |s| >= 1 && s[0] == '-' then
      match ParseUnsignedCents(s[1..])
      case None => None
      case Some(a) => Some(-a)
    else
      match ParseUnsignedCents(s)
      case None => None
      case Some(a) => Some(a)
  }

  lemma FormatUnsignedCentsRoundTrip(a: nat)
    ensures ParseUnsignedCents(FormatUnsignedCents(a)) == Some(a)
  {
    ParsesBack(FormatUnsignedCents(a), a);
  }

  lemma ParsesBack(r: string, a: nat)
    requires r == FormatUnsignedCents(a)
    ensures ParseUnsignedCents(r) == Some(a)
  {
    FormatUnsignedCentsShape(a);
    NatToStringRoundTrip(a / 100);
    var w, t, u := DigitsValue(r[..|r| - 3]), DigitValue(r[|r| - 2]), DigitValue(r[|r| - 1]);
    assert w == a / 100;
    assert t == (a % 100) / 10 && u == a % 10;
    assert ParseUnsignedCents(r) == Some(w * 100 + t * 10 + u);
    CentsDigits(a);
  }

  /** The cents of an amount are its whole units, its tenths digit and its hundredths digit. */
  lemma CentsDigits(a: nat)
    ensures (a / 100) * 100 + ((a % 100) / 10) * 10 + a % 10 == a
  {
    var q, r := a / 100, a % 100;
    assert a == q * 100 + r && 0 <= r < 100;
    var t, u := r / 10, r % 10;
    assert r == t * 10 + u && 0 <= u < 10;
    assert a == (q * 10 + t) * 10 + u;
    assert a % 10 == u;
  }

  /** Two-decimal rendering loses nothing: the cents can be read back. */
  lemma FormatCentsRoundTrip(c: int)
    ensures ParseCents(FormatCents(c)) == Some(c)
  {
    var s := FormatCents(c);
    if c < 0 {
      assert s[0] == '-' && s[1..] == FormatUnsignedCents(-c);
      ParsesBack(s[1..], -c);
    } else {
      FormatUnsignedCentsShape(c);
      FormatUnsignedCentsRoundTrip(c);
    }
  }

  /**
   * Python's `repr` of the float whose value is `c` cents: at least one and at
   * most two fraction digits, trailing zero dropped ("1050.0", "12.5", "0.05").
   */
  function FloatReprOfCents(c: int): (r: string)
    ensures |r| >= 3
    ensures c < 0 <==> r[0] == '-'
  {
    var a := if c < 0 then -c else c;
    var frac := if a % 10 == 0 then [DigitChar((a % 100) / 10)] else [DigitChar((a % 100) / 10), DigitChar(a % 10)];
    (if c < 0 then "-" else "") + NatToString(a / 100) + "." + frac
  }

  // ---------------------------------------------------------------- bytes as hex

  type Byte = b: int | 0 <= b < 256

  predicate IsLowerHex(c: char) { IsDigit(c) || 'a' <= c <= 'f' }

  function HexChar(d: nat): (c: char)
    requires d < 16
    ensures IsLowerHex(c)
  {
    if d < 10 then DigitChar(d) else (87 + d) as char
  }

  function HexValue(c: char): (d: nat)
    requires IsLowerHex(c)
    ensures d < 16 && HexChar(d) == c
  {
    if IsDigit(c) then DigitValue(c) else c as int - 87
  }

  /** `hexdigest()`: two lower-case hex digits per byte, high nibble first. */
  function HexDigest(b: seq<Byte>): (r: string)
    ensures |r| == 2 * |b|
    ensures forall i :: 0 <= i < |r| ==> IsLowerHex(r[i])
  {
    if b == [] then [] else [HexChar(b[0] / 16), HexChar(b[0] % 16)] + HexDigest(b[1..])
  }

  /** Reads a string of lower-case hex digit pairs back into bytes. */
  function HexDecode(s: string): seq<Byte>
    requires |s| % 2 == 0
    requires forall i :: 0 <= i < |s| ==> IsLowerHex(s[i])
  {
    if s == [] then [] else [HexValue(s[0]) * 16 + HexValue(s[1])] + HexDecode(s[2..])
  }

  /** The hex rendering of a digest loses nothing. */
  lemma {:induction false} HexRoundTrip(b: seq<Byte>)
    ensures HexDecode(HexDigest(b)) == b
  {
    if b != [] {
      var r := HexDigest(b);
      assert r[2..] == HexDigest(b[1..]);
      HexRoundTrip(b[1..]);
    }
  }

  // ---------------------------------------------------------------- dates

  datatype DateRec = DateRec(year: nat, month: nat, day: nat)

  predicate ValidDate(d: DateRec) {
    1 <= d.year <= 9999 && 1 <= d.month <= 12 && 1 <= d.day <= 31
  }

  /** A calendar date as Python's `date` holds it. */
  type Date = d: DateRec | ValidDate(d) witness DateRec(2000, 1, 1)

  /** `date.strftime('%Y-%m-%d')` */
  function FormatYmd(d: Date): (r: string)
    ensures |r| == 10 && r[4] == '-' && r[7] == '-'
    ensures AllDigits(r[..4]) && AllDigits(r[5..7]) && AllDigits(r[8..])
  {
    NatToStringShort(d.year, 4);
    NatToStringShort(d.month, 2);
    NatToStringShort(d.day, 2);
    var y := PadNat(d.year, 4);
    var m := PadNat(d.month, 2);
    var dd := PadNat(d.day, 2);
    var r := y + "-" + m + "-" + dd;
    assert r[..4] == y && r[5..7] == m && r[8..] == dd;
    r
  }

  /** Reads a YYYY-MM-DD string back into a date. */
  function ParseYmd(s: string): Option<DateRec> {
    if |s| != 10 || s[4] != '-' || s[7] != '-' || !AllDigits(s[..4]) || !AllDigits(s[5..7]) || !AllDigits(s[8..])
    then None
    else Some(DateRec(DigitsValue(s[..4]), DigitsValue(s[5..7]), DigitsValue(s[8..])))
  }

  lemma {:induction false} DigitsValueLeadingZeros(z: nat, s: string)
    requires AllDigits(s)
    ensures AllDigits(Zeros(z) + s)
    ensures DigitsValue(Zeros(z) + s) == DigitsValue(s)
    decreases |s|
  {
    var t := Zeros(z) + s;
    if s == [] {
      assert t == Zeros(z);
      ZerosValue(z);
    } else {
      assert t[..|t| - 1] == Zeros(z) + s[..|s| - 1];
      DigitsValueLeadingZeros(z, s[..|s| - 1]);
    }
  }

  lemma {:induction false} ZerosValue(z: nat)
    ensures AllDigits(Zeros(z))
    ensures DigitsValue(Zeros(z)) == 0
  {
    if z > 0 {
      assert Zeros(z)[..z - 1] == Zeros(z - 1);
      ZerosValue(z - 1);
    }
  }

  lemma {:induction false} PadNatValue(n: nat, width: nat)
    ensures DigitsValue(PadNat(n, width)) == n
  {
    var s := NatToString(n);
    NatToStringRoundTrip(n);
    if |s| < width {
      PadZerosValue(width - |s|, s, PadNat(n, width));
    }
  }

  lemma PadZerosValue(z: nat, s: string, r: string)
    requires AllDigits(s) && r == Zeros(z) + s
    ensures AllDigits(r) && DigitsValue(r) == DigitsValue(s)
  {
    DigitsValueLeadingZeros(z, s);
  }

  function Pow10(k: nat): (p: nat)
    ensures p >= 1
  {
    if k == 0 then 1 else 10 * Pow10(k - 1)
  }

  lemma {:induction false} NatToStringShort(n: nat, width: nat)
    requires width >= 1 && n < Pow10(width)
    ensures |NatToString(n)| <= width
  {
    if n >= 10 {
      NatToStringShort(n / 10, width - 1);
    }
  }

  /** Rendering a date as YYYY-MM-DD is lossless. */
  lemma {:induction false} FormatYmdRoundTrip(d: Date)
    ensures ParseYmd(FormatYmd(d)) == Some(d)
  {
    var r := FormatYmd(d);
    NatToStringShort(d.year, 4);
    NatToStringShort(d.month, 2);
    NatToStringShort(d.day, 2);
    assert r[..4] == PadNat(d.year, 4);
    assert r[5..7] == PadNat(d.month, 2);
    assert r[8..] == PadNat(d.day, 2);
    PadNatValue(d.year, 4);
    PadNatValue(d.month, 2);
    PadNatValue(d.day, 2);
  }

  // ---------------------------------------------------------------- rendering lists

  /**
   * Renders each element of a list in order and concatenates the pieces; a
   * failing element (a missing key) stops the rendering with its error.
   */
  function RenderAll<T, C>(xs: seq<T>, ctx: C, render: (T, C) -> Result<string, string>): Result<string, string> {
    if xs == [] then Success("")
    else
      match RenderAll(xs[..|xs| - 1], ctx, render)
      case Failure(k) => Failure(k)
      case Success(prefix) =>
        match render(xs[|xs| - 1], ctx)
        case Failure(k) => Failure(k)
        case Success(last) => Success(prefix + last)
  }

  lemma AppendAssoc<T>(a: seq<T>, b: seq<T>, c: seq<T>)
    ensures a + (b + c) == (a + b) + c
  {
  }

  /** A concatenation of three parts starts with the first and ends with the last. */
  lemma ConcatEnds(a: string, b: string, c: string)
    ensures StartsWith(a + b + c, a) && EndsWith(a + b + c, c)
  {
    assert (a + b + c)[..|a|] == a;
    assert (a + b + c)[|a + b + c| - |c|..] == c;
  }

  /** Rendering one more element appends its piece. */
  lemma RenderAllStep<T, C>(xs: seq<T>, i: nat, ctx: C, render: (T, C) -> Result<string, string>)
    requires i < |xs| && RenderAll(xs[..i], ctx, render).Success?
    ensures render(xs[i], ctx).Failure? ==> RenderAll(xs[..i + 1], ctx, render) == Failure(render(xs[i], ctx).error)
    ensures render(xs[i], ctx).Success? ==>
      RenderAll(xs[..i + 1], ctx, render) == Success(RenderAll(xs[..i], ctx, render).value + render(xs[i], ctx).value)
  {
    assert xs[..i + 1][..i] == xs[..i];
  }

  /** Once a prefix fails, the whole list fails with the same error. */
  lemma {:induction false} RenderAllFailureExtends<T, C>(xs: seq<T>, n: nat, ctx: C, render: (T, C) -> Result<string, string>)
    requires n <= |xs| && RenderAll(xs[..n], ctx, render).Failure?
    ensures RenderAll(xs, ctx, render) == RenderAll(xs[..n], ctx, render)
    decreases |xs| - n
  {
    if n < |xs| {
      assert xs[..n + 1][..n] == xs[..n];
      RenderAllFailureExtends(xs, n + 1, ctx, render);
    } else {
      assert xs[..n] == xs;
    }
  }

  /** Rendering is a homomorphism: the pieces of a concatenated list come in list order. */
  lemma {:induction false} RenderAllConcat<T, C>(a: seq<T>, b: seq<T>, ctx: C, render: (T, C) -> Result<string, string>)
    requires RenderAll(a, ctx, render).Success? && RenderAll(b, ctx, render).Success?
    ensures RenderAll(a + b, ctx, render) == Success(RenderAll(a, ctx, render).value + RenderAll(b, ctx, render).value)
    decreases |b|
  {
    if b == [] {
      assert a + b == a;
      assert RenderAll(a, ctx, render).value + "" == RenderAll(a, ctx, render).value;
    } else {
      var b0 := b[..|b| - 1];
      assert (a + b)[..|a + b| - 1] == a + b0;
      assert (a + b)[|a + b| - 1] == b[|b| - 1];
      var rb0 := RenderAll(b0, ctx, render);
      var rl := render(b[|b| - 1], ctx);
      assert rb0.Success? && rl.Success?;
      RenderAllConcat(a, b0, ctx, render);
      AppendAssoc(RenderAll(a, ctx, render).value, rb0.value, rl.value);
    }
  }

  /**
   * Appends the rendering of every element to `xml`, one element per
   * iteration, stopping at the first element that fails.
   */
  method AppendRendered<T, C>(xml: string, xs: seq<T>, ctx: C, render: (T, C) -> Result<string, string>)
    returns (r: Result<string, string>)
    ensures RenderAll(xs, ctx, render).Failure? ==> r == RenderAll(xs, ctx, render)
    ensures RenderAll(xs, ctx, render).Success? ==> r == Success(xml + RenderAll(xs, ctx, render).value)
  {
    var acc := xml;
    for i := 0 to |xs|
      invariant RenderAll(xs[..i], ctx, render).Success?
      invariant acc == xml + RenderAll(xs[..i], ctx, render).value
    {
      var piece := render(xs[i], ctx);
      RenderAllStep(xs, i, ctx, render);
      if piece.Failure? {
        RenderAllFailureExtends(xs, i + 1, ctx, render);
        return Failure(piece.error);
      }
      AppendAssoc(xml, RenderAll(xs[..i], ctx, render).value, piece.value);
      acc := acc + piece.value;
    }
    assert xs[..|xs|] == xs;
    return Success(acc);
  }

  lemma PrefixConcat(a: string, b: string)
    ensures StartsWith(a + b, a)
  {
    assert (a + b)[..|a|] == a;
  }

  /** A one-element list renders as that element. */
  lemma RenderAllSingle<T, C>(x: T, ctx: C, render: (T, C) -> Result<string, string>)
    ensures RenderAll([x], ctx, render) == (match render(x, ctx) case Success(v) => Success("" + v) case Failure(k) => Failure(k))
  {
    assert [x][..0] == [];
  }

  /**
   * The rendering succeeds exactly when every element renders, and a failure
   * is the error of the first element that does not.
   */
  lemma {:induction false} RenderAllSucceeds<T, C>(xs: seq<T>, ctx: C, render: (T, C) -> Result<string, string>)
    ensures RenderAll(xs, ctx, render).Success? <==> forall i :: 0 <= i < |xs| ==> render(xs[i], ctx).Success?
    ensures RenderAll(xs, ctx, render).Failure? ==>
      exists i :: 0 <= i < |xs| && render(xs[i], ctx) == RenderAll(xs, ctx, render)
        && forall j :: 0 <= j < i ==> render(xs[j], ctx).Success?
    decreases |xs|
  {
    if xs != [] {
      var p := xs[..|xs| - 1];
      RenderAllSucceeds(p, ctx, render);
      assert forall i :: 0 <= i < |p| ==> p[i] == xs[i];
    }
  }
}
