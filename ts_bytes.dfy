// src/structures/bytes.ts: fixed-width big-endian encoders and the
// dotted-quad <-> number conversions of IPv4 addresses.

module TsBytes {
  import opened Wire
  import opened NodeBuffer

  /** `char(num)`: one byte; throws outside 0..255. */
  function Char(num: int): (r: Outcome<bytes>)
    ensures r.Ok? <==> 0 <= num < 0x100
    ensures r.Ok? ==> r.value == [num]
  {
    WriteUInt8(num)
  }

  /** `word(num)`: two bytes, big-endian; throws outside 0..0xffff. */
  function Word(num: int): (r: Outcome<bytes>)
    ensures r.Ok? <==> 0 <= num < 0x1_0000
    ensures r.Ok? ==> |r.value| == 2 && Uint16At(r.value) == num
  {
    WriteUInt16(num)
  }

  /** `dword(num)`: four bytes, big-endian; throws outside 0..0xffff_ffff. */
  function Dword(num: int): (r: Outcome<bytes>)
    ensures r.Ok? <==> 0 <= num < 0x1_0000_0000
    ensures r.Ok? ==> |r.value| == 4 && Uint32At(r.value) == num
  {
    WriteUInt32(num)
  }

  /** `qword(num)` as written: an 8-byte buffer with `num` written as a
      32-bit big-endian value at offset 0, so the four zero bytes come last. */
  function Qword(num: int): (r: Outcome<bytes>)
    ensures r.Ok? <==> 0 <= num < 0x1_0000_0000
    ensures r.Ok? ==> |r.value| == 8 && Uint32At(r.value) == num && r.value[4..] == [0, 0, 0, 0]
  {
    Cat(WriteUInt32(num), Ok([0, 0, 0, 0]))
  }

  /** Read back as the 64-bit value its name promises, `qword(num)` is `num * 2^32`. */
  lemma QwordIsShifted(num: int)
    requires 0 <= num < 0x1_0000_0000
    ensures Uint64At(Qword(num).value) == num * 0x1_0000_0000
  {
    var b := Qword(num).value;
    assert b[4..] == [0, 0, 0, 0];
    assert Uint32At(b[4..]) == 0;
  }

  lemma QwordCounterexample()
    ensures Qword(1).Ok? && Uint64At(Qword(1).value) == 0x1_0000_0000
  {
    QwordIsShifted(1);
  }

  /** The evidently intended `qword`: the 32-bit value in the low half, so the
      eight bytes read back as `num`. */
  function QwordFixed(num: int): (r: Outcome<bytes>)
    ensures r.Ok? <==> 0 <= num < 0x1_0000_0000
    ensures r.Ok? ==> |r.value| == 8 && Uint64At(r.value) == num
  {
    var r := Cat(Ok([0, 0, 0, 0]), WriteUInt32(num));
    if r.Ok? then
      assert r.value[4..] == WriteUInt32(num).value;
      r
    else r
  }

  // ---- decimal text -------------------------------------------------------

  function Digit(k: nat): char
    requires k < 10
  {
    ('0' as int + k) as char
  }

  predicate IsDigits(s: string) {
    forall i :: 0 <= i < |s| ==> '0' <= s[i] <= '9'
  }

  /** A non-negative integer in decimal, without leading zeros. */
  function Dec(n: nat): (r: string)
    ensures |r| >= 1 && IsDigits(r)
  {
    if n < 10 then [Digit(n)] else Dec(n / 10) + [Digit(n % 10)]
  }

  /** String conversion of an integer (`'' + n`). */
  function IntString(n: int): string {
    if n < 0 then "-" + Dec(-n) else Dec(n)
  }

  /** `+s` for a string of decimal digits; the empty string converts to 0. */
  function ParseDec(s: string): nat
    requires IsDigits(s)
  {
    if s == [] then 0 else ParseDec(s[..|s| - 1]) * 10 + (s[|s| - 1] as int - '0' as int)
  }

  /** Digits as `Dec` writes them: at least one, and no leading zero. */
  predicate Canonical(s: string) {
    |s| >= 1 && IsDigits(s) && (|s| == 1 || s[0] != '0')
  }

  lemma {:induction false} ParseDecOfDec(n: nat)
    ensures ParseDec(Dec(n)) == n
  {
    if n >= 10 {
      var s := Dec(n);
      assert s[..|s| - 1] == Dec(n / 10);
      ParseDecOfDec(n / 10);
    }
  }

  lemma {:induction false} DecCanonical(n: nat)
    ensures Canonical(Dec(n))
  {
    if n >= 10 {
      DecCanonical(n / 10);
      assert Dec(n)[0] == Dec(n / 10)[0];
    }
  }

  lemma {:induction false} LeadingDigitPositive(s: string)
    requires Canonical(s) && s[0] != '0'
    ensures ParseDec(s) > 0
    decreases |s|
  {
    if |s| > 1 {
      var p := s[..|s| - 1];
      assert p[0] == s[0];
      LeadingDigitPositive(p);
    }
  }

  lemma {:induction false} DecOfParseDec(s: string)
    requires Canonical(s)
    ensures Dec(ParseDec(s)) == s
    decreases |s|
  {
    if |s| > 1 {
      var p := s[..|s| - 1];
      assert p[0] == s[0];
      LeadingDigitPositive(p);
      DecOfParseDec(p);
      var n := ParseDec(s);
      assert n / 10 == ParseDec(p) && n % 10 == s[|s| - 1] as int - '0' as int;
      assert s == p + [s[|s| - 1]];
    }
  }

  // ---- dotted quads -------------------------------------------------------

  /** `s.split('.')`. */
  function Split(s: string): (r: seq<string>)
    ensures |r| >= 1
  {
    if s == [] then [[]]
    else
      var rest := Split(s[1..]);
      if s[0] == '.' then [[]] + rest else [[s[0]] + rest[0]] + rest[1..]
  }

  predicate NoDot(s: string) {
    forall i :: 0 <= i < |s| ==> s[i] != '.'
  }

  /** Parts joined with dots. */
  function Join(ps: seq<string>): string
    requires |ps| >= 1
  {
    if |ps| == 1 then ps[0] else ps[0] + "." + Join(ps[1..])
  }

  lemma {:induction false} SplitPrefix(p: string, t: string)
    requires NoDot(p)
    ensures Split(p + t) == [p + Split(t)[0]] + Split(t)[1..]
    decreases |p|
  {
    if p != [] {
      assert p[0] != '.';
      assert (p + t)[0] == p[0];
      assert (p + t)[1..] == p[1..] + t;
      SplitPrefix(p[1..], t);
      assert [p[0]] + (p[1..] + Split(t)[0]) == p + Split(t)[0];
    } else {
      var r := Split(t);
      assert p + t == t && p + r[0] == r[0];
      assert r == [r[0]] + r[1..];
    }
  }

  /** Splitting dot-free parts joined with dots gives the parts back. */
  lemma {:induction false} SplitJoin(ps: seq<string>)
    requires |ps| >= 1
    requires forall k :: 0 <= k < |ps| ==> NoDot(ps[k])
    ensures Split(Join(ps)) == ps
    decreases |ps|
  {
    if |ps| == 1 {
      SplitPrefix(ps[0], []);
      assert ps[0] + [] == ps[0];
    } else {
      SplitJoin(ps[1..]);
      var t := "." + Join(ps[1..]);
      assert t[1..] == Join(ps[1..]);
      assert Split(t) == [[]] + ps[1..];
      assert Join(ps) == ps[0] + t;
      SplitPrefix(ps[0], t);
      assert ps[0] + [] == ps[0];
    }
  }

  // ---- unary plus on a part ----------------------------------------------

  /** The white space and line terminators `+s` strips from both ends. */
  predicate IsSpace(c: char) {
    || c == ' ' || c == '\t' || c == '\n' || c == '\r' || c == '\U{0B}' || c == '\U{0C}'
    || c == '\U{A0}' || c == '\U{1680}' || ('\U{2000}' <= c <= '\U{200A}')
    || c == '\U{2028}' || c == '\U{2029}' || c == '\U{202F}' || c == '\U{205F}' || c == '\U{3000}' || c == '\U{FEFF}'
  }

  function TrimStart(s: string): (r: string)
    ensures r == [] || !IsSpace(r[0])
  {
    if s != [] && IsSpace(s[0]) then TrimStart(s[1..]) else s
  }

  function TrimEnd(s: string): (r: string)
    ensures r == [] || !IsSpace(r[|r| - 1])
  {
    if s != [] && IsSpace(s[|s| - 1]) then TrimEnd(s[..|s| - 1]) else s
  }

  /** The radix a `0x`, `0o` or `0b` prefix names (either case), 0 for any other letter. */
  function Radix(c: char): nat {
    if c == 'x' || c == 'X' then 16
    else if c == 'o' || c == 'O' then 8
    else if c == 'b' || c == 'B' then 2
    else 0
  }

  /** The value of a hexadecimal digit, 16 for a character that is none. */
  function DigitValue(c: char): nat {
    if '0' <= c <= '9' then c as int - '0' as int
    else if 'a' <= c <= 'f' then c as int - 'a' as int + 10
    else if 'A' <= c <= 'F' then c as int - 'A' as int + 10
    else 16
  }

  predicate IsRadixDigits(s: string, radix: nat) {
    forall i :: 0 <= i < |s| ==> DigitValue(s[i]) < radix
  }

  function ParseRadix(s: string, radix: nat): (r: nat)
    requires IsRadixDigits(s, radix)
    ensures s == [] ==> r == 0
  {
    if s == [] then 0 else ParseRadix(s[..|s| - 1], radix) * radix + DigitValue(s[|s| - 1])
  }

  /** `s` without the white space at either end. */
  function Trim(s: string): (r: string)
    ensures r == [] || (!IsSpace(r[0]) && !IsSpace(r[|r| - 1]))
  {
    var r := TrimEnd(TrimStart(s));
    if r == [] then r
    else
      TrimEndKeepsStart(TrimStart(s));
      r
  }

  /** Trimming the end leaves a first character that is not white space in place. */
  lemma {:induction false} TrimEndKeepsStart(s: string)
    requires s == [] || !IsSpace(s[0])
    ensures TrimEnd(s) == [] || !IsSpace(TrimEnd(s)[0])
  {
    if s != [] && IsSpace(s[|s| - 1]) {
      var p := s[..|s| - 1];
      assert p == [] || p[0] == s[0];
      TrimEndKeepsStart(p);
    }
  }

  /**
   * The numeric literal a trimmed part holds: nothing (0), a `0x`/`0o`/`0b`
   * literal, or decimal digits with an optional sign; `None` for any other
   * text.
   */
  function Literal(t: string): (r: Option<int>)
    ensures r.Some? && r.value < 0 ==> t != [] && t[0] == '-'
  {
    if t == [] then Some(0)
    else if |t| >= 2 && t[0] == '0' && Radix(t[1]) > 0 then
      var digits := t[2..];
      if digits != [] && IsRadixDigits(digits, Radix(t[1])) then Some(ParseRadix(digits, Radix(t[1]))) else None
    else if t[0] == '+' || t[0] == '-' then
      var digits := t[1..];
      if digits != [] && IsDigits(digits) then
        var n: int := ParseDec(digits);
        Some(if t[0] == '-' then -n else n)
      else None
    else if IsDigits(t) then Some(ParseDec(t))
    else None
  }

  /**
   * `+part`, JavaScript's StringToNumber, for the integer forms a part
   * between dots can take: the literal between any surrounding white space.
   * `None` stands for `NaN`, and also for a decimal exponent or
   * `Infinity`, which are not modelled.
   */
  function ToNumber(part: string): (r: Option<int>)
    ensures r.Some? && r.value < 0 ==> Trim(part) != [] && Trim(part)[0] == '-'
  {
    Literal(Trim(part))
  }

  /** Trimming leaves a string of decimal digits alone. */
  lemma TrimDigits(part: string)
    requires IsDigits(part)
    ensures Trim(part) == part
  {
    if part != [] {
      assert '0' <= part[0] <= '9';
      assert TrimStart(part) == part;
      assert '0' <= part[|part| - 1] <= '9';
    }
  }

  /** A part made only of decimal digits converts to its decimal value. */
  lemma ToNumberOfDigits(part: string)
    requires IsDigits(part)
    ensures ToNumber(part) == Some(ParseDec(part))
  {
    TrimDigits(part);
    if |part| >= 2 {
      assert Radix(part[1]) == 0;
    }
  }

  /** Leading white space is stripped up to the first other character. */
  lemma {:induction false} TrimStartSpaces(ws: string, s: string)
    requires forall i :: 0 <= i < |ws| ==> IsSpace(ws[i])
    requires s == [] || !IsSpace(s[0])
    ensures TrimStart(ws + s) == s
  {
    if ws != [] {
      assert (ws + s)[1..] == ws[1..] + s;
      TrimStartSpaces(ws[1..], s);
    } else {
      assert ws + s == s;
    }
  }

  /** Trailing white space is stripped back to the last other character. */
  lemma {:induction false} TrimEndSpaces(s: string, ws: string)
    requires forall i :: 0 <= i < |ws| ==> IsSpace(ws[i])
    requires s == [] || !IsSpace(s[|s| - 1])
    ensures TrimEnd(s + ws) == s
  {
    if ws != [] {
      var w := ws[..|ws| - 1];
      assert (s + ws)[..|s + ws| - 1] == s + w;
      TrimEndSpaces(s, w);
    } else {
      assert s + ws == s;
    }
  }

  /** A part of white space only converts to 0, as the empty string does. */
  lemma BlankPart(ws: string)
    requires forall i :: 0 <= i < |ws| ==> IsSpace(ws[i])
    ensures ToNumber(ws) == Some(0)
  {
    TrimStartSpaces(ws, []);
    assert ws + [] == ws;
  }

  /** Digits between white space convert to their decimal value. */
  lemma PaddedDigits(ws: string, digits: string, ws': string)
    requires forall i :: 0 <= i < |ws| ==> IsSpace(ws[i])
    requires forall i :: 0 <= i < |ws'| ==> IsSpace(ws'[i])
    requires digits != [] && IsDigits(digits)
    ensures ToNumber(ws + digits + ws') == Some(ParseDec(digits))
  {
    var part := ws + digits + ws';
    assert Trim(part) == digits by {
      assert !IsSpace(digits[0]) && !IsSpace(digits[|digits| - 1]);
      assert part == ws + (digits + ws');
      TrimStartSpaces(ws, digits + ws');
      TrimEndSpaces(digits, ws');
    }
    ToNumberOfDigits(digits);
    TrimDigits(digits);
  }

  /** A part that neither starts nor ends with white space is its own trimmed form. */
  lemma Untrimmed(part: string)
    requires part != [] && !IsSpace(part[0]) && !IsSpace(part[|part| - 1])
    ensures Trim(part) == part
  {
    assert TrimStart(part) == part;
  }

  /** A sign before digits: `+"-12"` is -12 and `+"+12"` is 12. */
  lemma SignedDigits(sign: char, digits: string)
    requires sign == '-' || sign == '+'
    requires digits != [] && IsDigits(digits)
    ensures sign == '-' ==> ToNumber([sign] + digits) == Some(-(ParseDec(digits) as int))
    ensures sign == '+' ==> ToNumber([sign] + digits) == Some(ParseDec(digits))
  {
    var part := [sign] + digits;
    assert part[|part| - 1] == digits[|digits| - 1];
    assert !IsSpace(part[|part| - 1]);
    Untrimmed(part);
    assert part[1..] == digits;
  }

  /** A `0x`, `0o` or `0b` literal: `+"0x1f"` is 31. */
  lemma PrefixedDigits(p: char, digits: string)
    requires Radix(p) > 0 && digits != [] && IsRadixDigits(digits, Radix(p))
    ensures ToNumber(['0', p] + digits) == Some(ParseRadix(digits, Radix(p)))
  {
    var part := ['0', p] + digits;
    assert part[|part| - 1] == digits[|digits| - 1];
    assert DigitValue(part[|part| - 1]) < 16;
    Untrimmed(part);
    assert part[2..] == digits;
  }

  // ---- dotted quads, continued ------------------------------------------

  /** `dot2num(ip)`: `None` stands for `NaN`, which results when fewer than
      four parts are present or one of the first four does not convert.
      Parts after the fourth are ignored. */
  function Dot2Num(ip: string): (r: Option<int>)
    ensures r.Some? <==> |Split(ip)| >= 4 && forall k :: 0 <= k < 4 ==> ToNumber(Split(ip)[k]).Some?
    ensures r.Some? ==> r.value == BigEndian(ToNumber(Split(ip)[0]).value, ToNumber(Split(ip)[1]).value,
                                             ToNumber(Split(ip)[2]).value, ToNumber(Split(ip)[3]).value)
  {
    var d := Split(ip);
    if |d| < 4 then None
    else
      var a, b, c, e := ToNumber(d[0]), ToNumber(d[1]), ToNumber(d[2]), ToNumber(d[3]);
      if a.Some? && b.Some? && c.Some? && e.Some? then Some(BigEndian(a.value, b.value, c.value, e.value))
      else None
  }

  /** `((a * 256 + b) * 256 + c) * 256 + d`. */
  function BigEndian(a: int, b: int, c: int, d: int): int {
    ((a * 256 + b) * 256 + c) * 256 + d
  }

  /** JavaScript's `%`: the remainder takes the sign of the dividend. */
  function JsRem(a: int, m: nat): (r: int)
    requires m > 0
    ensures a >= 0 ==> r == a % m
    ensures a < 0 ==> r == -((-a) % m)
  {
    if a >= 0 then a % m else -((-a) % m)
  }

  /** The value of `num` after `j` rounds of `Math.floor(num / 256)`. */
  function Shift(num: int, j: nat): (r: int)
    ensures num >= 0 ==> 0 <= r <= num
  {
    if j == 0 then num else Shift(num, j - 1) / 256
  }

  /** The text `num2dot` has built after `j` rounds: `j + 1` octets, the
      least significant last. */
  function Octets(num: int, j: nat): string {
    var head := IntString(JsRem(Shift(num, j), 256));
    if j == 0 then head else head + "." + Octets(num, j - 1)
  }

  /** `num2dot(num)`. */
  method Num2Dot(num: int) returns (d: string)
    ensures d == Octets(num, 3)
  {
    var n := num;
    d := IntString(JsRem(n, 256));
    var i := 3;
    while i > 0
      invariant 0 <= i <= 3
      invariant n == Shift(num, 3 - i)
      invariant d == Octets(num, 3 - i)
    {
      n := n / 256;
      d := IntString(JsRem(n, 256)) + "." + d;
      i := i - 1;
    }
  }

  /** After `k` rounds of division by 256 a 32-bit value has `4 - k` bytes left. */
  lemma ShiftBytes(num: int)
    requires 0 <= num < 0x1_0000_0000
    ensures Shift(num, 3) < 256
    ensures num == BigEndian(Shift(num, 3), Shift(num, 2) % 256, Shift(num, 1) % 256, num % 256)
  {
    var s1 := num / 256;
    var s2 := s1 / 256;
    var s3 := s2 / 256;
    assert Shift(num, 1) == s1;
    assert Shift(num, 2) == s2;
    assert Shift(num, 3) == s3;
    assert num == s1 * 256 + num % 256;
    assert s1 == s2 * 256 + s1 % 256;
    assert s2 == s3 * 256 + s2 % 256;
  }

  /** For a 32-bit value `num2dot` writes its four bytes, most significant first. */
  lemma Num2DotOctets(num: int)
    requires 0 <= num < 0x1_0000_0000
    ensures Octets(num, 3) == Join([Dec(Shift(num, 3)), Dec(Shift(num, 2) % 256), Dec(Shift(num, 1) % 256), Dec(num % 256)])
  {
    ShiftBytes(num);
    OctetStep(num, 3);
    OctetStep(num, 2);
    OctetStep(num, 1);
    assert Octets(num, 0) == Dec(num % 256);
    assert Shift(num, 3) % 256 == Shift(num, 3);
    JoinFour(Dec(Shift(num, 3)), Dec(Shift(num, 2) % 256), Dec(Shift(num, 1) % 256), Dec(num % 256));
  }

  /** Each round of a non-negative value puts one more octet in front. */
  lemma OctetStep(num: int, j: nat)
    requires num >= 0 && j > 0
    ensures Octets(num, j) == Dec(Shift(num, j) % 256) + "." + Octets(num, j - 1)
  {
  }

  lemma JoinFour(a: string, b: string, c: string, d: string)
    ensures Join([a, b, c, d]) == a + "." + (b + "." + (c + "." + d))
  {
    var ps := [a, b, c, d];
    assert ps[1..] == [b, c, d] && ps[1..][1..] == [c, d] && ps[1..][1..][1..] == [d];
    assert Join([d]) == d;
    assert Join([c, d]) == c + "." + d;
    assert Join([b, c, d]) == b + "." + (c + "." + d);
  }

  /** `dot2num` of a string whose first four parts are digit strings. */
  lemma Dot2NumParts(ip: string, a: nat, b: nat, c: nat, d: nat)
    requires Split(ip) == [Dec(a), Dec(b), Dec(c), Dec(d)]
    ensures Dot2Num(ip) == Some(BigEndian(a, b, c, d))
  {
    var ps := Split(ip);
    ParseDecOfDec(a);
    ParseDecOfDec(b);
    ParseDecOfDec(c);
    ParseDecOfDec(d);
    ToNumberOfDigits(ps[0]);
    ToNumberOfDigits(ps[1]);
    ToNumberOfDigits(ps[2]);
    ToNumberOfDigits(ps[3]);
  }

  /** Four decimal octets joined with dots convert to their big-endian value. */
  lemma Dot2NumOctets(a: nat, b: nat, c: nat, d: nat)
    ensures Dot2Num(Join([Dec(a), Dec(b), Dec(c), Dec(d)])) == Some(BigEndian(a, b, c, d))
  {
    var ps := [Dec(a), Dec(b), Dec(c), Dec(d)];
    forall k | 0 <= k < 4
      ensures NoDot(ps[k])
    {
    }
    SplitJoin(ps);
    Dot2NumParts(Join(ps), a, b, c, d);
  }

  /** `dot2num(num2dot(num)) == num` for every 32-bit value. */
  lemma NumRoundTrip(num: int)
    requires 0 <= num < 0x1_0000_0000
    ensures Dot2Num(Octets(num, 3)) == Some(num)
  {
    ShiftBytes(num);
    Num2DotOctets(num);
    Dot2NumOctets(Shift(num, 3), Shift(num, 2) % 256, Shift(num, 1) % 256, num % 256);
  }

  /** A dotted quad as `num2dot` writes it: four canonical octets of 0..255. */
  predicate IsDottedQuad(ip: string) {
    var d := Split(ip);
    |d| == 4 && forall k :: 0 <= k < 4 ==> Canonical(d[k]) && ParseDec(d[k]) < 256
  }

  /** `num2dot(dot2num(ip)) == ip` for a canonical dotted quad. */
  lemma IpRoundTrip(ip: string)
    requires IsDottedQuad(ip)
    ensures Dot2Num(ip).Some? && 0 <= Dot2Num(ip).value < 0x1_0000_0000
    ensures Octets(Dot2Num(ip).value, 3) == ip
  {
    var d := Split(ip);
    var a, b, c, e := ParseDec(d[0]), ParseDec(d[1]), ParseDec(d[2]), ParseDec(d[3]);
    DecOfParseDec(d[0]);
    DecOfParseDec(d[1]);
    DecOfParseDec(d[2]);
    DecOfParseDec(d[3]);
    assert d == [Dec(a), Dec(b), Dec(c), Dec(e)];
    Dot2NumParts(ip, a, b, c, e);
    var num := BigEndian(a, b, c, e);
    QuadShifts(a, b, c, e);
    Num2DotOctets(num);
    JoinSplit(ip);
  }

  lemma QuadShifts(a: nat, b: nat, c: nat, d: nat)
    requires a < 256 && b < 256 && c < 256 && d < 256
    ensures var num := BigEndian(a, b, c, d);
      0 <= num < 0x1_0000_0000 && Shift(num, 3) == a && Shift(num, 2) % 256 == b
      && Shift(num, 1) % 256 == c && num % 256 == d
  {
    var num := BigEndian(a, b, c, d);
    assert Shift(num, 1) == (a * 256 + b) * 256 + c;
    assert Shift(num, 2) == a * 256 + b;
  }

  /** Joining the parts of a split gives the string back. */
  lemma {:induction false} JoinSplit(s: string)
    ensures Join(Split(s)) == s
    decreases |s|
  {
    if s != [] {
      JoinSplit(s[1..]);
      var rest := Split(s[1..]);
      if s[0] != '.' {
        if |rest| > 1 {
          assert Join(rest) == rest[0] + "." + Join(rest[1..]);
        }
        assert s == [s[0]] + s[1..];
      } else {
        assert s == "." + s[1..];
      }
    }
  }
}
