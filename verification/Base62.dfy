/** Base 62 text for byte strings: big-number base conversion, one digit buffer in place. */
module Base62 {
  import opened Primitives
  import opened Wire

  // ---- Digits ----------------------------------------------------------------------------------

  /** The number a little-endian digit string stands for. */
  function LeValue(s: seq<int>, base: nat): int {
    if s == [] then 0 else s[0] + base * LeValue(s[1..], base)
  }

  /** Digits in range, and no leading zero, that is no zero at the end. */
  predicate Canonical(s: seq<int>, base: nat) {
    && (forall i | 0 <= i < |s| :: 0 <= s[i] < base)
    && (s != [] ==> s[|s| - 1] != 0)
  }

  function Digits(v: nat, base: nat): (s: seq<int>)
    requires base >= 2
    decreases v
  {
    if v == 0 then [] else [v % base] + Digits(v / base, base)
  }

  /** A canonical digit string is determined by its number. */
  lemma {:induction false} CanonicalUnique(s: seq<int>, base: nat)
    requires base >= 2 && Canonical(s, base)
    ensures LeValue(s, base) >= 0 && Digits(LeValue(s, base), base) == s
    ensures s != [] ==> LeValue(s, base) > 0
  {
    if s != [] {
      CanonicalUnique(s[1..], base);
      var r := LeValue(s[1..], base);
      DivMod(s[0], r, base);
      if r == 0 {
        assert s[1..] == [];
      }
    }
  }

  lemma DivMod(d: int, r: int, base: nat)
    requires 0 <= d < base && r >= 0
    ensures (d + base * r) / base == r && (d + base * r) % base == d
  {
    Quotient(d + base * r, base, r, d);
  }

  /** Quotient and remainder are the only numbers with their defining property. */
  lemma Quotient(v: int, base: nat, q: int, d: int)
    requires 0 <= d < base && v == base * q + d
    ensures v / base == q && v % base == d
  {
    var e := v / base - q;
    assert base * e == base * (v / base) - base * q;
    assert -1 < e < 1 by {
      if e >= 1 {
        Monotone(1, e, base);
      } else if e <= -1 {
        Monotone(e, -1, base);
      }
    }
  }

  lemma Monotone(a: int, b: int, c: nat)
    requires a <= b
    ensures c * a <= c * b
  {
  }

  /** Multiplies a digit string and adds to it, carrying from digit to digit; a last carry becomes a
      new digit. */
  function MulAdd(s: seq<int>, mul: nat, add: int, base: nat): (r: seq<int>)
    requires base > 0
    ensures |r| <= |s| + 1
  {
    if s == [] then if add > 0 then [add] else []
    else
      var d := add + s[0] * mul;
      [Rem(d, base)] + MulAdd(s[1..], mul, Quot(d, base), base)
  }

  /** The two conversions: hexadecimal digits into base 62, and base 62 digits into bytes. */
  predicate Conversion(mul: nat, base: nat) {
    (mul == 16 && base == 62) || (mul == 62 && base == 256)
  }

  /** The carry never reaches the multiplier, so it always fits a digit. */
  lemma CarryBound(digit: int, mul: nat, add: int, base: nat)
    requires Conversion(mul, base) && 0 <= digit < base && 0 <= add < mul
    ensures 0 <= Quot(add + digit * mul, base) < mul
  {
    QuotRem(add + digit * mul, base);
  }

  lemma {:induction false} MulAddDigits(s: seq<int>, mul: nat, add: int, base: nat)
    requires Conversion(mul, base) && 0 <= add < mul
    requires forall i | 0 <= i < |s| :: 0 <= s[i] < base
    ensures forall i | 0 <= i < |MulAdd(s, mul, add, base)| :: 0 <= MulAdd(s, mul, add, base)[i] < base
  {
    if s != [] {
      CarryBound(s[0], mul, add, base);
      MulAddDigits(s[1..], mul, Quot(add + s[0] * mul, base), base);
    }
  }

  lemma {:induction false} MulAddValue(s: seq<int>, mul: nat, add: int, base: nat)
    requires base > 0 && add >= 0
    ensures LeValue(MulAdd(s, mul, add, base), base) == mul * LeValue(s, base) + add
  {
    if s == [] {
      assert LeValue([], base) == 0;
      assert base * 0 == 0 && mul * 0 == 0;
    } else {
      var d := add + s[0] * mul;
      MulAddValue(s[1..], mul, Quot(d, base), base);
      Distribute(s[0], mul, add, base, LeValue(s[1..], base));
    }
  }

  lemma Distribute(digit: int, mul: nat, add: int, base: nat, v: int)
    requires base > 0
    ensures var d := add + digit * mul;
            Rem(d, base) + base * (mul * v + Quot(d, base)) == mul * (digit + base * v) + add
  {
    var d := add + digit * mul;
    QuotRem(d, base);
    assert base * (mul * v + Quot(d, base)) == base * (mul * v) + base * Quot(d, base);
    assert mul * (digit + base * v) == mul * digit + mul * (base * v);
    assert base * (mul * v) == mul * (base * v);
  }

  lemma {:induction false} MulAddTop(s: seq<int>, mul: nat, add: int, base: nat)
    requires Conversion(mul, base) && 0 <= add < mul && Canonical(s, base)
    ensures Canonical(MulAdd(s, mul, add, base), base)
  {
    MulAddDigits(s, mul, add, base);
    if s != [] {
      var d := add + s[0] * mul;
      CarryBound(s[0], mul, add, base);
      if |s| == 1 {
        LastDigit(s[0], mul, add, base);
      } else {
        MulAddTop(s[1..], mul, Quot(d, base), base);
        MulAddNonempty(s[1..], mul, Quot(d, base), base);
        LowerDigit(Rem(d, base), MulAdd(s[1..], mul, Quot(d, base), base), base);
      }
    }
  }

  lemma LowerDigit(digit: int, s: seq<int>, base: nat)
    requires Canonical(s, base) && s != [] && 0 <= digit < base
    ensures Canonical([digit] + s, base)
  {
  }

  lemma LastDigit(digit: int, mul: nat, add: int, base: nat)
    requires Conversion(mul, base) && 0 < digit < base && 0 <= add < mul
    ensures var d := add + digit * mul; Quot(d, base) > 0 || Rem(d, base) > 0
  {
    QuotRem(add + digit * mul, base);
  }

  lemma MulAddNonempty(s: seq<int>, mul: nat, add: int, base: nat)
    requires base > 0 && s != []
    ensures MulAdd(s, mul, add, base) != []
  {
  }

  // ---- Both directions on values ---------------------------------------------------------------

  function Reverse<T>(s: seq<T>): (r: seq<T>)
    ensures |r| == |s|
    ensures forall i | 0 <= i < |s| :: r[i] == s[|s| - 1 - i]
    decreases |s|
  {
    if s == [] then [] else [s[|s| - 1]] + Reverse(s[..|s| - 1])
  }

  lemma ReverseTwice<T>(s: seq<T>)
    ensures Reverse(Reverse(s)) == s
  {
  }

  /** The number a big-endian digit string stands for. */
  function BeValue(s: seq<int>, base: nat): int
    decreases |s|
  {
    if s == [] then 0 else base * BeValue(s[..|s| - 1], base) + s[|s| - 1]
  }

  lemma {:induction false} ReverseValue(s: seq<int>, base: nat)
    ensures LeValue(Reverse(s), base) == BeValue(s, base)
    decreases |s|
  {
    if s != [] {
      ReverseValue(s[..|s| - 1], base);
      assert Reverse(s)[1..] == Reverse(s[..|s| - 1]);
    }
  }

  lemma {:induction false} BytesValue(b: Bytes)
    ensures BeValue(b, 256) == Value(b)
    decreases |b|
  {
    if b != [] {
      BytesValue(b[..|b| - 1]);
    }
  }

  /** A digit string without its leading zeros. */
  function Strip(s: seq<int>): seq<int> {
    if s != [] && s[0] == 0 then Strip(s[1..]) else s
  }

  lemma {:induction false} LeadingZero(s: seq<int>, base: nat)
    requires s != [] && s[0] == 0
    ensures BeValue(s[1..], base) == BeValue(s, base)
    decreases |s|
  {
    if |s| > 1 {
      var n := |s| - 1;
      LeadingZero(s[..n], base);
      assert s[..n][1..] == s[1..][..n - 1];
    } else {
      assert s[..0] == [] && s[1..] == [];
      assert base * 0 == 0;
    }
  }

  lemma {:induction false} StripValue(s: seq<int>, base: nat)
    requires forall i | 0 <= i < |s| :: 0 <= s[i] < base
    ensures BeValue(Strip(s), base) == BeValue(s, base)
    ensures Canonical(Reverse(Strip(s)), base)
  {
    if s != [] && s[0] == 0 {
      LeadingZero(s, base);
      StripValue(s[1..], base);
    }
  }

  /** The canonical digits of a number are the reversed digits of any of its representations. */
  lemma StripUnique(s: seq<int>, t: seq<int>, base: nat)
    requires base >= 2 && Canonical(t, base) && LeValue(t, base) == BeValue(s, base)
    requires forall i | 0 <= i < |s| :: 0 <= s[i] < base
    ensures Reverse(t) == Strip(s)
  {
    StripValue(s, base);
    ReverseValue(Strip(s), base);
    CanonicalUnique(t, base);
    CanonicalUnique(Reverse(Strip(s)), base);
    ReverseTwice(Strip(s));
  }

  /** Bytes to little-endian base 62 digits, two hexadecimal digits per byte. */
  function ToDigits(data: Bytes): seq<int>
    decreases |data|
  {
    if data == [] then []
    else
      var n := |data| - 1;
      var b: int := data[n];
      MulAdd(MulAdd(ToDigits(data[..n]), 16, b / 16, 62), 16, b % 16, 62)
  }

  /** Two digits for each byte always suffice. */
  lemma {:induction false} ToDigitsValue(data: Bytes)
    ensures Canonical(ToDigits(data), 62) && LeValue(ToDigits(data), 62) == Value(data)
    ensures |ToDigits(data)| <= 2 * |data|
    decreases |data|
  {
    if data != [] {
      var n := |data| - 1;
      var b: int := data[n];
      var s := ToDigits(data[..n]);
      ToDigitsValue(data[..n]);
      MulAddTop(s, 16, b / 16, 62);
      MulAddValue(s, 16, b / 16, 62);
      var t := MulAdd(s, 16, b / 16, 62);
      MulAddTop(t, 16, b % 16, 62);
      MulAddValue(t, 16, b % 16, 62);
    }
  }

  /** Big-endian base 62 digits to little-endian bytes. */
  function FromDigits(s: seq<int>): seq<int>
    decreases |s|
  {
    if s == [] then [] else MulAdd(FromDigits(s[..|s| - 1]), 62, s[|s| - 1], 256)
  }

  lemma {:induction false} FromDigitsValue(s: seq<int>)
    requires forall i | 0 <= i < |s| :: 0 <= s[i] < 62
    ensures Canonical(FromDigits(s), 256) && LeValue(FromDigits(s), 256) == BeValue(s, 62)
    decreases |s|
  {
    if s != [] {
      var n := |s| - 1;
      FromDigitsValue(s[..n]);
      MulAddTop(FromDigits(s[..n]), 62, s[n], 256);
      MulAddValue(FromDigits(s[..n]), 62, s[n], 256);
    }
  }

  // ---- Text ------------------------------------------------------------------------------------

  /** The digits are '0' to '9', then 'A' to 'Z', then 'a' to 'z'. */
  function CharOf(d: int): char
    requires 0 <= d < 62
  {
    if d < 10 then ('0' as int + d) as char
    else if d < 36 then ('A' as int + d - 10) as char
    else ('a' as int + d - 36) as char
  }

  function DigitOf(c: char): Option<int> {
    if '0' <= c <= '9' then Some(c as int % '0' as int)
    else if 'A' <= c <= 'Z' then Some(c as int % 'A' as int + 10)
    else if 'a' <= c <= 'z' then Some(c as int % 'a' as int + 36)
    else None
  }

  lemma DigitOfChar(d: int)
    requires 0 <= d < 62
    ensures DigitOf(CharOf(d)) == Some(d)
  {
  }

  lemma CharOfDigit(c: char)
    requires DigitOf(c).Some?
    ensures 0 <= DigitOf(c).value < 62 && CharOf(DigitOf(c).value) == c
  {
  }

  /** The text of little-endian digits. */
  function Text(digits: seq<int>): (t: string)
    requires forall i | 0 <= i < |digits| :: 0 <= digits[i] < 62
    ensures |t| == |digits|
    ensures forall i | 0 <= i < |t| :: t[i] == CharOf(digits[|digits| - 1 - i])
    decreases |digits|
  {
    if digits == [] then [] else [CharOf(digits[|digits| - 1])] + Text(digits[..|digits| - 1])
  }

  /** The digits of a text up to its first character that is none, and that character. */
  function Parse(text: string): (r: Result<seq<int>, char>)
    ensures r.Ok? <==> forall i | 0 <= i < |text| :: DigitOf(text[i]).Some?
    ensures r.Ok? ==> |r.value| == |text| && forall i | 0 <= i < |text| :: DigitOf(text[i]) == Some(r.value[i])
    decreases |text|
  {
    if text == [] then Ok([])
    else
      var n := |text| - 1;
      match (Parse(text[..n]), DigitOf(text[n]))
      case (Err(c), _) => Err(c)
      case (Ok(_), None) => Err(text[n])
      case (Ok(s), Some(d)) => Ok(s + [d])
  }

  /** The character reported is the first one that is no digit. */
  lemma {:induction false} FirstInvalid(text: string) returns (i: nat)
    requires Parse(text).Err?
    ensures i < |text| && text[i] == Parse(text).error && DigitOf(text[i]).None?
    ensures forall j | 0 <= j < i :: DigitOf(text[j]).Some?
    decreases |text|
  {
    var n := |text| - 1;
    if Parse(text[..n]).Err? {
      i := FirstInvalid(text[..n]);
      assert forall j | 0 <= j < i :: text[..n][j] == text[j];
    } else {
      i := n;
      assert forall j | 0 <= j < n :: text[..n][j] == text[j];
    }
  }

  function ToText(data: Bytes): string {
    ToDigitsValue(data);
    Text(ToDigits(data))
  }

  function AsBytes(s: seq<int>): (b: Bytes)
    requires forall i | 0 <= i < |s| :: 0 <= s[i] < 256
    ensures b == s
  {
    seq(|s|, i requires 0 <= i < |s| => s[i])
  }

  lemma DigitsInRange(text: string)
    requires Parse(text).Ok?
    ensures forall i | 0 <= i < |text| :: 0 <= Parse(text).value[i] < 62
    ensures Canonical(FromDigits(Parse(text).value), 256)
  {
    forall i | 0 <= i < |text|
      ensures 0 <= Parse(text).value[i] < 62
    {
      CharOfDigit(text[i]);
    }
    FromDigitsValue(Parse(text).value);
  }

  function FromText(text: string): Result<Bytes, char> {
    match Parse(text)
    case Err(c) => Err(c)
    case Ok(s) =>
      DigitsInRange(text);
      Ok(AsBytes(Reverse(FromDigits(s))))
  }

  lemma ParseText(digits: seq<int>)
    requires forall i | 0 <= i < |digits| :: 0 <= digits[i] < 62
    ensures Parse(Text(digits)) == Ok(Reverse(digits))
  {
    var t := Text(digits);
    forall i | 0 <= i < |t|
      ensures DigitOf(t[i]) == Some(Reverse(digits)[i])
    {
      DigitOfChar(digits[|digits| - 1 - i]);
    }
    ParseOf(t, Reverse(digits));
  }

  lemma {:induction false} ParseOf(text: string, s: seq<int>)
    requires |s| == |text| && forall i | 0 <= i < |s| :: DigitOf(text[i]) == Some(s[i])
    ensures Parse(text) == Ok(s)
    decreases |text|
  {
    if s != [] {
      var n := |s| - 1;
      ParseOf(text[..n], s[..n]);
      assert s == s[..n] + [s[n]];
    }
  }

  /** Bytes to text and back: all but the leading zero bytes. */
  lemma BytesRoundTrip(data: Bytes)
    ensures FromText(ToText(data)) == Ok(Strip(data))
  {
    ToDigitsValue(data);
    var d := ToDigits(data);
    ParseText(d);
    ReverseTwice(d);
    ReverseValue(Reverse(d), 62);
    FromDigitsValue(Reverse(d));
    BytesValue(data);
    StripUnique(data, FromDigits(Reverse(d)), 256);
  }

  /** A text without its leading zeros. */
  function StripText(text: string): string {
    if text != [] && text[0] == '0' then StripText(text[1..]) else text
  }

  lemma {:induction false} StripTextDigits(text: string)
    requires Parse(text).Ok?
    ensures forall i | 0 <= i < |Strip(Parse(text).value)| :: 0 <= Strip(Parse(text).value)[i] < 62
    ensures StripText(text) == Text(Reverse(Strip(Parse(text).value)))
  {
    var s := Parse(text).value;
    assert forall i | 0 <= i < |text| :: DigitOf(text[i]) == Some(s[i]);
    if text != [] && text[0] == '0' {
      assert Parse(text[1..]).value == s[1..];
      StripTextDigits(text[1..]);
    } else {
      forall i | 0 <= i < |text|
        ensures 0 <= s[i] < 62 && CharOf(s[i]) == text[i]
      {
        CharOfDigit(text[i]);
      }
      if text != [] {
        CharOfDigit(text[0]);
      }
      assert Strip(s) == s;
    }
  }

  /** Text to bytes and back: all but the leading zeros. A text is accepted exactly if it is
      alphanumeric. */
  lemma TextRoundTrip(text: string)
    ensures FromText(text).Ok? <==> forall i | 0 <= i < |text| :: DigitOf(text[i]).Some?
    ensures FromText(text).Ok? ==> ToText(FromText(text).value) == StripText(text)
  {
    if FromText(text).Ok? {
      var s := Parse(text).value;
      DigitsInRange(text);
      FromDigitsValue(s);
      var b := FromText(text).value;
      ReverseTwice(FromDigits(s));
      ReverseValue(b, 256);
      BytesValue(b);
      ToDigitsValue(b);
      StripUnique(s, ToDigits(b), 62);
      ReverseTwice(ToDigits(b));
      StripTextDigits(text);
    }
  }

  // ---- In place --------------------------------------------------------------------------------

  /** One digit of the multiplication by 16: what is written and what is carried on. */
  lemma CarryStep(s: seq<int>, i: nat, d: int)
    requires i < |s| && 0 <= s[i] < 62 && 0 <= d < 16
    ensures var e := d + s[i] * 16;
            0 <= e / 62 < 16 && MulAdd(s[i..], 16, d, 62) == [e % 62] + MulAdd(s[i + 1..], 16, e / 62, 62)
  {
    CarryBound(s[i], 16, d, 62);
    QuotIsDivision(d + s[i] * 16, 62);
    assert s[i..][1..] == s[i + 1..];
  }

  /** Multiplies the base 62 number in the first `len` digits of a buffer by 16 and adds to it. */
  method AddMult16(buf: array<byte>, len: nat, m: byte) returns (newLen: nat)
    requires m < 16 && len < buf.Length && forall i | 0 <= i < len :: buf[i] < 62
    modifies buf
    ensures newLen <= len + 1 && buf[..newLen] == MulAdd(old(buf[..len]), 16, m, 62)
    ensures forall i | 0 <= i < newLen :: buf[i] < 62
  {
    var d: int := m;
    ghost var before: seq<int> := buf[..len];
    assert before[0..] == before;
    for i := 0 to len
      invariant 0 <= d < 16 && forall j | 0 <= j < i :: buf[j] < 62
      invariant forall j | i <= j < len :: buf[j] == before[j]
      invariant MulAdd(before, 16, m, 62) == buf[..i] + MulAdd(before[i..], 16, d, 62)
    {
      ghost var front: seq<int> := buf[..i];
      CarryStep(before, i, d);
      d := d + buf[i] as int * 16;
      buf[i] := d % 62;
      assert buf[..i + 1] == front + [d % 62];
      Join(front, d % 62, MulAdd(before[i + 1..], 16, d / 62, 62));
      d := d / 62;
    }
    assert before[len..] == [];
    assert d < 62;
    newLen := len;
    if d > 0 {
      buf[len] := d;
      newLen := len + 1;
      assert buf[..newLen] == buf[..len] + [d];
    }
  }

  /** The digit buffer of a byte string; two digits for each byte suffice. */
  method FillDigits(data: Bytes, buf: array<byte>) returns (len: nat)
    requires buf.Length == 2 * |data|
    modifies buf
    ensures len <= buf.Length && buf[..len] == ToDigits(data)
    ensures forall i | 0 <= i < len :: buf[i] < 62
  {
    len := 0;
    for i := 0 to |data|
      invariant len <= 2 * i && forall j | 0 <= j < len :: buf[j] < 62
      invariant buf[..len] == ToDigits(data[..i])
    {
      assert data[..i + 1][..i] == data[..i];
      var b: int := data[i];
      len := AddMult16(buf, len, b / 16);
      len := AddMult16(buf, len, b % 16);
    }
    assert data[..|data|] == data;
  }

  method ToBase62(data: Bytes) returns (text: string)
    ensures text == ToText(data)
  {
    var buf := new byte[2 * |data|](_ => 0);
    var len := FillDigits(data, buf);
    ToDigitsValue(data);
    text := Render(buf, len);
  }

  /** The digits from the last one to the first. */
  method Render(buf: array<byte>, len: nat) returns (text: string)
    requires len <= buf.Length && forall i | 0 <= i < len :: buf[i] < 62
    ensures text == Text(buf[..len])
  {
    text := [];
    for i := 0 to len
      invariant |text| == i && forall k | 0 <= k < i :: text[k] == CharOf(buf[len - 1 - k])
    {
      text := text + [CharOf(buf[len - 1 - i])];
    }
  }

  /** Multiplies the number in a byte buffer by 62 and adds a digit. */
  method MulAdd62(buf: seq<int>, digit: nat) returns (r: seq<int>)
    requires forall i | 0 <= i < |buf| :: buf[i] >= 0
    ensures r == MulAdd(buf, 62, digit, 256)
  {
    r := buf;
    var val: int := digit;
    assert buf[0..] == buf;
    for k := 0 to |buf|
      invariant |r| == |buf| && val >= 0 && forall j | k <= j < |buf| :: r[j] == buf[j]
      invariant MulAdd(buf, 62, digit, 256) == r[..k] + MulAdd(buf[k..], 62, val, 256)
    {
      ghost var front, rest := r[..k], buf[k..];
      var d := val + r[k] * 62;
      QuotIsDivision(d, 256);
      r := r[k := d % 256];
      val := d / 256;
      assert rest[0] == buf[k] && rest[1..] == buf[k + 1..];
      assert r[..k + 1] == front + [Rem(d, 256)];
      Join(front, Rem(d, 256), MulAdd(buf[k + 1..], 62, val, 256));
    }
    assert buf[|buf|..] == [] && r[..|buf|] == r;
    if val > 0 {
      r := r + [val];
    }
  }

  lemma Join(front: seq<int>, digit: int, rest: seq<int>)
    ensures front + ([digit] + rest) == (front + [digit]) + rest
  {
  }

  method FromBase62(text: string) returns (r: Result<Bytes, char>)
    ensures r == FromText(text)
  {
    var buf: seq<int> := [];
    for i := 0 to |text|
      invariant Parse(text[..i]).Ok? && buf == FromDigits(Parse(text[..i]).value)
    {
      assert text[..i + 1][..i] == text[..i];
      var digit := DigitOf(text[i]);
      if digit.None? {
        ParseStops(text, i + 1);
        return Err(text[i]);
      }
      ghost var s := Parse(text[..i]).value;
      assert (s + [digit.value])[..i] == s;
      DigitsInRange(text[..i]);
      CharOfDigit(text[i]);
      buf := MulAdd62(buf, digit.value);
    }
    assert text[..|text|] == text;
    DigitsInRange(text);
    return Ok(AsBytes(Reverse(buf)));
  }

  lemma {:induction false} ParseStops(text: string, n: nat)
    requires n <= |text| && Parse(text[..n]).Err?
    ensures Parse(text) == Parse(text[..n])
    decreases |text|
  {
    if n < |text| {
      var k := |text| - 1;
      assert text[..k][..n] == text[..n];
      ParseStops(text[..k], n);
    } else {
      assert text[..n] == text;
    }
  }
}
