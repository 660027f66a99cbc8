/** Row values and their rendering as channel segments (channelValue and formatUUID). */
module Values {
  import opened Wrappers
  import opened Spec

  newtype Byte = b: int | 0 <= b < 256

  const MIN_INT64 := -0x8000_0000_0000_0000

  /**
   * A decoded column value. Integer columns of every width render through 64 bits. `Toast` marks an
   * unchanged out-of-line column; `Other` carries the default formatting of any other type.
   */
  datatype Value =
    | Null
    | Text(text: string)
    | Bool(flag: bool)
    | Int(number: int)
    | Float(formatted: string)
    | Uuid(bytes: seq<Byte>)
    | Toast
    | Other(formatted: string)

  /** A row by column name. */
  type Row = map<string, Value>

  /** The range a Go value of each kind has. */
  ghost predicate InRange(value: Value) {
    && (value.Int? ==> MIN_INT64 <= value.number <= MAX_INT64)
    && (value.Uuid? ==> |value.bytes| == 16)
  }

  function DigitChar(d: nat): (c: char)
    requires d < 16
    ensures d < 10 ==> IsDigit(c)
    ensures d >= 10 ==> 'a' <= c <= 'f'
  {
    if d < 10 then '0' + d as char else 'a' + (d - 10) as char
  }

  function FormatNat(n: nat): (s: string)
    ensures |s| > 0
    ensures forall i | 0 <= i < |s| :: IsDigit(s[i])
  {
    if n < 10 then [DigitChar(n)] else FormatNat(n / 10) + [DigitChar(n % 10)]
  }

  function FormatInt(n: int): string {
    if n < 0 then "-" + FormatNat(-n) else FormatNat(n)
  }

  function FormatBool(flag: bool): string { if flag then "true" else "false" }

  function HexByte(b: Byte): string { [DigitChar(b as int / 16), DigitChar(b as int % 16)] }

  function Dash(i: nat): string { if i == 4 || i == 6 || i == 8 || i == 10 then "-" else "" }

  /** The bytes from index `i` on, two hex digits each, with a dash before bytes 4, 6, 8 and 10. */
  function UuidFrom(id: seq<Byte>, i: nat): string
    requires i <= |id|
    decreases |id| - i
  {
    if i == |id| then ""
    else Dash(i) + HexByte(id[i]) + UuidFrom(id, i + 1)
  }

  lemma AppendByte(text: string, id: seq<Byte>, i: nat)
    requires i < |id|
    ensures text + UuidFrom(id, i) == text + Dash(i) + HexByte(id[i]) + UuidFrom(id, i + 1)
  {
  }

  /** The builder loop of formatUUID. */
  method FormatUuid(id: seq<Byte>) returns (text: string)
    ensures text == UuidFrom(id, 0)
  {
    text := "";
    for i := 0 to |id|
      invariant text + UuidFrom(id, i) == UuidFrom(id, 0)
    {
      AppendByte(text, id, i);
      if i == 4 || i == 6 || i == 8 || i == 10 {
        text := text + "-";
      } else {
        assert text + "" == text;
      }
      text := text + HexByte(id[i]);
    }
    assert text + "" == text;
  }

  /** The text of a value; nil and floats have no segment form. */
  function Rendered(value: Value): Option<string> {
    match value
    case Null => None
    case Text(text) => Some(text)
    case Bool(flag) => Some(FormatBool(flag))
    case Int(n) => Some(FormatInt(n))
    case Float(_) => None
    case Uuid(bytes) => Some(UuidFrom(bytes, 0))
    case Toast => Some("{}")
    case Other(text) => Some(text)
  }

  function ChannelValue(value: Value): (segment: Option<string>)
    ensures segment.Some? ==> ValidChannelValue(segment.value)
  {
    match Rendered(value)
    case Some(text) => if ValidChannelValue(text) then Some(text) else None
    case None => None
  }

  // ----- decimal numbers

  function Pow10(k: nat): nat { if k == 0 then 1 else 10 * Pow10(k - 1) }

  lemma {:induction false} FormatNatLength(n: nat, k: nat)
    requires k > 0 && n < Pow10(k)
    ensures |FormatNat(n)| <= k
  {
    if n < 10 {
    } else {
      FormatNatLength(n / 10, k - 1);
    }
  }

  lemma {:induction false} DecimalOfFormatNat(n: nat)
    ensures Decimal(FormatNat(n)) == n
  {
    var s := FormatNat(n);
    if n >= 10 {
      DecimalOfFormatNat(n / 10);
      assert s[..|s| - 1] == FormatNat(n / 10);
    } else {
      assert s[..0] == "";
    }
  }

  lemma FormatIntInjective(m: int, n: int)
    requires FormatInt(m) == FormatInt(n)
    ensures m == n
  {
    var s := FormatInt(m);
    assert (m < 0) == (s[0] == '-') == (n < 0);
    if m < 0 {
      assert s[1..] == FormatNat(-m) == FormatNat(-n);
      DecimalOfFormatNat(-m);
      DecimalOfFormatNat(-n);
    } else {
      DecimalOfFormatNat(m);
      DecimalOfFormatNat(n);
    }
  }

  lemma Pow10Of19()
    ensures Pow10(19) == 10_000_000_000_000_000_000
  {
    assert Pow10(5) == 100_000;
    assert Pow10(10) == 10_000_000_000;
    assert Pow10(15) == 1_000_000_000_000_000;
  }

  ghost predicate AllDigits(s: string) { forall i | 0 <= i < |s| :: IsDigit(s[i]) }

  /** Decimal notation of a natural number: its digits, without a leading zero unless it is 0. */
  ghost predicate DenotesNat(digits: string, n: nat) {
    digits != "" && AllDigits(digits) && Decimal(digits) == n && (digits[0] == '0' ==> n == 0 && |digits| == 1)
  }

  /** Decimal notation of an integer: a minus sign exactly if it is negative, then its absolute value. */
  ghost predicate DenotesInt(text: string, n: int) {
    && text != "" && (text[0] == '-' <==> n < 0)
    && if n < 0 then DenotesNat(text[1..], -n) else DenotesNat(text, n)
  }

  lemma {:induction false} FormatNatDenotes(n: nat)
    ensures DenotesNat(FormatNat(n), n)
  {
    DecimalOfFormatNat(n);
    if n >= 10 {
      FormatNatDenotes(n / 10);
      assert FormatNat(n)[0] == FormatNat(n / 10)[0];
    }
  }

  /** Every 64-bit integer is a valid segment of at most 20 characters, its own decimal notation. */
  lemma IntRenders(n: int)
    requires MIN_INT64 <= n <= MAX_INT64
    ensures |FormatInt(n)| <= 20
    ensures ChannelValue(Int(n)) == Some(FormatInt(n)) && DenotesInt(FormatInt(n), n)
  {
    Pow10Of19();
    FormatNatLength(if n < 0 then -n else n, 19);
    FormatNatDenotes(if n < 0 then -n else n);
    var s := FormatInt(n);
    assert n < 0 ==> s[1..] == FormatNat(-n);
    forall i | 0 <= i < |s| ensures IsSegmentChar(s[i]) {}
  }

  // ----- UUIDs

  /** The offset of byte `i` in the text: two characters per byte and one per dash passed. */
  function UuidOffset(i: nat): nat {
    2 * i + (if i > 10 then 4 else if i > 8 then 3 else if i > 6 then 2 else if i > 4 then 1 else 0)
  }

  lemma {:induction false} UuidFromShape(id: seq<Byte>, i: nat)
    requires i <= |id| == 16
    ensures |UuidFrom(id, i)| == 36 - UuidOffset(i)
    ensures forall k | 0 <= k < |UuidFrom(id, i)| ::
        var c := UuidFrom(id, i)[k];
        if UuidOffset(i) + k in {8, 13, 18, 23} then c == '-' else IsDigit(c) || 'a' <= c <= 'f'
    decreases 16 - i
  {
    if i == 16 {
    } else {
      UuidFromShape(id, i + 1);
      var s := UuidFrom(id, i);
      var rest := UuidFrom(id, i + 1);
      var head := |Dash(i)| + 2;
      assert UuidOffset(i + 1) == UuidOffset(i) + head;
      forall k | 0 <= k < |s|
        ensures if UuidOffset(i) + k in {8, 13, 18, 23} then s[k] == '-' else IsDigit(s[k]) || 'a' <= s[k] <= 'f'
      {
        if k >= head {
          assert s[k] == rest[k - head];
        }
      }
    }
  }

  lemma HexByteInjective(a: Byte, b: Byte)
    requires HexByte(a) == HexByte(b)
    ensures a == b
  {
    var x, y := HexByte(a), HexByte(b);
    assert x[0] == y[0] && x[1] == y[1];
  }

  lemma {:induction false} UuidFromInjective(a: seq<Byte>, b: seq<Byte>, i: nat)
    requires i <= |a| == |b| == 16
    requires UuidFrom(a, i) == UuidFrom(b, i)
    ensures a[i..] == b[i..]
    decreases 16 - i
  {
    if i == 16 {
    } else {
      var d := |Dash(i)|;
      var s, t := UuidFrom(a, i), UuidFrom(b, i);
      assert s[d..d + 2] == HexByte(a[i]) && t[d..d + 2] == HexByte(b[i]);
      HexByteInjective(a[i], b[i]);
      assert s[d + 2..] == UuidFrom(a, i + 1) && t[d + 2..] == UuidFrom(b, i + 1);
      UuidFromInjective(a, b, i + 1);
      forall k | 0 <= k < |a[i..]| ensures a[i..][k] == b[i..][k] {
        assert k > 0 ==> a[i..][k] == a[i + 1..][k - 1] && b[i..][k] == b[i + 1..][k - 1];
      }
    }
  }

  /** The value of a lowercase hex digit, 16 for any other character. */
  function HexValue(c: char): nat {
    if '0' <= c <= '9' then (c - '0') as nat else if 'a' <= c <= 'f' then (c - 'a') as nat + 10 else 16
  }

  /** Where the digits of byte `k` stand in 8-4-4-4-12 notation. */
  function HexAt(k: nat): nat {
    2 * k + (if k < 4 then 0 else if k < 6 then 1 else if k < 8 then 2 else if k < 10 then 3 else 4)
  }

  /** The two hex digits of byte `k` denote it, the high one first. */
  ghost predicate DenotesByte(text: string, id: seq<Byte>, k: nat) {
    && k < |id| && HexAt(k) + 1 < |text|
    && HexValue(text[HexAt(k)]) < 16 && HexValue(text[HexAt(k) + 1]) < 16
    && HexValue(text[HexAt(k)]) * 16 + HexValue(text[HexAt(k) + 1]) == id[k] as nat
  }

  /** A UUID in lowercase: 36 characters, dashes at 8, 13, 18 and 23, and the bytes in order, two hex digits each. */
  ghost predicate DenotesUuid(text: string, id: seq<Byte>) {
    && |text| == 36 && (forall k | k in {8, 13, 18, 23} :: text[k] == '-')
    && forall k: nat | k < |id| :: DenotesByte(text, id, k)
  }

  lemma HexByteDenotes(b: Byte)
    ensures |HexByte(b)| == 2 && HexValue(HexByte(b)[0]) < 16 && HexValue(HexByte(b)[1]) < 16
    ensures HexValue(HexByte(b)[0]) * 16 + HexValue(HexByte(b)[1]) == b as nat
  {
  }

  lemma {:induction false} UuidFromDenotes(text: string, id: seq<Byte>, i: nat)
    requires i <= |id| == 16 && |text| == 36 && text[UuidOffset(i)..] == UuidFrom(id, i)
    ensures forall k: nat | i <= k < 16 :: DenotesByte(text, id, k)
    decreases 16 - i
  {
    if i == 16 {
    } else {
      var d := |Dash(i)|;
      assert UuidOffset(i) + d == HexAt(i) && UuidOffset(i + 1) == HexAt(i) + 2;
      HexByteDenotes(id[i]);
      assert UuidFrom(id, i)[d] == text[HexAt(i)] && UuidFrom(id, i)[d + 1] == text[HexAt(i) + 1];
      assert text[UuidOffset(i + 1)..] == text[UuidOffset(i)..][d + 2..] == UuidFrom(id, i + 1);
      UuidFromDenotes(text, id, i + 1);
    }
  }

  /** Every UUID is a valid 36-character segment: lowercase hex with dashes at 8, 13, 18 and 23. */
  lemma UuidRenders(id: seq<Byte>)
    requires |id| == 16
    ensures |UuidFrom(id, 0)| == 36
    ensures forall k | 0 <= k < 36 ::
        var c := UuidFrom(id, 0)[k];
        if k in {8, 13, 18, 23} then c == '-' else IsDigit(c) || 'a' <= c <= 'f'
    ensures ChannelValue(Uuid(id)) == Some(UuidFrom(id, 0)) && DenotesUuid(UuidFrom(id, 0), id)
  {
    UuidFromShape(id, 0);
    assert UuidFrom(id, 0)[UuidOffset(0)..] == UuidFrom(id, 0);
    UuidFromDenotes(UuidFrom(id, 0), id, 0);
    var s := UuidFrom(id, 0);
    forall k | 0 <= k < |s| ensures IsSegmentChar(s[k]) {}
  }

  // ----- what a segment says

  /** The segment is the text of the value: decimal integers, `true` and `false`, UUIDs, and text as it is. */
  ghost predicate Denotes(segment: string, value: Value) {
    match value
    case Text(text) => segment == text && ValidChannelValue(text)
    case Other(text) => segment == text && ValidChannelValue(text)
    case Bool(flag) => segment == if flag then "true" else "false"
    case Int(n) => DenotesInt(segment, n)
    case Uuid(id) => DenotesUuid(segment, id)
    case _ => false
  }

  /** The values with a segment form: all but null, floats, unchanged columns and text outside the segment pattern. */
  ghost predicate HasSegment(value: Value) {
    match value
    case Text(text) => ValidChannelValue(text)
    case Other(text) => ValidChannelValue(text)
    case Bool(_) => true
    case Int(_) => true
    case Uuid(_) => true
    case _ => false
  }

  /** A value renders exactly if it has a segment form, and then to a valid segment that denotes it. */
  lemma RendersExactly(value: Value)
    requires InRange(value)
    ensures ChannelValue(value).Some? <==> HasSegment(value)
    ensures ChannelValue(value).Some? ==>
        Denotes(ChannelValue(value).value, value) && ValidChannelValue(ChannelValue(value).value)
  {
    match value {
      case Int(n) => IntRenders(n);
      case Uuid(id) => UuidRenders(id);
      case Bool(flag) => assert forall s | s in {"true", "false"} :: ValidChannelValue(s);
      case Toast => assert !IsSegmentChar("{}"[0]);
      case _ =>
    }
  }

  // ----- keys of one column type

  predicate SameKeyType(a: Value, b: Value) {
    (a.Int? && b.Int?) || (a.Bool? && b.Bool?) || (a.Uuid? && b.Uuid?)
  }

  /** Integers, booleans and UUIDs always render, and two of one type never render alike. */
  lemma KeysRenderInjectively(a: Value, b: Value)
    requires SameKeyType(a, b) && InRange(a) && InRange(b)
    ensures ChannelValue(a).Some? && ChannelValue(b).Some?
    ensures ChannelValue(a) == ChannelValue(b) <==> a == b
  {
    if a.Int? {
      IntRenders(a.number);
      IntRenders(b.number);
      if FormatInt(a.number) == FormatInt(b.number) {
        FormatIntInjective(a.number, b.number);
      }
    } else if a.Uuid? {
      UuidRenders(a.bytes);
      UuidRenders(b.bytes);
      if UuidFrom(a.bytes, 0) == UuidFrom(b.bytes, 0) {
        UuidFromInjective(a.bytes, b.bytes, 0);
        assert a.bytes[0..] == a.bytes && b.bytes[0..] == b.bytes;
      }
    } else {
      assert "true"[0] != "false"[0];
      assert forall s | s in {"true", "false"} :: ValidChannelValue(s);
    }
  }
}
