/** The values of the Redis serialization protocol and how they are written (src/resp.rs:21-74). */
module Resp {
  import opened Basics

  datatype RespValue =
    | Nil
    | Int(i: int)
    | Data(data: Bytes)
    | Array(items: seq<RespValue>)
    | Status(line: Bytes)
    | Error(line: Bytes)

  const CR: byte := 13
  const LF: byte := 10
  const CRLF: Bytes := [13, 10]
  const DOLLAR: byte := 36
  const STAR: byte := 42
  const COLON: byte := 58
  const PLUS: byte := 43
  const MINUS: byte := 45
  const NIL: Bytes := [36, 45, 49, 13, 10]   // $-1, CR, LF

  const I64_LIMIT := 0x8000_0000_0000_0000

  predicate IsI64(i: int) {
    -I64_LIMIT <= i < I64_LIMIT
  }

  predicate NoCR(s: Bytes) {
    forall k :: 0 <= k < |s| ==> s[k] != CR
  }

  /** Values of the source's types whose lines do not contain the line end. */
  predicate Encodable(v: RespValue) {
    match v
    case Nil => true
    case Int(i) => IsI64(i)
    case Data(data) => |data| < I64_LIMIT
    case Array(items) => |items| < I64_LIMIT && forall x :: x in items ==> Encodable(x)
    case Status(line) => NoCR(line)
    case Error(line) => NoCR(line)
  }

  // ---------------------------------------------------------------- numbers in decimal

  predicate IsDigit(b: byte) {
    48 <= b <= 57
  }

  function Digits(n: nat): (r: Bytes)
    ensures |r| > 0 && forall k :: 0 <= k < |r| ==> IsDigit(r[k])
  {
    var last := [(48 + n % 10) as byte];
    if n < 10 then last else Digits(n / 10) + last
  }

  function Show(i: int): (r: Bytes)
    ensures |r| > 0 && NoCR(r)
  {
    if i < 0 then [MINUS] + Digits(-i) else Digits(i)
  }

  /** The number the digits of s denote, or nothing if s has something else. */
  function Number(s: Bytes): (r: Option<nat>) {
    if s == [] then Some(0)
    else
      var init, last := s[..|s| - 1], s[|s| - 1];
      if !IsDigit(last) || Number(init).None? then None else Some(10 * Number(init).value + (last as int - 48))
  }

  /** Reading an i64: a sign, digits, and no overflow. */
  function ReadInt(s: Bytes): (r: Option<int>) {
    if s == [] then None
    else
      var digits := if s[0] == MINUS || s[0] == PLUS then s[1..] else s;
      if digits == [] || Number(digits).None? then None
      else
        var n: int := Number(digits).value;
        var i := if s[0] == MINUS then -n else n;
        if IsI64(i) then Some(i) else None
  }

  lemma {:induction false} NumberOfDigits(n: nat)
    ensures Number(Digits(n)) == Some(n)
  {
    var d := Digits(n);
    assert d[|d| - 1] == (48 + n % 10) as byte;
    if n < 10 {
      assert d[..|d| - 1] == [];
    } else {
      assert d[..|d| - 1] == Digits(n / 10);
      NumberOfDigits(n / 10);
    }
  }

  lemma ReadsBack(i: int)
    requires IsI64(i)
    ensures ReadInt(Show(i)) == Some(i)
  {
    if i < 0 {
      assert Show(i)[1..] == Digits(-i);
      NumberOfDigits(-i);
    } else {
      NumberOfDigits(i);
      assert IsDigit(Show(i)[0]);
    }
  }

  // ---------------------------------------------------------------- writing

  function Line(prefix: byte, text: Bytes): Bytes {
    [prefix] + text + CRLF
  }

  function Encode(v: RespValue): (r: Bytes) {
    match v
    case Nil => NIL
    case Int(i) => Line(COLON, Show(i))
    case Data(data) => Line(DOLLAR, Show(|data|)) + data + CRLF
    case Array(items) => Line(STAR, Show(|items|)) + EncodeAll(items)
    case Status(line) => Line(PLUS, line)
    case Error(line) => Line(MINUS, line)
  }

  function EncodeAll(vs: seq<RespValue>): (r: Bytes) {
    if vs == [] then [] else Encode(vs[0]) + EncodeAll(vs[1..])
  }

  /** The bytes of a text without any special characters. */
  function Ascii(text: string): Bytes
    requires forall k :: 0 <= k < |text| ==> text[k] as int < 128
  {
    seq(|text|, k requires 0 <= k < |text| => text[k] as int as byte)
  }

  /** What goes over the wire, type by type. */
  lemma OnTheWire(v: RespValue)
    ensures match v
            case Nil => Encode(v) == Ascii("$-1\r\n")
            case Int(i) => Encode(v) == Ascii(":") + Show(i) + Ascii("\r\n")
            case Data(data) => Encode(v) == Ascii("$") + Show(|data|) + Ascii("\r\n") + data + Ascii("\r\n")
            case Array(items) => Encode(v) == Ascii("*") + Show(|items|) + Ascii("\r\n") + EncodeAll(items)
            case Status(line) => Encode(v) == Ascii("+") + line + Ascii("\r\n")
            case Error(line) => Encode(v) == Ascii("-") + line + Ascii("\r\n")
  {
    assert Ascii("\r\n") == CRLF;
  }

  /** The items of an array follow one another. */
  lemma {:induction false} ItemsOnTheWire(vs: seq<RespValue>, ws: seq<RespValue>)
    ensures EncodeAll([]) == [] && EncodeAll(vs + ws) == EncodeAll(vs) + EncodeAll(ws)
    ensures |vs| == 1 ==> EncodeAll(vs) == Encode(vs[0])
  {
    if vs == [] {
      assert vs + ws == ws;
    } else {
      ItemsOnTheWire(vs[1..], ws);
      assert (vs + ws)[1..] == vs[1..] + ws;
    }
  }

  /** Numbers in decimal, with no leading zeros and a sign only if negative. */
  lemma Decimal(i: int)
    ensures 0 <= i < 10 ==> Show(i) == [('0' as int + i) as byte]
    ensures i >= 10 ==> Show(i) == Show(i / 10) + [('0' as int + i % 10) as byte]
    ensures i < 0 ==> Show(i) == Ascii("-") + Show(-i)
  {
  }

  /** A growing output buffer. */
  class Writer {
    var bytes: Bytes

    method SerializeInto(v: RespValue)
      modifies this
      ensures bytes == old(bytes) + Encode(v)
      decreases v
    {
      match v {
        case Nil => bytes := bytes + NIL;
        case Int(i) => bytes := bytes + [COLON] + Show(i) + CRLF;
        case Data(data) => SerializeData(data);
        case Array(items) =>
          bytes := bytes + [STAR] + Show(|items|) + CRLF;
          SerializeAll(items);
        case Status(line) => bytes := bytes + [PLUS] + line + CRLF;
        case Error(line) => bytes := bytes + [MINUS] + line + CRLF;
      }
    }

    method SerializeData(data: Bytes)
      modifies this
      ensures bytes == old(bytes) + Encode(Data(data))
    {
      bytes := bytes + [DOLLAR] + Show(|data|) + CRLF;
      bytes := bytes + data;
      bytes := bytes + CRLF;
    }

    method SerializeAll(items: seq<RespValue>)
      modifies this
      ensures bytes == old(bytes) + EncodeAll(items)
    {
      assert items[..0] == [] && items[..|items|] == items;
      for k := 0 to |items|
        invariant bytes == old(bytes) + EncodeAll(items[..k])
      {
        SerializeInto(items[k]);
        OneMoreItem(old(bytes), items, k);
      }
    }
  }

  lemma {:induction false} EncodeAllJoins(a: seq<RespValue>, b: seq<RespValue>)
    ensures EncodeAll(a + b) == EncodeAll(a) + EncodeAll(b)
  {
    if a == [] {
      assert a + b == b;
    } else {
      assert (a + b)[1..] == a[1..] + b;
      EncodeAllJoins(a[1..], b);
    }
  }

  lemma EncodeAllLast(a: seq<RespValue>, v: RespValue)
    ensures EncodeAll(a + [v]) == EncodeAll(a) + Encode(v)
  {
    EncodeAllJoins(a, [v]);
    assert EncodeAll([v]) == Encode(v);
  }

  lemma OneMoreItem(start: Bytes, items: seq<RespValue>, k: nat)
    requires k < |items|
    ensures start + EncodeAll(items[..k]) + Encode(items[k]) == start + EncodeAll(items[..k + 1])
  {
    EncodeAllLast(items[..k], items[k]);
    assert items[..k + 1] == items[..k] + [items[k]];
  }

  // ---------------------------------------------------------------- reserved space

  /** Thirteen bytes for the line with a length, twenty-three for a number. */
  function SerializedSize(v: RespValue): (r: nat) {
    match v
    case Nil => 5
    case Int(_) => 23
    case Data(data) => 13 + |data| + 2
    case Array(items) => 13 + SerializedSizes(items)
    case Status(line) => 1 + |line| + 2
    case Error(line) => 1 + |line| + 2
  }

  function SerializedSizes(vs: seq<RespValue>): nat {
    if vs == [] then 0 else SerializedSize(vs[0]) + SerializedSizes(vs[1..])
  }

  /** Every length has at most ten digits. */
  predicate Short(v: RespValue) {
    match v
    case Data(data) => |data| < 10_000_000_000
    case Array(items) => |items| < 10_000_000_000 && forall x :: x in items ==> Short(x)
    case _ => true
  }

  function Pow10(k: nat): nat {
    if k == 0 then 1 else 10 * Pow10(k - 1)
  }

  lemma {:induction false} DigitsCount(n: nat, k: nat)
    requires k > 0
    ensures |Digits(n)| <= k <==> n < Pow10(k)
  {
    if n >= 10 && k > 1 {
      DigitsCount(n / 10, k - 1);
    } else if k == 1 {
      assert Pow10(1) == 10;
    } else {
      Pow10Grows(k);
    }
  }

  lemma {:induction false} Pow10Grows(k: nat)
    requires k > 0
    ensures Pow10(k) >= 10
  {
    if k > 1 { Pow10Grows(k - 1); } else { assert Pow10(1) == 10; }
  }

  lemma TenDigits(n: nat)
    ensures |Digits(n)| <= 10 <==> n < 10_000_000_000
  {
    DigitsCount(n, 10);
    assert Pow10(4) == 10_000 && Pow10(7) == 10_000_000 && Pow10(10) == 10_000_000_000;
  }

  lemma NineteenDigits(n: nat)
    ensures |Digits(n)| <= 19 <==> n < 10_000_000_000_000_000_000
  {
    DigitsCount(n, 19);
    assert Pow10(4) == 10_000 && Pow10(7) == 10_000_000 && Pow10(10) == 10_000_000_000;
    assert Pow10(13) == 10_000_000_000_000 && Pow10(16) == 10_000_000_000_000_000;
  }

  /** The space reserved before writing is enough. */
  lemma {:induction false} SizeSuffices(v: RespValue)
    requires Encodable(v) && Short(v)
    ensures |Encode(v)| <= SerializedSize(v)
  {
    match v {
      case Int(i) => NineteenDigits(if i < 0 then -i else i);
      case Data(data) => TenDigits(|data|);
      case Array(items) =>
        TenDigits(|items|);
        SizesSuffice(items);
      case _ =>
    }
  }

  lemma {:induction false} SizesSuffice(vs: seq<RespValue>)
    requires forall x :: x in vs ==> Encodable(x) && Short(x)
    ensures |EncodeAll(vs)| <= SerializedSizes(vs)
  {
    if vs != [] {
      SizeSuffices(vs[0]);
      SizesSuffice(vs[1..]);
    }
  }

  /** And for a bulk string it is only enough then. */
  lemma BulkSizeExact(data: Bytes)
    ensures |Encode(Data(data))| <= SerializedSize(Data(data)) <==> Short(Data(data))
  {
    TenDigits(|data|);
  }
}
