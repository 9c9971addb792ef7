/** Decoding a stream that arrives in pieces (src/server.rs:22-51). */
module RespStream {
  import opened Basics
  import opened Resp
  import opened RespParser
  import opened RespScanner

  // ---------------------------------------------------------------- reading back lines

  lemma {:induction false} PositionOf(text: Bytes, s: Bytes)
    requires NoCR(text) && text <= s && (|text| < |s| ==> s[|text|] == CR)
    ensures Position(s) == |text|
  {
    if text != [] {
      assert s[0] == text[0];
      PositionOf(text[1..], s[1..]);
    }
  }

  lemma LineReads(text: Bytes, rest: Bytes)
    requires NoCR(text)
    ensures ReadLine(text + CRLF + rest) == Ok((text, rest))
  {
    var s := text + CRLF + rest;
    PositionOf(text, s);
    assert s[..|text|] == text && s[|text|..|text| + 2] == CRLF && s[|text| + 2..] == rest;
  }

  lemma LineCut(text: Bytes, k: nat)
    requires NoCR(text) && k < |text + CRLF|
    ensures ReadLine((text + CRLF)[..k]) == Err(Incomplete)
  {
    var s := (text + CRLF)[..k];
    if k <= |text| {
      assert s == text[..k];
      PositionOf(s, s);
    } else {
      PositionOf(text, s);
    }
  }

  // ---------------------------------------------------------------- reading back values

  lemma ParsesInt(i: int, rest: Bytes)
    requires IsI64(i)
    ensures ReadIntLine(Show(i) + CRLF + rest) == Ok((i, rest))
  {
    LineReads(Show(i), rest);
    ReadsBack(i);
  }

  lemma ParsesNil(rest: Bytes)
    ensures ParseValue(Encode(Nil) + rest) == Ok((Nil, rest))
  {
    assert Show(-1) == [45, 49];
    assert (Encode(Nil) + rest)[1..] == Show(-1) + CRLF + rest;
    ParsesInt(-1, rest);
  }

  lemma ParsesBulk(data: Bytes, rest: Bytes)
    requires |data| < I64_LIMIT
    ensures ParseValue(Encode(Data(data)) + rest) == Ok((Data(data), rest))
  {
    var after := data + CRLF + rest;
    assert (Encode(Data(data)) + rest)[1..] == Show(|data|) + CRLF + after;
    ParsesInt(|data|, after);
    assert after[|data|..|data| + 2] == CRLF && after[..|data|] == data && after[|data| + 2..] == rest;
  }

  lemma {:induction false} ParsesEncoded(v: RespValue, rest: Bytes)
    requires Encodable(v)
    ensures ParseValue(Encode(v) + rest) == Ok((v, rest))
    decreases v, 1
  {
    match v {
      case Nil => ParsesNil(rest);
      case Data(data) => ParsesBulk(data, rest);
      case Array(items) => ParsesItems(items, rest);
      case Int(i) =>
        assert (Encode(v) + rest)[1..] == Show(i) + CRLF + rest;
        ParsesInt(i, rest);
      case Status(line) =>
        assert (Encode(v) + rest)[1..] == line + CRLF + rest;
        LineReads(line, rest);
      case Error(line) =>
        assert (Encode(v) + rest)[1..] == line + CRLF + rest;
        LineReads(line, rest);
    }
  }

  lemma {:induction false} ParsesItems(items: seq<RespValue>, rest: Bytes)
    requires Encodable(Array(items))
    ensures ParseValue(Encode(Array(items)) + rest) == Ok((Array(items), rest))
    decreases items, 1
  {
    var after := EncodeAll(items) + rest;
    assert (Encode(Array(items)) + rest)[1..] == Show(|items|) + CRLF + after;
    ParsesInt(|items|, after);
    ParsesAll(items, rest);
  }

  lemma {:induction false} ParsesAll(vs: seq<RespValue>, rest: Bytes)
    requires forall v :: v in vs ==> Encodable(v)
    ensures ParseMany(|vs|, EncodeAll(vs) + rest) == Ok((vs, rest))
    decreases vs, 0
  {
    if vs == [] {
      assert EncodeAll(vs) + rest == rest;
    } else {
      var after := EncodeAll(vs[1..]) + rest;
      Associative(Encode(vs[0]), EncodeAll(vs[1..]), rest);
      ParsesEncoded(vs[0], after);
      ParsesAll(vs[1..], rest);
      assert [vs[0]] + vs[1..] == vs;
    }
  }

  lemma {:induction false} ParsedIsEncodable(s: Bytes)
    requires ParseValue(s).Ok?
    ensures Encodable(ParseValue(s).value.0)
    decreases |s|, 1, 0
  {
    if s[0] == CR {
      ParsedIsEncodable(s[2..]);
    } else if s[0] == STAR {
      var (n, rest) := ReadIntLine(s[1..]).value;
      if n >= 0 { ManyAreEncodable(n, rest); }
    }
  }

  lemma {:induction false} ManyAreEncodable(n: nat, s: Bytes)
    requires ParseMany(n, s).Ok?
    ensures forall v :: v in ParseMany(n, s).value.0 ==> Encodable(v)
    decreases |s|, 2, n
  {
    if n > 0 {
      ParsedIsEncodable(s);
      ManyAreEncodable(n - 1, ParseValue(s).value.1);
    }
  }

  /** Exactly the encodable values are read back as they were written. */
  lemma RoundTripIff(v: RespValue)
    ensures ParseValue(Encode(v)) == Ok((v, [])) <==> Encodable(v)
  {
    if Encodable(v) {
      ParsesEncoded(v, []);
      assert Encode(v) + [] == Encode(v);
    } else if ParseValue(Encode(v)).Ok? {
      ParsedIsEncodable(Encode(v));
    }
  }

  /** A cut value is incomplete, never invalid. */
  lemma {:induction false} ParsesCut(v: RespValue, k: nat)
    requires Encodable(v) && k < |Encode(v)|
    ensures ParseValue(Encode(v)[..k]) == Err(Incomplete)
    decreases v, 1
  {
    if k > 0 {
      match v {
        case Nil =>
          assert Show(-1) == [45, 49];
          CutLine(v, Show(-1), k);
        case Int(i) => CutLine(v, Show(i), k);
        case Data(data) => CutData(data, k);
        case Array(items) => CutArray(items, k);
        case Status(line) => CutLine(v, line, k);
        case Error(line) => CutLine(v, line, k);
      }
    }
  }

  lemma CutLine(v: RespValue, text: Bytes, k: nat)
    requires Encode(v) == Line(Encode(v)[0], text) && NoCR(text) && 0 < k < |Encode(v)|
    ensures ReadLine(Encode(v)[..k][1..]) == Err(Incomplete)
  {
    assert Encode(v)[..k][1..] == (text + CRLF)[..k - 1];
    LineCut(text, k - 1);
  }

  lemma CutData(data: Bytes, k: nat)
    requires Encodable(Data(data)) && 0 < k < |Encode(Data(data))|
    ensures ParseData(Encode(Data(data))[..k][1..]) == Err(Incomplete)
  {
    var n, s := Show(|data|), Encode(Data(data))[..k][1..];
    if k - 1 < |n + CRLF| {
      assert s == (n + CRLF)[..k - 1];
      LineCut(n, k - 1);
    } else {
      var after := (data + CRLF)[..k - 1 - |n + CRLF|];
      assert s == n + CRLF + after;
      LineReads(n, after);
      ReadsBack(|data|);
    }
  }

  lemma {:induction false} CutArray(items: seq<RespValue>, k: nat)
    requires Encodable(Array(items)) && 0 < k < |Encode(Array(items))|
    ensures ParseArray(Encode(Array(items))[..k][1..]) == Err(Incomplete)
    decreases items, 1
  {
    var n, s := Show(|items|), Encode(Array(items))[..k][1..];
    if k - 1 < |n + CRLF| {
      assert s == (n + CRLF)[..k - 1];
      LineCut(n, k - 1);
    } else {
      var after := EncodeAll(items)[..k - 1 - |n + CRLF|];
      assert s == n + CRLF + after;
      LineReads(n, after);
      ReadsBack(|items|);
      CutAll(items, |after|);
    }
  }

  lemma {:induction false} CutAll(vs: seq<RespValue>, k: nat)
    requires (forall v :: v in vs ==> Encodable(v)) && k < |EncodeAll(vs)|
    ensures ParseMany(|vs|, EncodeAll(vs)[..k]) == Err(Incomplete)
    decreases vs, 0
  {
    var e := Encode(vs[0]);
    if k < |e| {
      assert EncodeAll(vs)[..k] == e[..k];
      ParsesCut(vs[0], k);
    } else {
      var after := EncodeAll(vs[1..])[..k - |e|];
      assert EncodeAll(vs)[..k] == e + after;
      ParsesEncoded(vs[0], after);
      CutAll(vs[1..], k - |e|);
    }
  }

  // ---------------------------------------------------------------- the decoder

  /** A value and how many bytes it took, not enough bytes, or an error. */
  datatype Decoded = Got(value: RespValue, consumed: nat) | NeedMore | Bad

  function Decode(buf: Bytes): (r: Decoded)
    ensures r.Got? ==> 0 < r.consumed <= |buf|
  {
    match Speculate(buf)
    case Err(e) => if e == Incomplete then NeedMore else Bad
    case Ok(n) =>
      match ParseValue(buf[..n])
      case Err(e) => if e == Incomplete then NeedMore else Bad
      case Ok((v, rest)) => Got(v, n - |rest|)
  }

  /** The codec takes what it decoded off the front of its buffer. */
  class RespCodec {
    var src: Bytes

    method DecodeNext() returns (r: Decoded)
      modifies this
      ensures r == Decode(old(src)) && src == old(src)[if r.Got? then r.consumed else 0..]
    {
      var n := SpeculateBuffer(src);
      if n.Err? { return if n.error == Incomplete then NeedMore else Bad; }
      var p := new Parser(src[..n.value]);
      var v := p.Parse();
      if v.Err? { return if v.error == Incomplete then NeedMore else Bad; }
      r := Got(v.value, p.consumed);
      src := src[p.consumed..];
    }

    /** Decoding until more bytes are needed, as the framed reader does. */
    method DecodeAll() returns (vs: seq<RespValue>, ok: bool)
      modifies this
      ensures Drained(vs, src, ok) == Drain(old(src))
      decreases |src|
    {
      vs := [];
      while true
        invariant Drain(old(src)) == Before(vs, Drain(src))
        decreases |src|
      {
        ghost var was := src;
        var r := DecodeNext();
        if !r.Got? {
          return vs, r.NeedMore?;
        }
        BeforeNext(vs, was);
        vs := vs + [r.value];
      }
    }
  }

  /** What comes out of a buffer, what is left in it, and whether there was no error. */
  datatype Drained = Drained(values: seq<RespValue>, rest: Bytes, ok: bool)

  function Before(vs: seq<RespValue>, d: Drained): Drained {
    Drained(vs + d.values, d.rest, d.ok)
  }

  function Drain(buf: Bytes): (r: Drained)
    decreases |buf|
  {
    match Decode(buf)
    case NeedMore => Drained([], buf, true)
    case Bad => Drained([], buf, false)
    case Got(v, consumed) => Before([v], Drain(buf[consumed..]))
  }

  lemma BeforeNext(vs: seq<RespValue>, buf: Bytes)
    requires Decode(buf).Got?
    ensures Before(vs, Drain(buf)) == Before(vs + [Decode(buf).value], Drain(buf[Decode(buf).consumed..]))
  {
    var d := Drain(buf[Decode(buf).consumed..]);
    assert vs + ([Decode(buf).value] + d.values) == vs + [Decode(buf).value] + d.values;
  }

  /** Chunk after chunk is added to the buffer, and the buffer drained. */
  function Feed(buf: Bytes, chunks: seq<Bytes>): (r: Drained)
    decreases |chunks|
  {
    if chunks == [] then Drained([], buf, true)
    else
      var d := Drain(buf + chunks[0]);
      if d.ok then Before(d.values, Feed(d.rest, chunks[1..])) else d
  }

  function Flatten(chunks: seq<Bytes>): Bytes {
    if chunks == [] then [] else chunks[0] + Flatten(chunks[1..])
  }

  // ---------------------------------------------------------------- chunks do not matter

  lemma DecodesNext(vs: seq<RespValue>, buf: Bytes)
    requires (forall v :: v in vs ==> Encodable(v)) && buf <= EncodeAll(vs)
    ensures Decode(buf) == if vs != [] && |Encode(vs[0])| <= |buf| then Got(vs[0], |Encode(vs[0])|) else NeedMore
  {
    SpeculatesStream(vs, buf);
    if vs != [] && Speculate(buf).Ok? {
      var n, e := Speculate(buf).value, Encode(vs[0]);
      if |e| <= |buf| {
        assert buf[..n] == e + buf[|e|..n];
        ParsesEncoded(vs[0], buf[|e|..n]);
      } else {
        assert buf[..n] == e[..n];
        ParsesCut(vs[0], n);
      }
    }
  }

  /** From any cut of a stream exactly the complete values come out, and the cut one stays. */
  lemma {:induction false} Drains(vs: seq<RespValue>, buf: Bytes) returns (k: nat)
    requires (forall v :: v in vs ==> Encodable(v)) && buf <= EncodeAll(vs)
    ensures k <= |vs| && EncodeAll(vs[..k]) <= buf
    ensures Drain(buf) == Drained(vs[..k], buf[|EncodeAll(vs[..k])|..], true)
    ensures k < |vs| ==> |buf| < |EncodeAll(vs[..k])| + |Encode(vs[k])|
    decreases |vs|
  {
    DecodesNext(vs, buf);
    if vs != [] && |Encode(vs[0])| <= |buf| {
      k := Drains(vs[1..], buf[|Encode(vs[0])|..]);
      DrainsOneMore(vs, buf, k);
      k := k + 1;
    } else {
      k := 0;
    }
  }

  lemma DrainsOneMore(vs: seq<RespValue>, buf: Bytes, k: nat)
    requires vs != [] && k < |vs| && Encode(vs[0]) <= buf
    requires EncodeAll(vs[1..][..k]) <= buf[|Encode(vs[0])|..]
    ensures vs[..k + 1] == [vs[0]] + vs[1..][..k] && EncodeAll(vs[..k + 1]) <= buf
    ensures |EncodeAll(vs[..k + 1])| == |Encode(vs[0])| + |EncodeAll(vs[1..][..k])|
    ensures buf[|EncodeAll(vs[..k + 1])|..] == buf[|Encode(vs[0])|..][|EncodeAll(vs[1..][..k])|..]
  {
    assert vs[..k + 1][1..] == vs[1..][..k];
    assert EncodeAll(vs[..k + 1]) == Encode(vs[0]) + EncodeAll(vs[1..][..k]);
  }

  lemma {:induction false} FeedsStream(vs: seq<RespValue>, buf: Bytes, chunks: seq<Bytes>)
    requires (forall v :: v in vs ==> Encodable(v)) && buf + Flatten(chunks) == EncodeAll(vs)
    requires vs != [] ==> |buf| < |Encode(vs[0])|
    ensures Feed(buf, chunks) == Drained(vs, [], true)
    decreases |chunks|
  {
    if chunks == [] {
      AllDone(vs, buf);
    } else {
      var k, rest := FeedsOne(vs, buf, chunks);
      FeedsStream(vs[k..], rest, chunks[1..]);
      Joined(Feed(buf, chunks), Feed(rest, chunks[1..]), vs, k);
    }
  }

  lemma Joined(all: Drained, more: Drained, vs: seq<RespValue>, k: nat)
    requires k <= |vs| && all == Before(vs[..k], more) && more == Drained(vs[k..], [], true)
    ensures all == Drained(vs, [], true)
  {
    assert vs[..k] + vs[k..] == vs;
  }

  lemma AllDone(vs: seq<RespValue>, buf: Bytes)
    requires buf + Flatten([]) == EncodeAll(vs) && (vs != [] ==> |buf| < |Encode(vs[0])|)
    ensures vs == [] && buf == []
  {
    assert buf + Flatten([]) == buf;
  }

  /** One chunk gives some of the values, and the rest of the stream is as before. */
  lemma FeedsOne(vs: seq<RespValue>, buf: Bytes, chunks: seq<Bytes>) returns (k: nat, rest: Bytes)
    requires (forall v :: v in vs ==> Encodable(v)) && buf + Flatten(chunks) == EncodeAll(vs) && chunks != []
    ensures k <= |vs| && rest + Flatten(chunks[1..]) == EncodeAll(vs[k..])
    ensures vs[k..] != [] ==> |rest| < |Encode(vs[k..][0])|
    ensures Feed(buf, chunks) == Before(vs[..k], Feed(rest, chunks[1..]))
  {
    var s := buf + chunks[0];
    FlattenFirst(buf, chunks);
    k := Drains(vs, s);
    rest := s[|EncodeAll(vs[..k])|..];
    LeftOver(vs, k, s, Flatten(chunks[1..]));
  }

  lemma FlattenFirst(buf: Bytes, chunks: seq<Bytes>)
    requires chunks != []
    ensures buf + chunks[0] + Flatten(chunks[1..]) == buf + Flatten(chunks)
    ensures buf + chunks[0] <= buf + Flatten(chunks)
  {
    Associative(buf, chunks[0], Flatten(chunks[1..]));
  }

  lemma LeftOver(vs: seq<RespValue>, k: nat, s: Bytes, more: Bytes)
    requires k <= |vs| && s + more == EncodeAll(vs) && EncodeAll(vs[..k]) <= s
    ensures s[|EncodeAll(vs[..k])|..] + more == EncodeAll(vs[k..])
  {
    assert vs == vs[..k] + vs[k..];
    EncodeAllJoins(vs[..k], vs[k..]);
    var n := |EncodeAll(vs[..k])|;
    assert (s + more)[n..] == s[n..] + more;
  }

  /** However the encoding of values is cut into chunks, decoding gives those values back. */
  lemma ChunksDoNotMatter(vs: seq<RespValue>, chunks: seq<Bytes>)
    requires (forall v :: v in vs ==> Encodable(v)) && Flatten(chunks) == EncodeAll(vs)
    ensures Feed([], chunks) == Drained(vs, [], true)
  {
    if vs != [] {
      AtLeastThree(vs[0]);
    }
    FeedsStream(vs, [], chunks);
  }
}
