/** Reading RESP values (src/resp.rs:97-108, 182-297). */
module RespParser {
  import opened Basics
  import opened Resp

  datatype RespError = Incomplete | Invalid

  datatype Result<+T> = Ok(value: T) | Err(error: RespError)

  /** A value and the bytes after it, or an error. */
  type Parsed<+T> = Result<(T, Bytes)>

  function ReadWithSeparator(s: Bytes, len: nat): (r: Parsed<Bytes>) {
    if |s| < len + 2 then Err(Incomplete)
    else if s[len..len + 2] != CRLF then Err(Invalid)
    else Ok((s[..len], s[len + 2..]))
  }

  function Position(s: Bytes): (r: nat)
    ensures r <= |s| && NoCR(s[..r]) && (r < |s| ==> s[r] == CR)
  {
    if s == [] || s[0] == CR then 0
    else
      var r := 1 + Position(s[1..]);
      assert s[..r] == [s[0]] + s[1..][..r - 1];
      r
  }

  function ReadLine(s: Bytes): (r: Parsed<Bytes>) {
    if Position(s) == |s| then Err(Incomplete) else ReadWithSeparator(s, Position(s))
  }

  function ReadIntLine(s: Bytes): (r: Parsed<int>) {
    match ReadLine(s)
    case Err(e) => Err(e)
    case Ok((line, rest)) => if ReadInt(line).None? then Err(Invalid) else Ok((ReadInt(line).value, rest))
  }

  function ParseValue(s: Bytes): (r: Parsed<RespValue>)
    ensures r.Ok? ==> |r.value.1| < |s|
    decreases |s|, 0, 0
  {
    if s == [] then Err(Incomplete)
    else
      var rest := s[1..];
      if s[0] == DOLLAR then ParseData(rest)
      else if s[0] == STAR then ParseArray(rest)
      else if s[0] == COLON then
        match ReadIntLine(rest) case Err(e) => Err(e) case Ok((i, after)) => Ok((Int(i), after))
      else if s[0] == PLUS then
        match ReadLine(rest) case Err(e) => Err(e) case Ok((line, after)) => Ok((Status(line), after))
      else if s[0] == MINUS then
        match ReadLine(rest) case Err(e) => Err(e) case Ok((line, after)) => Ok((Error(line), after))
      else if s[0] == CR then
        if rest == [] then Err(Incomplete)
        else if rest[0] == LF then ParseValue(rest[1..])
        else Err(Invalid)
      else Err(Invalid)
  }

  function ParseData(s: Bytes): (r: Parsed<RespValue>)
    ensures r.Ok? ==> |r.value.1| < |s|
  {
    match ReadIntLine(s)
    case Err(e) => Err(e)
    case Ok((length, rest)) =>
      if length < 0 then Ok((Nil, rest))
      else
        match ReadWithSeparator(rest, length) case Err(e) => Err(e) case Ok((data, after)) => Ok((Data(data), after))
  }

  function ParseArray(s: Bytes): (r: Parsed<RespValue>)
    ensures r.Ok? ==> |r.value.1| < |s|
    decreases |s|, 2, 0
  {
    match ReadIntLine(s)
    case Err(e) => Err(e)
    case Ok((length, rest)) =>
      if length < 0 then Ok((Nil, rest))
      else
        match ParseMany(length, rest) case Err(e) => Err(e) case Ok((items, after)) => Ok((Array(items), after))
  }

  function ParseMany(n: nat, s: Bytes): (r: Parsed<seq<RespValue>>)
    ensures r.Ok? ==> |r.value.1| <= |s| && |r.value.0| == n
    decreases |s|, 1, n
  {
    if n == 0 then Ok(([], s))
    else
      match ParseValue(s)
      case Err(e) => Err(e)
      case Ok((v, rest)) =>
        match ParseMany(n - 1, rest) case Err(e) => Err(e) case Ok((vs, after)) => Ok(([v] + vs, after))
  }

  // ---------------------------------------------------------------- the parser works on its body

  /** The method's result and the new body are what the function gives for the old body. */
  ghost predicate Does<T(!new)>(parsed: Parsed<T>, r: Result<T>, body: Bytes) {
    match parsed
    case Err(e) => r == Err(e)
    case Ok((value, rest)) => r == Ok(value) && body == rest
  }

  class Parser {
    var body: Bytes
    var consumed: nat

    constructor (body: Bytes)
      ensures this.body == body && consumed == 0
    {
      this.body, consumed := body, 0;
    }

    /** Counts what was consumed, but only on success. */
    method Parse() returns (r: Result<RespValue>)
      modifies this
      ensures Does(ParseValue(old(body)), r, body)
      ensures consumed == old(consumed) + if r.Ok? then |old(body)| - |body| else 0
    {
      var before := |body|;
      r := Value();
      if r.Ok? {
        consumed := consumed + (before - |body|);
      }
    }

    method ReadByte() returns (r: Result<byte>)
      modifies this`body
      ensures Does(if old(body) == [] then Err(Incomplete) else Ok((old(body)[0], old(body)[1..])), r, body)
    {
      if |body| >= 1 {
        r := Ok(body[0]);
        body := body[1..];
      } else {
        r := Err(Incomplete);
      }
    }

    method Read(len: nat) returns (r: Result<Bytes>)
      modifies this`body
      ensures Does(if |old(body)| < len then Err(Incomplete) else Ok((old(body)[..len], old(body)[len..])), r, body)
    {
      if |body| >= len {
        r := Ok(body[..len]);
        body := body[len..];
      } else {
        r := Err(Incomplete);
      }
    }

    method Separated(len: nat) returns (r: Result<Bytes>)
      modifies this`body
      ensures Does(ReadWithSeparator(old(body), len), r, body)
    {
      r := Read(len + 2);
      if r.Ok? {
        var result := r.value;
        assert result[len..] == old(body)[len..len + 2] && result[..len] == old(body)[..len];
        r := if result[len..] != CRLF then Err(Invalid) else Ok(result[..len]);
      }
    }

    method TextLine() returns (r: Result<Bytes>)
      modifies this`body
      ensures Does(ReadLine(old(body)), r, body)
    {
      var k := 0;
      while k < |body| && body[k] != CR
        invariant k <= |body| && Position(body) == k + Position(body[k..])
      {
        assert body[k..][1..] == body[k + 1..];
        k := k + 1;
      }
      if k == |body| { return Err(Incomplete); }
      r := Separated(k);
    }

    method IntLine() returns (r: Result<int>)
      modifies this`body
      ensures Does(ReadIntLine(old(body)), r, body)
    {
      var line := TextLine();
      if line.Err? { return Err(line.error); }
      var i := ReadInt(line.value);
      r := if i.None? then Err(Invalid) else Ok(i.value);
    }

    method Value() returns (r: Result<RespValue>)
      modifies this`body
      ensures Does(ParseValue(old(body)), r, body)
      decreases |body|, 0
    {
      var prefix := ReadByte();
      if prefix.Err? { return Err(prefix.error); }
      var c := prefix.value;
      if c == DOLLAR {
        r := Bulk();
      } else if c == STAR {
        r := Items();
      } else if c == COLON {
        var i := IntLine();
        r := if i.Ok? then Ok(Int(i.value)) else Err(i.error);
      } else if c == PLUS {
        var line := TextLine();
        r := if line.Ok? then Ok(Status(line.value)) else Err(line.error);
      } else if c == MINUS {
        var line := TextLine();
        r := if line.Ok? then Ok(Error(line.value)) else Err(line.error);
      } else if c == CR {
        var next := ReadByte();
        if next.Err? { return Err(next.error); }
        if next.value != LF { return Err(Invalid); }
        r := Value();
      } else {
        r := Err(Invalid);
      }
    }

    method Bulk() returns (r: Result<RespValue>)
      modifies this`body
      ensures Does(ParseData(old(body)), r, body)
    {
      var length := IntLine();
      if length.Err? { return Err(length.error); }
      if length.value < 0 { return Ok(Nil); }
      var data := Separated(length.value);
      r := if data.Ok? then Ok(Data(data.value)) else Err(data.error);
    }

    method Items() returns (r: Result<RespValue>)
      modifies this`body
      ensures Does(ParseArray(old(body)), r, body)
      decreases |body|, 2
    {
      var length := IntLine();
      if length.Err? { return Err(length.error); }
      if length.value < 0 { return Ok(Nil); }
      var items := Many(length.value);
      r := if items.Ok? then Ok(Array(items.value)) else Err(items.error);
    }

    method Many(length: nat) returns (r: Result<seq<RespValue>>)
      modifies this`body
      ensures Does(ParseMany(length, old(body)), r, body)
      decreases |body|, 1
    {
      var items: seq<RespValue> := [];
      assert forall vs: seq<RespValue> :: [] + vs == vs;
      for k := 0 to length
        invariant |body| <= |old(body)| && |items| == k
        invariant ParseMany(length, old(body)) == Continued(items, ParseMany(length - k, body))
      {
        ghost var was := body;
        var v := Value();
        if v.Err? { return Err(v.error); }
        ContinuedNext(items, length - k, was);
        items := items + [v.value];
      }
      assert items + [] == items;
      r := Ok(items);
    }
  }

  ghost function Continued(items: seq<RespValue>, parsed: Parsed<seq<RespValue>>): Parsed<seq<RespValue>> {
    match parsed
    case Err(e) => Err(e)
    case Ok((vs, rest)) => Ok((items + vs, rest))
  }

  lemma ContinuedNext(items: seq<RespValue>, n: nat, s: Bytes)
    requires n > 0 && ParseValue(s).Ok?
    ensures Continued(items, ParseMany(n, s)) ==
            Continued(items + [ParseValue(s).value.0], ParseMany(n - 1, ParseValue(s).value.1))
  {
    var (v, rest) := ParseValue(s).value;
    if ParseMany(n - 1, rest).Ok? {
      assert items + ([v] + ParseMany(n - 1, rest).value.0) == items + [v] + ParseMany(n - 1, rest).value.0;
    }
  }
}
