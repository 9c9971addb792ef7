/** What the parser accepts, whoever wrote it (src/resp.rs:186-297): exactly the inputs below, with any way
    to write a number, a Nil as a bulk string or an array of negative length, and empty lines in between. */
module RespGrammar {
  import opened Basics
  import opened Resp
  import opened RespParser
  import opened RespStream

  /** s writes v. */
  ghost predicate Wire(s: Bytes, v: RespValue)
    decreases |s|, 0, 0
  {
    (|s| >= 2 && s[..2] == CRLF && Wire(s[2..], v)) || (s != [] && Written(s[0], s[1..], v))
  }

  ghost predicate Written(tag: byte, s: Bytes, v: RespValue)
    decreases |s|, 2, 0
  {
    match v
    case Nil => (tag == '$' as int as byte || tag == '*' as int as byte) && exists num :: IsNegative(num) && s == num + CRLF
    case Int(i) => tag == ':' as int as byte && exists num :: ReadInt(num) == Some(i) && s == num + CRLF
    case Data(data) =>
      tag == '$' as int as byte && exists num :: ReadInt(num) == Some(|data|) && s == num + CRLF + data + CRLF
    case Array(items) =>
      tag == '*' as int as byte &&
      exists num: Bytes :: ReadInt(num) == Some(|items|) && num + CRLF <= s && Wires(s[|num| + 2..], items)
    case Status(line) => tag == '+' as int as byte && NoCR(line) && s == line + CRLF
    case Error(line) => tag == '-' as int as byte && NoCR(line) && s == line + CRLF
  }

  ghost predicate IsNegative(num: Bytes) {
    ReadInt(num).Some? && ReadInt(num).value < 0
  }

  /** s writes the values one after the other. */
  ghost predicate Wires(s: Bytes, vs: seq<RespValue>)
    decreases |s|, 1, |vs|
  {
    if vs == [] then s == []
    else exists k :: 0 <= k <= |s| && Wire(s[..k], vs[0]) && Wires(s[k..], vs[1..])
  }

  // ---------------------------------------------------------------- numbers

  lemma {:induction false} NumberNoCR(s: Bytes)
    requires Number(s).Some?
    ensures NoCR(s)
  {
    if s != [] {
      NumberNoCR(s[..|s| - 1]);
    }
  }

  lemma ReadIntNoCR(s: Bytes)
    requires ReadInt(s).Some?
    ensures NoCR(s)
  {
    var digits := if s[0] == MINUS || s[0] == PLUS then s[1..] else s;
    NumberNoCR(digits);
    assert forall k :: 0 < k < |s| ==> s[k] == s[1..][k - 1];
  }

  /** A sign or none, at least one digit, nothing else, and no overflow. */
  lemma SignsRead(sign: byte, s: Bytes)
    requires sign == PLUS || sign == MINUS
    ensures var n: int := if Number(s).None? then 0 else Number(s).value;
            var i := if sign == '-' as int as byte then -n else n;
            ReadInt([sign] + s) == if s == [] || Number(s).None? || !IsI64(i) then None else Some(i)
  {
    assert ([sign] + s)[1..] == s;
  }

  lemma UnsignedRead(s: Bytes)
    requires s == [] || (s[0] != '+' as int as byte && s[0] != '-' as int as byte)
    ensures ReadInt(s) == if s == [] || Number(s).None? || !IsI64(Number(s).value) then None else Some(Number(s).value)
  {
  }

  // ---------------------------------------------------------------- lines

  lemma LineSound(s: Bytes)
    requires ReadLine(s).Ok?
    ensures var (line, rest) := ReadLine(s).value; NoCR(line) && s == line + CRLF + rest
  {
    var p := Position(s);
    assert s == s[..p] + s[p..p + 2] + s[p + 2..];
  }

  lemma IntLineSound(s: Bytes) returns (num: Bytes)
    requires ReadIntLine(s).Ok?
    ensures var (i, rest) := ReadIntLine(s).value; ReadInt(num) == Some(i) && s == num + CRLF + rest
  {
    LineSound(s);
    num := ReadLine(s).value.0;
  }

  lemma IntLineComplete(num: Bytes, rest: Bytes)
    requires ReadInt(num).Some?
    ensures ReadIntLine(num + CRLF + rest) == Ok((ReadInt(num).value, rest))
  {
    ReadIntNoCR(num);
    LineReads(num, rest);
  }

  // ---------------------------------------------------------------- what is accepted is written

  /** The part of s before rest. */
  function Before(s: Bytes, rest: Bytes): Bytes
    requires |rest| <= |s|
  {
    s[..|s| - |rest|]
  }

  lemma BeforeIs(p: Bytes, rest: Bytes)
    ensures Before(p + rest, rest) == p
  {
  }

  lemma DataSound(s: Bytes)
    requires ParseData(s).Ok?
    ensures var (v, rest) := ParseData(s).value; s == Before(s, rest) + rest && Written('$' as int as byte, Before(s, rest), v)
  {
    var num := IntLineSound(s);
    var (length, after) := ReadIntLine(s).value;
    var (v, rest) := ParseData(s).value;
    if length < 0 {
      BeforeIs(num + CRLF, rest);
      assert IsNegative(num);
    } else {
      assert after == v.data + CRLF + rest;
      assert s == (num + CRLF + v.data + CRLF) + rest;
      BeforeIs(num + CRLF + v.data + CRLF, rest);
    }
  }

  lemma IntSound(s: Bytes)
    requires ReadIntLine(s).Ok?
    ensures var (i, rest) := ReadIntLine(s).value;
            |rest| <= |s| && s == Before(s, rest) + rest && Written(':' as int as byte, Before(s, rest), Int(i))
  {
    var num := IntLineSound(s);
    BeforeIs(num + CRLF, ReadIntLine(s).value.1);
  }

  lemma TextSound(s: Bytes)
    requires ReadLine(s).Ok?
    ensures var (line, rest) := ReadLine(s).value;
            && |rest| <= |s| && s == Before(s, rest) + rest && Written('+' as int as byte, Before(s, rest), Status(line))
            && Written('-' as int as byte, Before(s, rest), Error(line))
  {
    LineSound(s);
    BeforeIs(ReadLine(s).value.0 + CRLF, ReadLine(s).value.1);
  }

  lemma TagFirst(s: Bytes, v: RespValue, rest: Bytes)
    requires s != [] && |rest| <= |s| - 1 && s[1..] == Before(s[1..], rest) + rest && Written(s[0], Before(s[1..], rest), v)
    ensures s == Before(s, rest) + rest && Wire(Before(s, rest), v)
  {
    assert Before(s, rest)[1..] == Before(s[1..], rest) && Before(s, rest)[0] == s[0];
  }

  lemma EmptyLineFirst(s: Bytes, v: RespValue, rest: Bytes)
    requires |s| >= 2 && s[0] == CR && s[1] == LF
    requires |rest| <= |s| - 2 && s[2..] == Before(s[2..], rest) + rest && Wire(Before(s[2..], rest), v)
    ensures s == Before(s, rest) + rest && Wire(Before(s, rest), v)
  {
    var p := Before(s, rest);
    assert p[..2] == CRLF && p[2..] == Before(s[2..], rest);
  }

  lemma DropTwo(s: Bytes)
    requires |s| >= 2
    ensures s[1..][1..] == s[2..] && s[1..][0] == s[1]
  {
  }

  lemma EmptyLineRead(s: Bytes)
    requires s != [] && s[0] == CR
    ensures |s| >= 2 && s[1] == LF ==> ParseValue(s) == ParseValue(s[2..])
    ensures ParseValue(s).Ok? ==> |s| >= 2 && s[1] == LF
  {
    if |s| >= 2 { DropTwo(s); }
  }

  lemma {:induction false} Sound(s: Bytes)
    requires ParseValue(s).Ok?
    ensures var (v, rest) := ParseValue(s).value; s == Before(s, rest) + rest && Wire(Before(s, rest), v)
    decreases |s|, 0, 0
  {
    var (v, rest) := ParseValue(s).value;
    if s[0] == CR {
      EmptyLineRead(s);
      Sound(s[2..]);
      EmptyLineFirst(s, v, rest);
    } else {
      TaggedSound(s);
      TagFirst(s, v, rest);
    }
  }

  lemma {:induction false} TaggedSound(s: Bytes)
    requires s != [] && s[0] != CR && ParseValue(s).Ok?
    ensures var (v, rest) := ParseValue(s).value;
            |rest| <= |s| - 1 && s[1..] == Before(s[1..], rest) + rest && Written(s[0], Before(s[1..], rest), v)
    decreases |s| - 1, 3, 0
  {
    if s[0] == DOLLAR {
      DataSound(s[1..]);
    } else if s[0] == STAR {
      ArraySound(s[1..]);
    } else if s[0] == COLON {
      IntSound(s[1..]);
    } else {
      TextSound(s[1..]);
    }
  }

  lemma {:induction false} ArraySound(s: Bytes)
    requires ParseArray(s).Ok?
    ensures var (v, rest) := ParseArray(s).value; s == Before(s, rest) + rest && Written('*' as int as byte, Before(s, rest), v)
    decreases |s|, 2, 0
  {
    var num := IntLineSound(s);
    var (length, after) := ReadIntLine(s).value;
    var (v, rest) := ParseArray(s).value;
    if length < 0 {
      BeforeIs(num + CRLF, rest);
      assert IsNegative(num);
    } else {
      ManySound(length, after);
      assert s == (num + CRLF + Before(after, rest)) + rest;
      BeforeIs(num + CRLF + Before(after, rest), rest);
      assert Before(s, rest)[|num| + 2..] == Before(after, rest);
    }
  }

  lemma {:induction false} ManySound(n: nat, s: Bytes)
    requires ParseMany(n, s).Ok?
    ensures var (vs, rest) := ParseMany(n, s).value; s == Before(s, rest) + rest && Wires(Before(s, rest), vs)
    decreases |s|, 1, n
  {
    var (vs, rest) := ParseMany(n, s).value;
    if n > 0 {
      var (v, after) := ParseValue(s).value;
      Sound(s);
      ManySound(n - 1, after);
      OneMore(s, v, after, ParseMany(n - 1, after).value.0, rest);
    }
  }

  lemma OneMore(s: Bytes, v: RespValue, after: Bytes, vs: seq<RespValue>, rest: Bytes)
    requires |rest| <= |after| <= |s| && s == Before(s, after) + after && after == Before(after, rest) + rest
    requires Wire(Before(s, after), v) && Wires(Before(after, rest), vs)
    ensures s == Before(s, rest) + rest && Wires(Before(s, rest), [v] + vs)
  {
    CutTwice(s, after, rest);
    WiresOneMore(Before(s, rest), |s| - |after|, v, vs);
  }

  lemma WiresOneMore(p: Bytes, k: nat, v: RespValue, vs: seq<RespValue>)
    requires k <= |p| && Wire(p[..k], v) && Wires(p[k..], vs)
    ensures Wires(p, [v] + vs)
  {
    assert ([v] + vs)[1..] == vs;
  }

  lemma CutTwice(s: Bytes, after: Bytes, rest: Bytes)
    requires |rest| <= |after| <= |s| && s == Before(s, after) + after && after == Before(after, rest) + rest
    ensures s == Before(s, rest) + rest
    ensures Before(s, rest)[..|s| - |after|] == Before(s, after) && Before(s, rest)[|s| - |after|..] == Before(after, rest)
  {
    assert s == Before(s, after) + Before(after, rest) + rest;
  }

  // ---------------------------------------------------------------- what is written is accepted

  lemma {:induction false} Complete(p: Bytes, v: RespValue, rest: Bytes)
    requires Wire(p, v)
    ensures ParseValue(p + rest) == Ok((v, rest))
    decreases |p|, 0, 0
  {
    var s := p + rest;
    if |p| >= 2 && p[..2] == CRLF && Wire(p[2..], v) {
      Complete(p[2..], v, rest);
      HeadFirst(CRLF, p, rest);
      assert s[2..] == p[2..] + rest;
      EmptyLineRead(s);
    } else {
      WrittenComplete(p[0], p[1..], v, rest);
      HeadFirst([p[0]], p, rest);
    }
  }

  lemma {:induction false} WrittenComplete(tag: byte, p: Bytes, v: RespValue, rest: Bytes)
    requires Written(tag, p, v)
    ensures ParseValue([tag] + (p + rest)) == Ok((v, rest))
    decreases |p|, 2, 0
  {
    assert ([tag] + (p + rest))[1..] == p + rest;
    match v {
      case Nil =>
        var num :| IsNegative(num) && p == num + CRLF;
        IntLineComplete(num, rest);
      case Int(i) =>
        var num :| ReadInt(num) == Some(i) && p == num + CRLF;
        IntLineComplete(num, rest);
      case Data(data) => DataComplete(p, data, rest);
      case Array(items) => ArrayComplete(p, items, rest);
      case Status(line) => LineReads(line, rest);
      case Error(line) => LineReads(line, rest);
    }
  }

  lemma DataComplete(p: Bytes, data: Bytes, rest: Bytes)
    requires Written(DOLLAR, p, Data(data))
    ensures ParseData(p + rest) == Ok((Data(data), rest))
  {
    var num: Bytes :| ReadInt(num) == Some(|data|) && p == num + CRLF + data + CRLF;
    var after := data + CRLF + rest;
    assert p[|num| + 2..] == data + CRLF;
    HeadFirst(num + CRLF, p, rest);
    IntLineComplete(num, after);
    assert after[|data|..|data| + 2] == CRLF && after[..|data|] == data && after[|data| + 2..] == rest;
  }

  lemma {:induction false} ArrayComplete(p: Bytes, items: seq<RespValue>, rest: Bytes)
    requires Written(STAR, p, Array(items))
    ensures ParseArray(p + rest) == Ok((Array(items), rest))
    decreases |p|, 1, |items| + 1
  {
    var num: Bytes :| ReadInt(num) == Some(|items|) && num + CRLF <= p && Wires(p[|num| + 2..], items);
    var body := p[|num| + 2..];
    HeadFirst(num + CRLF, p, rest);
    IntLineComplete(num, body + rest);
    ManyComplete(body, items, rest);
  }

  lemma HeadFirst(head: Bytes, p: Bytes, rest: Bytes)
    requires head <= p
    ensures p + rest == head + (p[|head|..] + rest)
  {
  }

  lemma Rejoined(p: Bytes, k: nat, rest: Bytes)
    requires k <= |p|
    ensures p[..k] + (p[k..] + rest) == p + rest
  {
  }

  lemma {:induction false} ManyComplete(p: Bytes, vs: seq<RespValue>, rest: Bytes)
    requires Wires(p, vs)
    ensures ParseMany(|vs|, p + rest) == Ok((vs, rest))
    decreases |p|, 1, |vs|
  {
    if vs == [] {
      assert p + rest == rest;
    } else {
      var k :| 0 <= k <= |p| && Wire(p[..k], vs[0]) && Wires(p[k..], vs[1..]);
      Complete(p[..k], vs[0], p[k..] + rest);
      ManyComplete(p[k..], vs[1..], rest);
      Rejoined(p, k, rest);
      assert [vs[0]] + vs[1..] == vs;
    }
  }

  /** The parser accepts exactly what is written so, and gives back exactly what comes after. */
  lemma ParsesIff(s: Bytes, v: RespValue, rest: Bytes)
    ensures ParseValue(s) == Ok((v, rest)) <==> |rest| <= |s| && s == Before(s, rest) + rest && Wire(Before(s, rest), v)
  {
    if ParseValue(s) == Ok((v, rest)) {
      Sound(s);
    } else if |rest| <= |s| && s == Before(s, rest) + rest && Wire(Before(s, rest), v) {
      Complete(Before(s, rest), v, rest);
    }
  }
}
