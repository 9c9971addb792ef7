/** The one-pass scanner in front of the parser (src/resp.rs:110-180). It guesses how many bytes
    hold complete values, and keeps a single count of values still expected, so the counts of
    outer arrays are forgotten. */
module RespScanner {
  import opened Basics
  import opened Resp
  import opened RespParser

  /** Where a length ends and what it is. */
  datatype Length = LengthAt(i: nat, len: int) | BadDigit

  function ScanLength(buf: Bytes, i: nat, len: int): (r: Length)
    ensures r.LengthAt? ==> r.i >= i
    decreases |buf| - i
  {
    if i >= |buf| then LengthAt(i, len)
    else if IsDigit(buf[i]) then ScanLength(buf, i + 1, len * 10 + (buf[i] as int - 48))
    else if buf[i] == MINUS then LengthAt(i + 2, -1)
    else if buf[i] == CR then LengthAt(i, len)
    else BadDigit
  }

  function SkipLine(buf: Bytes, i: nat): (r: nat)
    ensures r >= i
    decreases |buf| - i
  {
    if i >= |buf| || buf[i] == CR then i else SkipLine(buf, i + 1)
  }

  /** The scan from i on: pending values are expected, and up to valid none is cut. */
  function Scan(buf: Bytes, i: nat, pending: nat, valid: nat): (r: Result<nat>)
    requires valid <= |buf|
    ensures r.Ok? ==> r.value <= |buf|
    decreases |buf| - i, 1
  {
    if i >= |buf| then if valid != 0 then Ok(valid) else Err(Incomplete)
    else if buf[i] == DOLLAR || buf[i] == STAR then
      match ScanLength(buf, i + 1, 0)
      case BadDigit => Err(Invalid)
      case LengthAt(j, len) =>
        if len < 0 then Scanned(buf, j + 2, pending, valid, i)
        else if buf[i] == STAR then Scanned(buf, j + 2, len + 1, valid, i)
        else Scanned(buf, j + 2 + len + 2, pending, valid, i)
    else if buf[i] == COLON || buf[i] == PLUS || buf[i] == MINUS then
      Scanned(buf, SkipLine(buf, i + 1) + 2, pending, valid, i)
    else if buf[i] == CR then Scan(buf, i + 2, pending, valid)
    else Err(Invalid)
  }

  /** One value, begun at start, ends at i. */
  function Scanned(buf: Bytes, i: nat, pending: nat, valid: nat, start: nat): (r: Result<nat>)
    requires valid <= |buf| && start < i && start < |buf|
    ensures r.Ok? ==> r.value <= |buf|
    decreases |buf| - start, 0
  {
    var pending' := Less(pending);
    Scan(buf, i, pending', if pending' == 0 && i <= |buf| then i else valid)
  }

  function Less(pending: nat): nat {
    if pending > 0 then pending - 1 else 0
  }

  function Speculate(buf: Bytes): (r: Result<nat>)
    ensures r.Ok? ==> r.value <= |buf|
  {
    if |buf| < 3 then Err(Incomplete)
    else if buf[|buf| - 2..] == CRLF then Ok(|buf|)
    else Scan(buf, 0, 0, 0)
  }

  /** Input that ends with a line is taken to be complete, whatever it is; less than three bytes never are. */
  lemma SpeculateEnds(buf: Bytes)
    ensures |buf| >= 3 && buf[|buf| - 2] == 13 && buf[|buf| - 1] == 10 ==> Speculate(buf) == Ok(|buf|)
    ensures |buf| < 3 ==> Speculate(buf) == Err(Incomplete)
  {
    if |buf| >= 3 {
      assert buf[|buf| - 2..] == [buf[|buf| - 2], buf[|buf| - 1]];
    }
  }

  method SpeculateBuffer(buf: Bytes) returns (r: Result<nat>)
    ensures r == Speculate(buf)
  {
    if |buf| < 3 { return Err(Incomplete); }
    if buf[|buf| - 2..] == CRLF { return Ok(|buf|); }
    var valid: nat, i: nat, pending: nat := 0, 0, 0;
    while i < |buf|
      invariant valid <= |buf| && Scan(buf, i, pending, valid) == Scan(buf, 0, 0, 0)
    {
      if buf[i] == DOLLAR || buf[i] == STAR {
        var multi := buf[i] == STAR;
        var length := LengthFrom(buf, i + 1);
        if length.BadDigit? { return Err(Invalid); }
        i := length.i;
        if length.len >= 0 {
          if multi {
            pending := length.len + 1;
          } else {
            i := i + 2 + length.len;
          }
        }
      } else if buf[i] == COLON || buf[i] == PLUS || buf[i] == MINUS {
        i := LineFrom(buf, i + 1);
      } else if buf[i] == CR {
        i := i + 2;
        continue;
      } else {
        return Err(Invalid);
      }
      i := i + 2;
      if pending > 0 {
        pending := pending - 1;
      }
      if pending == 0 && i <= |buf| {
        valid := i;
      }
    }
    r := if valid != 0 then Ok(valid) else Err(Incomplete);
  }

  method LengthFrom(buf: Bytes, start: nat) returns (r: Length)
    ensures r == ScanLength(buf, start, 0)
  {
    var i: nat, len: int := start, 0;
    while i < |buf|
      invariant ScanLength(buf, i, len) == ScanLength(buf, start, 0)
    {
      if IsDigit(buf[i]) {
        len := len * 10 + (buf[i] as int - 48);
      } else if buf[i] == MINUS {
        return LengthAt(i + 2, -1);
      } else if buf[i] == CR {
        break;
      } else {
        return BadDigit;
      }
      i := i + 1;
    }
    r := LengthAt(i, len);
  }

  method LineFrom(buf: Bytes, start: nat) returns (i: nat)
    ensures i == SkipLine(buf, start)
  {
    i := start;
    while i < |buf| && buf[i] != CR
      invariant start <= i && SkipLine(buf, i) == SkipLine(buf, start)
    {
      i := i + 1;
    }
  }

  // ---------------------------------------------------------------- scanning what was encoded

  /** buf has e at i, as far as buf goes. */
  ghost predicate Matches(buf: Bytes, i: nat, e: Bytes) {
    forall k {:trigger e[k]} :: 0 <= k < |e| && i + k < |buf| ==> buf[i + k] == e[k]
  }

  lemma MatchesParts(buf: Bytes, i: nat, a: Bytes, b: Bytes)
    requires Matches(buf, i, a + b)
    ensures Matches(buf, i, a) && Matches(buf, i + |a|, b)
  {
    forall k | 0 <= k < |a| && i + k < |buf|
      ensures buf[i + k] == a[k]
    {
      assert (a + b)[k] == a[k];
    }
    forall k | 0 <= k < |b| && i + |a| + k < |buf|
      ensures buf[i + |a| + k] == b[k]
    {
      assert (a + b)[|a| + k] == b[k];
    }
  }

  /** Not an error, and no less than what was valid before. */
  ghost predicate Fine(r: Result<nat>, valid: nat) {
    match r
    case Ok(n) => n >= valid
    case Err(e) => e == Incomplete && valid == 0
  }

  lemma {:induction false} ScansDigits(buf: Bytes, i: nat, s: Bytes, j: nat)
    requires j <= |s| && i + j <= |buf| && Matches(buf, i, s) && forall k :: 0 <= k < |s| ==> IsDigit(s[k])
    ensures Number(s[..j]).Some? && ScanLength(buf, i, 0) == ScanLength(buf, i + j, Number(s[..j]).value)
  {
    if j > 0 {
      ScansDigits(buf, i, s, j - 1);
      assert s[..j][..j - 1] == s[..j - 1] && buf[i + (j - 1)] == s[j - 1];
    }
  }

  /** A length that is all there is found; one that is cut leads past the end. */
  lemma ScansLength(buf: Bytes, i: nat, n: nat)
    requires i <= |buf| && Matches(buf, i, Show(n) + CRLF)
    ensures var r := ScanLength(buf, i, 0);
            && r.LengthAt? && r.len >= 0
            && (if i + |Show(n)| < |buf| then r == LengthAt(i + |Show(n)|, n) else r.i == |buf|)
  {
    var s := Show(n);
    MatchesParts(buf, i, s, CRLF);
    if i + |s| < |buf| {
      ScansDigits(buf, i, s, |s|);
      assert s[..|s|] == s && buf[i + |s|] == CRLF[0];
      NumberOfDigits(n);
    } else {
      ScansDigits(buf, i, s, |buf| - i);
    }
  }

  lemma {:induction false} SkipsLine(buf: Bytes, i: nat, text: Bytes)
    requires i <= |buf| && Matches(buf, i, text + CRLF) && NoCR(text)
    ensures SkipLine(buf, i) == if i + |text| <= |buf| then i + |text| else |buf|
    decreases |text|
  {
    MatchesParts(buf, i, text, CRLF);
    if i < |buf| && text != [] {
      assert text[0] in text && buf[i + 0] == text[0];
      assert text + CRLF == [text[0]] + (text[1..] + CRLF);
      MatchesParts(buf, i, [text[0]], text[1..] + CRLF);
      SkipsLine(buf, i + 1, text[1..]);
    } else if i < |buf| {
      assert buf[i + 0] == CRLF[0];
    }
  }

  /** The pending count and the valid length after the values of vs, complete in buf from i on. */
  ghost predicate Passed(buf: Bytes, i: nat, pending: nat, valid: nat, end: nat, fewer: nat, pending': nat, valid': nat)
    requires valid <= |buf|
  {
    && pending' <= (if pending > fewer then pending - fewer else 0) && valid <= valid' <= end <= |buf|
    && Scan(buf, i, pending, valid) == Scan(buf, end, pending', valid')
  }

  /** After a whole value fewer values are pending than before, and when none is, all up to the end
      of the value is valid. A cut value is no error. */
  lemma {:induction false} ScansValue(v: RespValue, buf: Bytes, i: nat, pending: nat, valid: nat)
    returns (pending': nat, valid': nat)
    requires Encodable(v) && Matches(buf, i, Encode(v)) && valid <= i <= |buf|
    ensures var end := i + |Encode(v)|;
            if end <= |buf| then
              && Passed(buf, i, pending, valid, end, 1, pending', valid')
              && (pending' == 0 ==> valid' == end)
            else Fine(Scan(buf, i, pending, valid), valid)
    decreases v, 1
  {
    pending', valid' := pending, valid;
    if v.Array? {
      var items := v.items;
      var head := Line(STAR, Show(|items|));
      MatchesParts(buf, i, head, EncodeAll(items));
      ScansHead(buf, i, pending, valid, |items|);
      if i + |head| <= |buf| {
        pending', valid' := ScansAll(items, buf, i + |head|, |items|, if items == [] then i + |head| else valid);
      }
    } else {
      var end := i + |Encode(v)|;
      pending' := Less(pending);
      valid' := if pending' == 0 && end <= |buf| then end else valid;
      ScansSimple(v, buf, i, pending, valid);
    }
  }

  lemma ScansSimple(v: RespValue, buf: Bytes, i: nat, pending: nat, valid: nat)
    requires Encodable(v) && !v.Array? && Matches(buf, i, Encode(v)) && valid <= i <= |buf|
    ensures var end := i + |Encode(v)|;
            if end <= |buf| then end > i && Scan(buf, i, pending, valid) == Scanned(buf, end, pending, valid, i)
            else Fine(Scan(buf, i, pending, valid), valid)
  {
    if v.Nil? {
      ScansNil(buf, i, pending, valid);
    } else if v.Data? {
      ScansData(buf, i, pending, valid, v.data);
    } else {
      var prefix := if v.Int? then COLON else if v.Status? then PLUS else MINUS;
      ScansLine(buf, i, pending, valid, prefix, if v.Int? then Show(v.i) else v.line);
    }
  }

  lemma {:induction false} ScansAll(vs: seq<RespValue>, buf: Bytes, i: nat, pending: nat, valid: nat)
    returns (pending': nat, valid': nat)
    requires (forall v :: v in vs ==> Encodable(v)) && Matches(buf, i, EncodeAll(vs)) && valid <= i <= |buf|
    requires vs == [] && pending == 0 ==> valid == i
    ensures var end := i + |EncodeAll(vs)|;
            if end <= |buf| then
              && Passed(buf, i, pending, valid, end, |vs|, pending', valid')
              && (pending' == 0 ==> valid' == end)
            else Fine(Scan(buf, i, pending, valid), valid)
    decreases vs, 0
  {
    pending', valid' := pending, valid;
    if vs != [] {
      var e := Encode(vs[0]);
      MatchesParts(buf, i, e, EncodeAll(vs[1..]));
      pending', valid' := ScansValue(vs[0], buf, i, pending, valid);
      if i + |e| <= |buf| {
        pending', valid' := ScansAll(vs[1..], buf, i + |e|, pending', valid');
      }
    }
  }

  lemma ScanEnds(buf: Bytes, i: nat, pending: nat, valid: nat, start: nat)
    requires valid <= |buf| <= i && start < |buf|
    ensures start < i && Fine(Scanned(buf, i, pending, valid, start), valid)
  {
  }

  lemma ScansNil(buf: Bytes, i: nat, pending: nat, valid: nat)
    requires Matches(buf, i, NIL) && valid <= i <= |buf|
    ensures if i + |NIL| <= |buf| then Scan(buf, i, pending, valid) == Scanned(buf, i + |NIL|, pending, valid, i)
            else Fine(Scan(buf, i, pending, valid), valid)
  {
    if i < |buf| {
      assert buf[i + 0] == NIL[0];
      if i + 1 < |buf| {
        assert buf[i + 1] == NIL[1];
        assert ScanLength(buf, i + 1, 0) == LengthAt(i + 3, -1);
        if i + |NIL| > |buf| { ScanEnds(buf, i + |NIL|, pending, valid, i); }
      } else {
        assert ScanLength(buf, i + 1, 0) == LengthAt(i + 1, 0);
        ScanEnds(buf, i + 5, pending, valid, i);
      }
    }
  }

  lemma ScansLine(buf: Bytes, i: nat, pending: nat, valid: nat, prefix: byte, text: Bytes)
    requires prefix == COLON || prefix == PLUS || prefix == MINUS
    requires NoCR(text) && Matches(buf, i, Line(prefix, text)) && valid <= i <= |buf|
    ensures var end := i + |Line(prefix, text)|;
            if end <= |buf| then Scan(buf, i, pending, valid) == Scanned(buf, end, pending, valid, i)
            else Fine(Scan(buf, i, pending, valid), valid)
  {
    if i < |buf| {
      assert Line(prefix, text) == [prefix] + (text + CRLF);
      MatchesParts(buf, i, [prefix], text + CRLF);
      assert buf[i + 0] == [prefix][0];
      SkipsLine(buf, i + 1, text);
      if i + |Line(prefix, text)| > |buf| { ScanEnds(buf, SkipLine(buf, i + 1) + 2, pending, valid, i); }
    }
  }

  lemma ScansMulti(buf: Bytes, i: nat, pending: nat, valid: nat, length: Length)
    requires valid <= |buf| && i < |buf| && buf[i] == STAR
    requires length == ScanLength(buf, i + 1, 0) && length.LengthAt? && length.len >= 0
    ensures Scan(buf, i, pending, valid) == Scanned(buf, length.i + 2, length.len + 1, valid, i)
  {
  }

  lemma ScansHead(buf: Bytes, i: nat, pending: nat, valid: nat, n: nat)
    requires Matches(buf, i, Line(STAR, Show(n))) && valid <= i <= |buf|
    ensures var end := i + |Line(STAR, Show(n))|;
            if end <= |buf| then Scan(buf, i, pending, valid) == Scan(buf, end, n, if n == 0 then end else valid)
            else Fine(Scan(buf, i, pending, valid), valid)
  {
    if i < |buf| {
      assert Line(STAR, Show(n)) == [STAR] + (Show(n) + CRLF);
      MatchesParts(buf, i, [STAR], Show(n) + CRLF);
      assert buf[i + 0] == [STAR][0];
      ScansLength(buf, i + 1, n);
      var length := ScanLength(buf, i + 1, 0);
      ScansMulti(buf, i, pending, valid, length);
      if i + |Line(STAR, Show(n))| > |buf| { ScanEnds(buf, length.i + 2, length.len + 1, valid, i); }
    }
  }

  lemma ScansData(buf: Bytes, i: nat, pending: nat, valid: nat, data: Bytes)
    requires Matches(buf, i, Encode(Data(data))) && valid <= i <= |buf|
    ensures var end := i + |Encode(Data(data))|;
            if end <= |buf| then Scan(buf, i, pending, valid) == Scanned(buf, end, pending, valid, i)
            else Fine(Scan(buf, i, pending, valid), valid)
  {
    if i < |buf| {
      var s := Show(|data|);
      assert Encode(Data(data)) == [DOLLAR] + ((s + CRLF) + (data + CRLF));
      MatchesParts(buf, i, [DOLLAR], (s + CRLF) + (data + CRLF));
      MatchesParts(buf, i + 1, s + CRLF, data + CRLF);
      assert buf[i + 0] == [DOLLAR][0];
      ScansLength(buf, i + 1, |data|);
      var length := ScanLength(buf, i + 1, 0);
      assert Scan(buf, i, pending, valid) == Scanned(buf, length.i + 2 + length.len + 2, pending, valid, i);
      if i + |Encode(Data(data))| > |buf| { ScanEnds(buf, length.i + 2 + length.len + 2, pending, valid, i); }
    }
  }

  lemma ScansStream(vs: seq<RespValue>, buf: Bytes)
    requires (forall v :: v in vs ==> Encodable(v)) && Matches(buf, 0, EncodeAll(vs)) && |buf| <= |EncodeAll(vs)| && vs != []
    ensures Fine(Scan(buf, 0, 0, 0), if |Encode(vs[0])| <= |buf| then |Encode(vs[0])| else 0)
  {
    MatchesParts(buf, 0, Encode(vs[0]), EncodeAll(vs[1..]));
    ScansFirst(vs[0], vs[1..], buf);
  }

  lemma ScansFirst(v: RespValue, rest: seq<RespValue>, buf: Bytes)
    requires Encodable(v) && (forall x :: x in rest ==> Encodable(x)) && |buf| <= |Encode(v)| + |EncodeAll(rest)|
    requires Matches(buf, 0, Encode(v)) && Matches(buf, |Encode(v)|, EncodeAll(rest))
    ensures Fine(Scan(buf, 0, 0, 0), if |Encode(v)| <= |buf| then |Encode(v)| else 0)
  {
    var pending, valid := ScansValue(v, buf, 0, 0, 0);
    if |Encode(v)| <= |buf| {
      ScansRest(rest, buf, |Encode(v)|);
    }
  }

  lemma ScansRest(rest: seq<RespValue>, buf: Bytes, i: nat)
    requires (forall x :: x in rest ==> Encodable(x)) && Matches(buf, i, EncodeAll(rest))
    requires i <= |buf| <= i + |EncodeAll(rest)|
    ensures Fine(Scan(buf, i, 0, i), i)
  {
    var pending, valid := ScansAll(rest, buf, i, 0, i);
  }

  /** On any cut of a stream of values the scanner reports no error, and at least the first value
      once it is all there. */
  lemma SpeculatesStream(vs: seq<RespValue>, buf: Bytes)
    requires (forall v :: v in vs ==> Encodable(v)) && buf <= EncodeAll(vs)
    ensures Speculate(buf) != Err(Invalid)
    ensures vs != [] && |Encode(vs[0])| <= |buf| ==> Speculate(buf).Ok? && |Encode(vs[0])| <= Speculate(buf).value
  {
    if vs != [] {
      ScansStream(vs, buf);
      AtLeastThree(vs[0]);
    }
  }

  lemma AtLeastThree(v: RespValue)
    ensures |Encode(v)| >= 3
  {
  }
}
