/** Name-value pairs (FastCGI Specification 1.0, section 3.4): how the web server's
    side encodes its environment, how the application's side decodes it into a
    growing vector of strings, and looking a name up in that vector. */
module FcgiParams {
  import opened Basics
  import opened FcgiRecord
  import opened FcgiReader

  const PARAMS_ERROR := -4
  const EQUALS: Byte := 61

  // -------- the encoding --------

  /** A length takes one byte below 128 and four bytes from there on. */
  function LengthBytes(n: nat): (r: Bytes)
    requires n < 0x8000_0000
    ensures |r| == if n < 0x80 then 1 else 4
  {
    if n < 0x80 then [n as Byte]
    else [(n / 0x100_0000 + 0x80) as Byte, ((n / 0x1_0000) % 256) as Byte] + WordBytes(n)
  }

  /** A long length stands in its four bytes with the highest bit set. */
  lemma LengthLayout(n: nat)
    requires n < 0x8000_0000
    ensures var b := LengthBytes(n);
      if n < 0x80 then b == [n as Byte] else |b| == 4 && Big(b) == n + 0x8000_0000
  {
    hide Big;
    if n >= 0x80 {
      var high := n / 0x1_0000 + 0x8000;
      LongLength(n, high);
      HighBit(n);
      BigAppend(WordBytes(high), WordBytes(n));
      BigWord(high);
      BigWord(n);
    }
  }

  lemma LongLength(n: nat, high: nat)
    requires 0x80 <= n < 0x8000_0000 && high == n / 0x1_0000 + 0x8000
    ensures LengthBytes(n) == WordBytes(high) + WordBytes(n)
  {
    HighBytes(n, high);
    var b := WordBytes(high);
    assert b == [b[0], b[1]];
  }

  lemma HighBytes(n: nat, high: nat)
    requires n < 0x8000_0000 && high == n / 0x1_0000 + 0x8000
    ensures high / 256 % 256 == n / 0x100_0000 + 0x80 && high % 256 == n / 0x1_0000 % 256
  {
    var h := n / 0x1_0000;
    assert h / 256 == n / 0x100_0000;
  }

  lemma HighBit(n: nat)
    requires n < 0x8000_0000
    ensures var high := n / 0x1_0000 + 0x8000;
      high < 0x1_0000 && high * 0x1_0000 + n % 0x1_0000 == n + 0x8000_0000
  {
  }

  predicate Short(b: Bytes) { |b| < 0x8000_0000 }

  datatype Pair = Pair(name: Bytes, value: Bytes)

  predicate AllShort(ps: seq<Pair>) {
    forall i :: 0 <= i < |ps| ==> Short(ps[i].name) && Short(ps[i].value)
  }

  function EncodePair(p: Pair): Bytes
    requires Short(p.name) && Short(p.value)
  {
    LengthBytes(|p.name|) + LengthBytes(|p.value|) + p.name + p.value
  }

  function EncodePairs(ps: seq<Pair>): Bytes
    requires AllShort(ps)
  {
    if ps == [] then [] else EncodePair(ps[0]) + EncodePairs(ps[1..])
  }

  /** The form in which the application's environment holds a pair. */
  function Entry(p: Pair): Bytes { p.name + [EQUALS] + p.value }

  function Entries(ps: seq<Pair>): (r: seq<Bytes>)
    ensures |r| == |ps|
  {
    if ps == [] then [] else [Entry(ps[0])] + Entries(ps[1..])
  }

  /** Fills the buffer through an advancing position. */
  method BuildNameValueHeader(nameLen: nat, valueLen: nat, headerBuff: array<Byte>) returns (headerLen: nat)
    requires nameLen < 0x8000_0000 && valueLen < 0x8000_0000 && headerBuff.Length == 8
    modifies headerBuff
    ensures headerLen <= 8
    ensures headerBuff[..headerLen] == LengthBytes(nameLen) + LengthBytes(valueLen)
  {
    var next := 0;
    if nameLen < 0x80 {
      headerBuff[next] := nameLen as Byte;
      next := next + 1;
    } else {
      headerBuff[next] := (nameLen / 0x100_0000 + 0x80) as Byte;
      headerBuff[next + 1] := ((nameLen / 0x1_0000) % 256) as Byte;
      headerBuff[next + 2] := ((nameLen / 0x100) % 256) as Byte;
      headerBuff[next + 3] := (nameLen % 256) as Byte;
      next := next + 4;
    }
    assert headerBuff[..next] == LengthBytes(nameLen);
    if valueLen < 0x80 {
      headerBuff[next] := valueLen as Byte;
      next := next + 1;
    } else {
      headerBuff[next] := (valueLen / 0x100_0000 + 0x80) as Byte;
      headerBuff[next + 1] := ((valueLen / 0x1_0000) % 256) as Byte;
      headerBuff[next + 2] := ((valueLen / 0x100) % 256) as Byte;
      headerBuff[next + 3] := (valueLen % 256) as Byte;
      next := next + 4;
    }
    assert headerBuff[next - |LengthBytes(valueLen)|..next] == LengthBytes(valueLen);
    return next;
  }

  // -------- the decoding --------

  datatype Length = TooShort | Length(value: nat, size: nat)

  function TakeLength(b: Bytes): (r: Length)
    ensures r.Length? ==> 0 < r.size <= |b|
  {
    if b == [] then TooShort
    else if b[0] < 0x80 then Length(b[0] as int, 1)
    else if |b| < 4 then TooShort
    else Length((b[0] as int - 0x80) * 0x100_0000 + b[1] as int * 0x1_0000 + Word(b[2], b[3]), 4)
  }

  /** What a stream of pairs starts with. */
  datatype Front = Nothing | Broken | Front(entry: Bytes, rest: Bytes)

  function First(b: Bytes): (r: Front)
    ensures r.Front? ==> |r.rest| < |b|
    ensures r.Nothing? <==> b == []
  {
    if b == [] then Nothing
    else
      match TakeLength(b)
      case TooShort => Broken
      case Length(nameLen, size) =>
        var b' := b[size..];
        match TakeLength(b')
        case TooShort => Broken
        case Length(valueLen, size') =>
          var body := b'[size'..];
          if |body| < nameLen + valueLen then Broken
          else Front(body[..nameLen] + [EQUALS] + body[nameLen..nameLen + valueLen], body[nameLen + valueLen..])
  }

  /** The entries that can be read off, and whether the bytes end with the last. */
  datatype Decoded = Decoded(entries: seq<Bytes>, ok: bool)

  function Decode(b: Bytes): Decoded
    decreases |b|
  {
    match First(b)
    case Nothing => Decoded([], true)
    case Broken => Decoded([], false)
    case Front(entry, rest) => Decoded([entry] + Decode(rest).entries, Decode(rest).ok)
  }

  lemma Digits(n: nat)
    ensures n == (n / 0x100_0000) * 0x100_0000 + (n / 0x1_0000 % 256) * 0x1_0000 + (n / 256 % 256) * 256 + n % 256
  {
    var a := n / 256;
    var b := a / 256;
    assert n / 0x1_0000 == b && n / 0x100_0000 == b / 256;
  }

  lemma LengthRoundTrip(n: nat, rest: Bytes)
    requires n < 0x8000_0000
    ensures TakeLength(LengthBytes(n) + rest) == Length(n, |LengthBytes(n)|)
  {
    var b := LengthBytes(n) + rest;
    if n >= 0x80 {
      Digits(n);
      var low := WordBytes(n);
      assert b[2] == low[0] && b[3] == low[1];
    }
  }

  /** Decoding recovers every pair that was encoded, in order. */
  lemma {:induction false} PairsRoundTrip(ps: seq<Pair>)
    requires AllShort(ps)
    ensures Decode(EncodePairs(ps)) == Decoded(Entries(ps), true)
  {
    if ps != [] {
      PairsRoundTrip(ps[1..]);
      FirstEncoded(ps[0], EncodePairs(ps[1..]));
    }
  }

  lemma FirstEncoded(p: Pair, rest: Bytes)
    requires Short(p.name) && Short(p.value)
    ensures First(EncodePair(p) + rest) == Front(Entry(p), rest)
  {
    hide LengthBytes, TakeLength;
    var n, v := LengthBytes(|p.name|), LengthBytes(|p.value|);
    var body := p.name + (p.value + rest);
    Assoc(n + v + p.name, p.value, rest);
    Assoc(n + v, p.name, p.value + rest);
    Assoc(n, v, body);
    LengthRoundTrip(|p.name|, v + body);
    LengthRoundTrip(|p.value|, body);
    Parts(n, v + body);
    Parts(v, body);
    Parts(p.name, p.value + rest);
    Parts(p.value, rest);
    assert body[|p.name| + |p.value|..] == body[|p.name|..][|p.value|..];
    assert body[|p.name|..|p.name| + |p.value|] == body[|p.name|..][..|p.value|];
  }

  // -------- the vector of parameters --------

  /** A growing vector of strings, closed by a null entry. */
  class Params {
    var vec: array<Option<Bytes>>
    var length: nat
    var cur: nat

    ghost predicate Valid()
      reads this, vec
    {
      && 0 < length == vec.Length && cur < length
      && (forall i :: 0 <= i < cur ==> vec[i].Some?) && vec[cur] == None
    }

    ghost function Contents(): (r: seq<Bytes>)
      requires Valid()
      reads this, vec
      ensures |r| == cur
    {
      seq(cur, i requires 0 <= i < cur reads this, vec requires Valid() => vec[i].value)
    }

    constructor (length: nat)
      requires length > 0
      ensures Valid() && fresh(vec) && Contents() == []
    {
      this.length := length;
      vec := new Option<Bytes>[length](_ => None);
      cur := 0;
    }

    /** PutParam: appends, doubling the vector when it is full. */
    method Put(nameValue: Bytes)
      requires Valid()
      modifies this, vec
      ensures Valid() && (vec == old(vec) || fresh(vec))
      ensures Contents() == old(Contents()) + [nameValue]
    {
      vec[cur] := Some(nameValue);
      cur := cur + 1;
      if cur >= length {
        length := length * 2;
        var grown := new Option<Bytes>[length](_ => None);
        forall i | 0 <= i < cur {
          grown[i] := vec[i];
        }
        vec := grown;
      }
      vec[cur] := None;
    }

    /** FCGX_GetParam: the value of the first entry that starts with the name and '='. */
    method GetParam(name: Bytes) returns (value: Option<Bytes>)
      requires Valid()
      ensures value == Lookup(Contents(), name)
    {
      var p := 0;
      while vec[p].Some?
        invariant 0 <= p <= cur
        invariant Lookup(Contents(), name) == Lookup(Contents()[p..], name)
        decreases cur - p
      {
        var e := vec[p].value;
        assert Contents()[p..][0] == e && Contents()[p..][1..] == Contents()[p + 1..];
        if Binds(e, name) {
          return Some(e[|name| + 1..]);
        }
        p := p + 1;
      }
      return None;
    }
  }

  predicate Binds(entry: Bytes, name: Bytes) {
    |entry| > |name| && entry[..|name|] == name && entry[|name|] == EQUALS
  }

  function Lookup(entries: seq<Bytes>, name: Bytes): Option<Bytes> {
    if entries == [] then None
    else if Binds(entries[0], name) then Some(entries[0][|name| + 1..])
    else Lookup(entries[1..], name)
  }

  /** Where the names have no '=', looking up a name gives the value of the first pair
      with that name. */
  lemma {:induction false} LookupEntries(ps: seq<Pair>, name: Bytes)
    requires EQUALS !in name && forall i :: 0 <= i < |ps| ==> EQUALS !in ps[i].name
    ensures Lookup(Entries(ps), name) == FirstValue(ps, name)
  {
    if ps != [] {
      LookupEntries(ps[1..], name);
      var p := ps[0];
      var e := Entry(p);
      assert e[|p.name|] == EQUALS && e[|p.name| + 1..] == p.value;
      assert forall i :: 0 <= i < |p.name| ==> e[i] == p.name[i] && e[i] != EQUALS;
      if Binds(e, name) {
        assert forall i :: 0 <= i < |name| ==> e[i] == name[i] && e[i] != EQUALS;
        assert |name| == |p.name|;
      }
    }
  }

  function FirstValue(ps: seq<Pair>, name: Bytes): Option<Bytes> {
    if ps == [] then None
    else if ps[0].name == name then Some(ps[0].value)
    else FirstValue(ps[1..], name)
  }

  // -------- reading the parameters of a request --------

  /** What is left for a reader's client. */
  ghost function Left(r: Reader): Bytes
    requires r.Valid()
    reads r, r.buff
  {
    r.Ahead().content
  }

  /** `GetStr` in the middle of a longer reading, of which `taken` has been taken. */
  method Fetch(r: Reader, n: nat, ghost o: Outcome, ghost replies0: Bytes, ghost taken: Bytes) returns (str: Bytes)
    requires Open(r) && r.Follows(o, replies0, taken)
    modifies r, r.buff
    ensures Open(r) && r.requestId == old(r.requestId) && r.Follows(o, replies0, taken + str)
    ensures |str| == Min(n, |old(Left(r))|) && old(Left(r)) == str + Left(r)
    ensures |str| < n ==> r.isClosed
  {
    hide Run;
    str := r.GetStr(n);
    Assoc(taken, str, Left(r));
  }

  method FetchChar(r: Reader, ghost o: Outcome, ghost replies0: Bytes, ghost taken: Bytes) returns (c: int)
    requires Open(r) && r.Follows(o, replies0, taken)
    modifies r, r.buff
    ensures Open(r) && r.requestId == old(r.requestId) && (c == EOF || 0 <= c < 256)
    ensures var str := if c == EOF then [] else [c as Byte];
      r.Follows(o, replies0, taken + str) && old(Left(r)) == str + Left(r)
    ensures c == EOF <==> old(Left(r)) == []
    ensures c == EOF ==> r.isClosed
  {
    hide Run;
    c := r.GetChar();
    Assoc(taken, if c == EOF then [] else [c as Byte], Left(r));
  }

  ghost predicate Open(r: Reader) reads r { r.Valid() && !r.eorStop && r.isBeginProcessed }

  lemma OneByte(first: Byte, rest: Bytes)
    requires first < 0x80
    ensures TakeLength([first] + rest) == Length(first as int, 1) && ([first] + rest)[1..] == rest
  {
  }

  lemma FourBytes(first: Byte, low: Bytes, rest: Bytes)
    requires first >= 0x80 && |low| <= 3 && (|low| < 3 ==> rest == [])
    ensures var b := [first] + (low + rest);
      if |low| < 3 then TakeLength(b) == TooShort
      else
        && TakeLength(b)
           == Length((first as int - 0x80) * 0x100_0000 + low[0] as int * 0x1_0000 + Word(low[1], low[2]), 4)
        && b[4..] == rest
  {
    var b := [first] + (low + rest);
    assert forall i :: 0 <= i < |low| ==> b[i + 1] == low[i];
    if |low| == 3 {
      assert b == [first] + low + rest;
    }
  }

  /** Reads a length of one or four bytes; EOF when there is not even the first byte,
      PARAMS_ERROR when there are not the others. */
  method ReadLength(r: Reader, ghost o: Outcome, ghost replies0: Bytes, ghost taken: Bytes)
    returns (len: int, ghost taken': Bytes)
    requires Open(r) && r.Follows(o, replies0, taken)
    modifies r, r.buff
    ensures Open(r) && r.requestId == old(r.requestId)
    ensures match TakeLength(old(Left(r)))
      case TooShort =>
        && r.isClosed
        && (if old(Left(r)) == [] then len == EOF && r.Follows(o, replies0, taken) && Left(r) == []
            else len == PARAMS_ERROR && r.fcgiErrno != 0)
      case Length(n, size) =>
        len == n && Left(r) == old(Left(r))[size..] && r.Follows(o, replies0, taken')
  {
    hide Run, TakeLength, Word;
    ghost var b := Left(r);
    len := FetchChar(r, o, replies0, taken);
    taken' := taken + if len == EOF then [] else [len as Byte];
    if len == EOF {
      assert taken + [] == taken;
      NoLength();
      return;
    }
    ghost var first := len as Byte;
    if len < 0x80 {
      OneByte(first, Left(r));
      return;
    }
    var lenBuff := Fetch(r, 3, o, replies0, taken');
    FourBytes(first, lenBuff, Left(r));
    if |lenBuff| != 3 {
      r.SetError(PARAMS_ERROR);
      return PARAMS_ERROR, taken';
    }
    taken' := taken' + lenBuff;
    len := (len - 0x80) * 0x100_0000 + lenBuff[0] as int * 0x1_0000 + Word(lenBuff[1], lenBuff[2]);
  }

  lemma NoLength()
    ensures TakeLength([]) == TooShort
  {
  }

  /** Reads one pair, or finds the end of the stream or of sense. */
  method ReadPair(r: Reader, ghost o: Outcome, ghost replies0: Bytes, ghost taken: Bytes)
    returns (status: int, nameValue: Bytes, ghost taken': Bytes)
    requires Open(r) && r.Follows(o, replies0, taken)
    modifies r, r.buff
    ensures Open(r) && r.requestId == old(r.requestId)
    ensures match First(old(Left(r)))
      case Nothing => status == 0 && r.isClosed && r.Follows(o, replies0, taken) && Left(r) == []
      case Broken => status == -1 && r.isClosed && r.fcgiErrno != 0
      case Front(entry, rest) =>
        status == 1 && nameValue == entry && Left(r) == rest && r.Follows(o, replies0, taken')
  {
    hide Run, TakeLength, Left;
    nameValue := [];
    var nameLen;
    nameLen, taken' := ReadLength(r, o, replies0, taken);
    if nameLen < 0 {
      return if nameLen == EOF then 0 else -1, [], taken';
    }
    var valueLen;
    valueLen, taken' := ReadLength(r, o, replies0, taken');
    if valueLen < 0 {
      r.SetError(PARAMS_ERROR);
      return -1, [], taken';
    }
    status, nameValue, taken' := ReadEntry(nameLen, valueLen, r, o, replies0, taken');
  }

  method ReadEntry(nameLen: nat, valueLen: nat, r: Reader, ghost o: Outcome, ghost replies0: Bytes, ghost taken: Bytes)
    returns (status: int, nameValue: Bytes, ghost taken': Bytes)
    requires Open(r) && r.Follows(o, replies0, taken)
    modifies r, r.buff
    ensures Open(r) && r.requestId == old(r.requestId)
    ensures var body := old(Left(r));
      if |body| < nameLen + valueLen then status == -1 && r.isClosed && r.fcgiErrno != 0
      else
        && status == 1 && nameValue == body[..nameLen] + [EQUALS] + body[nameLen..nameLen + valueLen]
        && Left(r) == body[nameLen + valueLen..] && r.Follows(o, replies0, taken')
  {
    hide Run;
    var name := Fetch(r, nameLen, o, replies0, taken);
    taken' := taken + name;
    if |name| != nameLen {
      r.SetError(PARAMS_ERROR);
      return -1, [], taken';
    }
    var value := Fetch(r, valueLen, o, replies0, taken');
    taken' := taken' + value;
    if |value| != valueLen {
      r.SetError(PARAMS_ERROR);
      return -1, [], taken';
    }
    return 1, name + [EQUALS] + value, taken';
  }

  /** ReadParams: 0 when what there is ends behind a pair, -1 with an error otherwise.
      Whether it ended with the end of the stream only the stream's error tells. */
  method ReadParams(params: Params, r: Reader) returns (status: int)
    requires params.Valid() && Open(r)
    modifies params, params.vec, r, r.buff
    ensures params.Valid() && (params.vec == old(params.vec) || fresh(params.vec))
    ensures params.Contents() == old(params.Contents()) + Decode(old(Left(r))).entries
    ensures status == if Decode(old(Left(r))).ok then 0 else -1
    ensures Open(r) && r.isClosed && r.requestId == old(r.requestId)
    ensures status == 0 ==> r.Follows(old(r.Ahead()), old(r.replies), old(Left(r)))
    ensures status == 0 && !old(r.Ahead()).end.Began? ==>
      old(r.Ahead()).end == if r.fcgiErrno == 0 then EndOfStream else Failed(r.fcgiErrno)
    ensures status == -1 ==> r.fcgiErrno != 0
  {
    hide Run, First;
    ghost var o, replies0, taken: Bytes := r.Ahead(), r.replies, [];
    ghost var entries: seq<Bytes> := [];
    assert [] + o.content == o.content;
    assert entries + Decode(Left(r)).entries == Decode(Left(r)).entries;
    while true
      invariant params.Valid() && (params.vec == old(params.vec) || fresh(params.vec))
      invariant Open(r) && r.requestId == old(r.requestId) && r.Follows(o, replies0, taken)
      invariant params.Contents() == old(params.Contents()) + entries
      invariant Decode(o.content).ok == Decode(Left(r)).ok
      invariant Decode(o.content).entries == entries + Decode(Left(r)).entries
      decreases |Left(r)|
    {
      ghost var later := Decode(Left(r)).entries;
      var nameValue;
      status, nameValue, taken := ReadPair(r, o, replies0, taken);
      if status != 1 {
        return;
      }
      params.Put(nameValue);
      Assoc(entries, [nameValue], Decode(Left(r)).entries);
      Assoc(old(params.Contents()), entries, [nameValue]);
      entries := entries + [nameValue];
    }
  }
}
