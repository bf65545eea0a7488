/** FastCGI records as bytes on a connection: headers, padding and sequences of
    records (FastCGI Specification 1.0, section 3.3). */
module FcgiRecord {
  import opened Basics

  newtype Byte = b: int | 0 <= b < 256
  type Bytes = seq<Byte>

  const HEADER_LEN := 8
  const MAX_LENGTH := 0xffff
  const VERSION_1: Byte := 1

  const BEGIN_REQUEST: Byte := 1
  const END_REQUEST: Byte := 3
  const PARAMS: Byte := 4
  const STDIN: Byte := 5
  const STDOUT: Byte := 6
  const STDERR: Byte := 7

  const NULL_REQUEST_ID := 0
  const REQUEST_COMPLETE: Byte := 0
  const CANT_MPX_CONN: Byte := 1
  const RESPONDER := 1

  /** AlignInt8: the argument is a 32-bit unsigned value, so the sum wraps. */
  function AlignInt8(n: nat): (r: nat)
    requires n < 0x1_0000_0000
    ensures n <= 0xffff_fff8 ==> r % 8 == 0 && n <= r < n + 8
  {
    var u := (n + 7) % 0x1_0000_0000;
    u - u % 8
  }

  /** Copying the next `m` elements behind the first `moved`. */
  lemma NextSlice<T>(start: seq<T>, data: seq<T>, moved: nat, m: nat)
    requires moved + m <= |data|
    ensures (start + data[..moved]) + data[moved..][..m] == start + data[..moved + m]
    ensures data[..|data|] == data
  {
    assert data[..moved] + data[moved..][..m] == data[..moved + m];
    Assoc(start, data[..moved], data[moved..][..m]);
  }

  function Zeros(n: nat): (r: Bytes)
    ensures |r| == n
  {
    seq(n, _ => 0)
  }

  // -------- headers --------

  datatype Header = Header(version: Byte, kind: Byte, id: nat, contentLen: nat, paddingLen: nat)

  /** The two low bytes of a number, most significant first. */
  function WordBytes(n: int): (r: Bytes)
    ensures |r| == 2
  {
    [((n / 256) % 256) as Byte, (n % 256) as Byte]
  }

  function MakeHeader(kind: Byte, id: nat, contentLen: nat, paddingLen: nat): (r: Bytes)
    requires contentLen <= MAX_LENGTH && paddingLen <= 0xff
    ensures |r| == HEADER_LEN
  {
    [VERSION_1, kind] + WordBytes(id) + WordBytes(contentLen) + [paddingLen as Byte, 0]
  }

  function Word(high: Byte, low: Byte): nat { high as int * 256 + low as int }

  function ParseHeader(b: Bytes): Header
    requires |b| == HEADER_LEN
  {
    Header(b[0], b[1], Word(b[2], b[3]), Word(b[4], b[5]), b[6] as int)
  }

  lemma WordRoundTrip(n: nat)
    requires n <= 0xffff
    ensures Word(WordBytes(n)[0], WordBytes(n)[1]) == n
  {
  }

  /** The reader's decoding undoes the writer's encoding for every field that fits. */
  lemma HeaderRoundTrip(kind: Byte, id: nat, contentLen: nat, paddingLen: nat)
    requires id <= 0xffff && contentLen <= MAX_LENGTH && paddingLen <= 0xff
    ensures ParseHeader(MakeHeader(kind, id, contentLen, paddingLen))
         == Header(VERSION_1, kind, id, contentLen, paddingLen)
  {
    WordRoundTrip(id);
    WordRoundTrip(contentLen);
    Slices([VERSION_1, kind], WordBytes(id), WordBytes(contentLen), [paddingLen as Byte, 0]);
    var h := MakeHeader(kind, id, contentLen, paddingLen);
    assert [h[2], h[3]] == h[2..4] && [h[4], h[5]] == h[4..6];
  }

  /** The number that bytes stand for, most significant first. */
  function Big(b: Bytes): nat {
    if b == [] then 0 else Big(b[..|b| - 1]) * 256 + b[|b| - 1] as int
  }

  lemma {:induction false} BigMore(a: Bytes, c: Byte)
    ensures Big(a + [c]) == Big(a) * 256 + c as int && Big([]) == 0
  {
    var b := a + [c];
    assert b != [] && b[|b| - 1] == c && b[..|b| - 1] == a;
  }

  lemma BigAppend(a: Bytes, b: Bytes)
    requires |b| == 2
    ensures Big(a + b) == Big(a) * 0x1_0000 + Big(b)
  {
    hide Big;
    BigMore(a, b[0]);
    BigMore(a + [b[0]], b[1]);
    BigMore([], b[0]);
    BigMore([b[0]], b[1]);
    assert a + b == a + [b[0]] + [b[1]] && [] + [b[0]] == [b[0]] && b == [b[0]] + [b[1]];
  }

  lemma BigWord(n: int)
    ensures Big(WordBytes(n)) == n % 0x1_0000
  {
    hide Big;
    var b := WordBytes(n);
    BigMore([], b[0]);
    BigMore([b[0]], b[1]);
    assert [] + [b[0]] == [b[0]] && b == [b[0]] + [b[1]];
    Low(n);
  }

  lemma Low(n: int)
    ensures n % 0x1_0000 == (n / 256 % 256) * 256 + n % 256
  {
  }

  /** Where the fields of a header are on the wire (section 3.3 of the FastCGI Specification). */
  lemma HeaderLayout(kind: Byte, id: nat, contentLen: nat, paddingLen: nat)
    requires id <= 0xffff && contentLen <= MAX_LENGTH && paddingLen <= 0xff
    ensures var h := MakeHeader(kind, id, contentLen, paddingLen);
      && h[0] == 1 && h[1] == kind && Big(h[2..4]) == id && Big(h[4..6]) == contentLen
      && h[6] as int == paddingLen && h[7] == 0
  {
    hide WordBytes, Big;
    BigWord(id);
    BigWord(contentLen);
    Slices([VERSION_1, kind], WordBytes(id), WordBytes(contentLen), [paddingLen as Byte, 0]);
  }

  lemma Slices(a: Bytes, b: Bytes, c: Bytes, d: Bytes)
    requires |a| == |b| == |c| == |d| == 2
    ensures var h := a + b + c + d;
      && h[0] == a[0] && h[1] == a[1] && h[2..4] == b && h[4..6] == c && h[6] == d[0] && h[7] == d[1]
  {
  }

  // -------- records --------

  datatype Record = Record(kind: Byte, id: nat, content: Bytes, padding: Bytes)

  predicate Fits(r: Record) {
    r.id <= 0xffff && |r.content| <= MAX_LENGTH && |r.padding| <= 0xff
  }

  predicate AllFit(rs: seq<Record>) {
    forall i :: 0 <= i < |rs| ==> Fits(rs[i])
  }

  function Encode(r: Record): Bytes
    requires Fits(r)
  {
    MakeHeader(r.kind, r.id, |r.content|, |r.padding|) + r.content + r.padding
  }

  function EncodeAll(rs: seq<Record>): Bytes
    requires AllFit(rs)
  {
    if rs == [] then [] else Encode(rs[0]) + EncodeAll(rs[1..])
  }

  lemma {:induction false} EncodeAllAppend(a: seq<Record>, b: seq<Record>)
    requires AllFit(a) && AllFit(b)
    ensures AllFit(a + b) && EncodeAll(a + b) == EncodeAll(a) + EncodeAll(b)
  {
    if a == [] {
      assert a + b == b;
    } else {
      EncodeAllAppend(a[1..], b);
      assert (a + b)[0] == a[0] && (a + b)[1..] == a[1..] + b;
      Assoc(Encode(a[0]), EncodeAll(a[1..]), EncodeAll(b));
    }
  }

  // -------- what a sequence of records carries --------

  function OfKind(rs: seq<Record>, kind: Byte): seq<Record> {
    if rs == [] then []
    else (if rs[0].kind == kind then [rs[0]] else []) + OfKind(rs[1..], kind)
  }

  function Contents(rs: seq<Record>): Bytes {
    if rs == [] then [] else rs[0].content + Contents(rs[1..])
  }

  lemma {:induction false} OfKindAppend(a: seq<Record>, b: seq<Record>, kind: Byte)
    ensures OfKind(a + b, kind) == OfKind(a, kind) + OfKind(b, kind)
  {
    if a == [] {
      assert a + b == b;
    } else {
      OfKindAppend(a[1..], b, kind);
      assert (a + b)[0] == a[0] && (a + b)[1..] == a[1..] + b;
      Assoc(if a[0].kind == kind then [a[0]] else [], OfKind(a[1..], kind), OfKind(b, kind));
    }
  }

  lemma {:induction false} ContentsAppend(a: seq<Record>, b: seq<Record>)
    ensures Contents(a + b) == Contents(a) + Contents(b)
  {
    if a == [] {
      assert a + b == b;
    } else {
      ContentsAppend(a[1..], b);
      assert (a + b)[0] == a[0] && (a + b)[1..] == a[1..] + b;
      Assoc(a[0].content, Contents(a[1..]), Contents(b));
    }
  }

  lemma {:induction false} OfKindUniform(rs: seq<Record>, kind: Byte, other: Byte)
    requires forall i :: 0 <= i < |rs| ==> rs[i].kind == kind
    ensures OfKind(rs, other) == if kind == other then rs else []
  {
    if rs != [] {
      OfKindUniform(rs[1..], kind, other);
    }
  }

  // -------- reading a wire back --------

  /** Cuts a wire into records, as section 3.3 of the FastCGI Specification lays them
      out; None when the bytes are not a whole number of version 1 records. */
  function ParseRecords(wire: Bytes): Option<seq<Record>> {
    if wire == [] then Some([])
    else if |wire| < HEADER_LEN then None
    else
      var h := ParseHeader(wire[..HEADER_LEN]);
      var contentEnd := HEADER_LEN + h.contentLen;
      var recordEnd := contentEnd + h.paddingLen;
      if h.version != VERSION_1 || |wire| < recordEnd then None
      else
        match ParseRecords(wire[recordEnd..])
        case None => None
        case Some(rest) =>
          Some([Record(h.kind, h.id, wire[HEADER_LEN..contentEnd], wire[contentEnd..recordEnd])] + rest)
  }

  /** The parts of a record at the start of a wire. */
  lemma EncodedParts(r: Record, rest: Bytes)
    requires Fits(r)
    ensures var wire := Encode(r) + rest;
      var contentEnd := HEADER_LEN + |r.content|;
      var recordEnd := contentEnd + |r.padding|;
      var header := MakeHeader(r.kind, r.id, |r.content|, |r.padding|);
      && |wire| >= recordEnd
      && wire[..HEADER_LEN] == header
      && wire[HEADER_LEN..contentEnd] == r.content
      && wire[contentEnd..recordEnd] == r.padding
      && wire[recordEnd..] == rest
  {
    hide MakeHeader;
    var header := MakeHeader(r.kind, r.id, |r.content|, |r.padding|);
    assert (Encode(r) + rest)[..HEADER_LEN] == header;
  }

  /** Where a record starts, the wire determines it and what follows. */
  lemma RecordDetermined(r: Record, rest: Bytes, r': Record, rest': Bytes)
    requires Fits(r) && Fits(r') && Encode(r) + rest == Encode(r') + rest'
    ensures r == r' && rest == rest'
  {
    hide MakeHeader, ParseHeader;
    EncodedParts(r, rest);
    EncodedParts(r', rest');
    HeaderRoundTrip(r.kind, r.id, |r.content|, |r.padding|);
    HeaderRoundTrip(r'.kind, r'.id, |r'.content|, |r'.padding|);
  }

  lemma ParseFirst(r: Record, rest: Bytes)
    requires Fits(r)
    ensures ParseRecords(Encode(r) + rest) ==
      match ParseRecords(rest) case None => None case Some(rs) => Some([r] + rs)
  {
    hide MakeHeader, ParseHeader, Encode;
    EncodedParts(r, rest);
    HeaderRoundTrip(r.kind, r.id, |r.content|, |r.padding|);
  }

  /** Encoding loses nothing: a wire made of records parses back to exactly them. */
  lemma {:induction false} ParseEncoded(rs: seq<Record>)
    requires AllFit(rs)
    ensures ParseRecords(EncodeAll(rs)) == Some(rs)
  {
    hide Encode, ParseHeader;
    if rs != [] {
      ParseEncoded(rs[1..]);
      ParseFirst(rs[0], EncodeAll(rs[1..]));
      assert rs == [rs[0]] + rs[1..];
    }
  }
}
