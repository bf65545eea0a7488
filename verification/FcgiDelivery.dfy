/** What a client reads from a connection that carries whole records, whatever the
    sizes of the reads. */
module FcgiDelivery {
  import opened Basics
  import opened FcgiRecord
  import opened FcgiReader

  /** A record of the reader's own stream, as opposed to another request's, or an attempt
      to start one. */
  predicate Own(r: Record, id: nat) { r.kind != BEGIN_REQUEST && r.id == id }

  /** A record that is not part of the management of the connection. */
  predicate Unmanaged(r: Record) { Fits(r) && (r.id == NULL_REQUEST_ID ==> r.kind == BEGIN_REQUEST) }

  predicate AllUnmanaged(rs: seq<Record>) {
    forall i :: 0 <= i < |rs| ==> Unmanaged(rs[i])
  }

  /** A record that a reader of `kind` records takes for an error: the start of a request
      that is malformed, or an own record of another kind. */
  predicate Bad(r: Record, id: nat, kind: Byte) {
    if r.kind == BEGIN_REQUEST then r.id == NULL_REQUEST_ID || |r.content| != 8
    else r.id == id && r.kind != kind
  }

  /** The records before the first bad one. */
  function Good(rs: seq<Record>, id: nat, kind: Byte): (r: seq<Record>)
    ensures r <= rs
    ensures |r| < |rs| ==> Bad(rs[|r|], id, kind)
    ensures forall i :: 0 <= i < |r| ==> !Bad(r[i], id, kind)
  {
    if rs == [] || Bad(rs[0], id, kind) then [] else [rs[0]] + Good(rs[1..], id, kind)
  }

  lemma {:induction false} GoodAll(rs: seq<Record>, id: nat, kind: Byte)
    requires forall i :: 0 <= i < |rs| ==> !Bad(rs[i], id, kind)
    ensures Good(rs, id, kind) == rs
  {
    if rs != [] {
      GoodAll(rs[1..], id, kind);
      assert rs == [rs[0]] + rs[1..];
    }
  }

  // -------- the specification --------

  /** The contents of the own records up to the first empty one. */
  function OwnContents(rs: seq<Record>, id: nat): Bytes {
    if rs == [] then []
    else if !Own(rs[0], id) then OwnContents(rs[1..], id)
    else if rs[0].content == [] then []
    else rs[0].content + OwnContents(rs[1..], id)
  }

  /** The number of records up to and including the first empty own one, or None. */
  function EndAt(rs: seq<Record>, id: nat): (r: Option<nat>)
    ensures r.Some? ==>
      && 0 < r.value <= |rs| && Own(rs[r.value - 1], id) && rs[r.value - 1].content == []
      && forall i :: 0 <= i < r.value - 1 ==> !(Own(rs[i], id) && rs[i].content == [])
    ensures r.None? ==> forall i :: 0 <= i < |rs| ==> !(Own(rs[i], id) && rs[i].content == [])
  {
    if rs == [] then None
    else if Own(rs[0], id) && rs[0].content == [] then Some(1)
    else match EndAt(rs[1..], id)
      case None => None
      case Some(n) => Some(n + 1)
  }

  function Refusals(rs: seq<Record>): Bytes {
    if rs == [] then []
    else (if rs[0].kind == BEGIN_REQUEST then CantMultiplex(rs[0].id) else []) + Refusals(rs[1..])
  }

  // -------- what the code does --------

  /** The contents delivered: an empty record of another stream leaves `skip` set, so
      the content of the next record is passed over, whosever it is. */
  function Delivered(rs: seq<Record>, id: nat, skip: bool): Bytes {
    if rs == [] then []
    else if !Own(rs[0], id) then Delivered(rs[1..], id, rs[0].content == [])
    else if rs[0].content == [] then []
    else (if skip then [] else rs[0].content) + Delivered(rs[1..], id, false)
  }

  function At(id: nat, kind: Byte, skip: bool): Position { Position(0, 0, skip, false, kind, id, true) }

  /** Reading the content and padding of a record. */
  lemma RunBody(s: Position, content: Bytes, padding: Bytes, rest: Bytes)
    requires s.contentLen == |content| && s.paddingLen == |padding|
    ensures Run(s, content + (padding + rest)) ==
      Run(s.(contentLen := 0, paddingLen := 0, skip := s.skip && content == []), rest)
        .Behind(if s.skip then [] else content)
  {
    hide Run;
    var s' := s.(contentLen := 0, skip := s.skip && content == []);
    var o := Run(s'.(paddingLen := 0), rest);
    Parts(content, padding + rest);
    Parts(padding, rest);
    RunPadding(s', padding + rest, |padding|);
    assert [] + o.content == o.content;
    if content == [] {
      assert content + (padding + rest) == padding + rest;
    } else {
      RunContent(s, content + (padding + rest), |content|);
    }
  }

  /** Reading one record. */
  lemma RunOne(r: Record, rest: Bytes, id: nat, kind: Byte, skip: bool)
    requires Unmanaged(r) && !Bad(r, id, kind)
    ensures var o := Run(At(id, kind, skip), Encode(r) + rest);
      if !Own(r, id) then
        o == Run(At(id, kind, r.content == []), rest)
               .Answered(if r.kind == BEGIN_REQUEST then CantMultiplex(r.id) else [])
      else if r.content == [] then
        o == Stopped(EndOfStream, r.padding + rest)
      else
        o == Run(At(id, kind, false), rest).Behind(if skip then [] else r.content)
  {
    hide Run;
    var s := At(id, kind, skip);
    var header := MakeHeader(r.kind, r.id, |r.content|, |r.padding|);
    var body := r.content + (r.padding + rest);
    HeaderRoundTrip(r.kind, r.id, |r.content|, |r.padding|);
    hide MakeHeader, ParseHeader;
    Assoc(header, r.content, r.padding);
    Assoc(header, r.content + r.padding, rest);
    Assoc(r.content, r.padding, rest);
    RunHeader(s, header, body);
    var s' := s.(contentLen := |r.content|, paddingLen := |r.padding|, skip := skip || !Own(r, id));
    RunBody(s', r.content, r.padding, rest);
    if r.content == [] {
      assert body == r.padding + rest;
    }
    var o := Run(At(id, kind, r.content == []), rest);
    assert [] + o.content == o.content;
  }

  /** A bad record ends the reading with its header. */
  lemma RunBad(r: Record, rest: Bytes, id: nat, kind: Byte, skip: bool)
    requires Unmanaged(r) && Bad(r, id, kind)
    ensures var o := Run(At(id, kind, skip), Encode(r) + rest);
      o.content == [] && o.end == Failed(PROTOCOL_ERROR) && o.replies == []
  {
    hide Run;
    var header := MakeHeader(r.kind, r.id, |r.content|, |r.padding|);
    HeaderRoundTrip(r.kind, r.id, |r.content|, |r.padding|);
    hide MakeHeader, ParseHeader;
    Assoc(header, r.content, r.padding);
    Assoc(header, r.content + r.padding, rest);
    RunHeader(At(id, kind, skip), header, (r.content + r.padding) + rest);
  }

  lemma UnmanagedFit(rs: seq<Record>)
    requires AllUnmanaged(rs)
    ensures AllFit(rs) && (rs != [] ==> Unmanaged(rs[0]) && AllUnmanaged(rs[1..]))
  {
    forall i | 0 <= i < |rs| ensures Fits(rs[i]) {
      assert Unmanaged(rs[i]);
    }
  }

  /** The outcome `o` of reading the records `rs` and then `tail`: what is delivered and how
      it ends; with an end-of-stream record, also what is left over and what was answered.
      A bad record has the effect that the connection's end has. */
  predicate Reads(o: Outcome, rs: seq<Record>, tail: Bytes, id: nat, kind: Byte, skip: bool)
    requires AllFit(rs)
  {
    var good := Good(rs, id, kind);
    && o.content == Delivered(good, id, skip)
    && match EndAt(good, id)
       case None => o.end == Failed(PROTOCOL_ERROR)
       case Some(n) =>
         && o.end == EndOfStream && o.replies == Refusals(rs[..n])
         && AllFit(rs[n..]) && o.rest == rs[n - 1].padding + (EncodeAll(rs[n..]) + tail)
  }

  /** What one more record in front makes of an outcome. */
  lemma ReadsOneMore(rs: seq<Record>, tail: Bytes, id: nat, kind: Byte, skip: bool, o: Outcome, later: Outcome)
    requires rs != [] && AllFit(rs) && AllFit(rs[1..]) && !Bad(rs[0], id, kind)
    requires var r := rs[0];
      if Own(r, id) && r.content == [] then o == Stopped(EndOfStream, r.padding + (EncodeAll(rs[1..]) + tail))
      else
        && Reads(later, rs[1..], tail, id, kind, !Own(r, id) && r.content == [])
        && o == if Own(r, id) then later.Behind(if skip then [] else r.content)
                else later.Answered(if r.kind == BEGIN_REQUEST then CantMultiplex(r.id) else [])
    ensures Reads(o, rs, tail, id, kind, skip)
  {
    hide Bad, CantMultiplex, AllFit, EncodeAll, Refusals, Good;
    var r, good := rs[0], Good(rs[1..], id, kind);
    GoodFirst(rs, id, kind);
    assert ([r] + good)[1..] == good;
    if Own(r, id) && r.content == [] {
      NoRefusal(r, id);
      assert rs[..1] == [r];
    } else if EndAt(good, id).Some? {
      var n := EndAt(good, id).value;
      RefusalsStep(rs, n);
      assert good[n - 1] == rs[1..][n - 1] == rs[n];
      assert [] + Refusals(rs[1..][..n]) == Refusals(rs[1..][..n]);
    }
  }

  lemma GoodFirst(rs: seq<Record>, id: nat, kind: Byte)
    requires rs != [] && !Bad(rs[0], id, kind)
    ensures Good(rs, id, kind) == [rs[0]] + Good(rs[1..], id, kind)
  {
    hide Bad;
  }

  lemma NoRefusal(r: Record, id: nat)
    requires Own(r, id)
    ensures Refusals([r]) == []
  {
    assert Refusals([r]) == [] + Refusals([]);
  }

  /** Reading a connection that carries whole records. */
  lemma {:induction false} RunRecords(rs: seq<Record>, tail: Bytes, id: nat, kind: Byte, skip: bool)
    requires AllUnmanaged(rs) && AllFit(rs)
    requires EndAt(Good(rs, id, kind), id).None? && Good(rs, id, kind) == rs ==> tail == []
    ensures Reads(Run(At(id, kind, skip), EncodeAll(rs) + tail), rs, tail, id, kind, skip)
  {
    hide Run, Encode, Bad, Unmanaged, CantMultiplex, AllFit, Reads;
    if rs == [] {
      NoRecords(tail, id, kind, skip);
    } else {
      var r, later := rs[0], rs[1..];
      UnmanagedFit(rs);
      UnmanagedFit(later);
      var rest := EncodeAll(later) + tail;
      Assoc(Encode(r), EncodeAll(later), tail);
      var o := Run(At(id, kind, skip), Encode(r) + rest);
      if Bad(r, id, kind) {
        RunBad(r, rest, id, kind, skip);
        ReadsBad(rs, tail, id, kind, skip, o);
      } else {
        RunOne(r, rest, id, kind, skip);
        var skip' := !Own(r, id) && r.content == [];
        if !(Own(r, id) && r.content == []) {
          GoodStep(rs, id, kind);
          RunRecords(later, tail, id, kind, skip');
        }
        ReadsOneMore(rs, tail, id, kind, skip, o, Run(At(id, kind, skip'), rest));
      }
    }
  }

  lemma ReadsBad(rs: seq<Record>, tail: Bytes, id: nat, kind: Byte, skip: bool, o: Outcome)
    requires rs != [] && AllFit(rs) && Bad(rs[0], id, kind) && o.content == [] && o.end == Failed(PROTOCOL_ERROR)
    ensures Reads(o, rs, tail, id, kind, skip)
  {
  }

  lemma GoodStep(rs: seq<Record>, id: nat, kind: Byte)
    requires rs != [] && !Bad(rs[0], id, kind) && !(Own(rs[0], id) && rs[0].content == [])
    ensures EndAt(Good(rs, id, kind), id).None? <==> EndAt(Good(rs[1..], id, kind), id).None?
    ensures Good(rs, id, kind) == rs <==> Good(rs[1..], id, kind) == rs[1..]
  {
    hide Bad, Good;
    var good := Good(rs[1..], id, kind);
    GoodFirst(rs, id, kind);
    assert ([rs[0]] + good)[1..] == good && rs == [rs[0]] + rs[1..];
  }

  lemma NoRecords(tail: Bytes, id: nat, kind: Byte, skip: bool)
    requires tail == []
    ensures Reads(Run(At(id, kind, skip), EncodeAll([]) + tail), [], tail, id, kind, skip)
  {
    hide Run;
    RunDry(At(id, kind, skip), EncodeAll([]) + tail);
  }

  lemma RefusalsStep(rs: seq<Record>, n: nat)
    requires n < |rs|
    ensures Refusals(rs[..n + 1]) ==
      (if rs[0].kind == BEGIN_REQUEST then CantMultiplex(rs[0].id) else []) + Refusals(rs[1..][..n])
    ensures rs[n + 1..] == rs[1..][n..]
  {
    assert rs[..n + 1][1..] == rs[1..][..n];
  }

  // -------- when nothing is lost --------

  function Upto(rs: seq<Record>, id: nat): (n: nat)
    ensures n <= |rs|
  {
    match EndAt(rs, id) case None => |rs| case Some(n) => n
  }

  /** Before the end of the stream, no own content directly follows an empty record of
      another stream. */
  predicate NoneBehindEmpty(rs: seq<Record>, id: nat) {
    forall i :: 0 < i < Upto(rs, id) && !Own(rs[i - 1], id) && rs[i - 1].content == [] ==>
      !Own(rs[i], id) || rs[i].content == []
  }

  lemma NoneBehindEmptyStep(rs: seq<Record>, id: nat)
    requires rs != [] && !(Own(rs[0], id) && rs[0].content == [])
    ensures NoneBehindEmpty(rs, id) <==>
      && NoneBehindEmpty(rs[1..], id)
      && (|rs| > 1 && !Own(rs[0], id) && rs[0].content == [] ==> !Own(rs[1], id) || rs[1].content == [])
  {
    var later := rs[1..];
    assert Upto(rs, id) == Upto(later, id) + 1;
    if NoneBehindEmpty(rs, id) {
      forall i | 0 < i < Upto(later, id) && !Own(later[i - 1], id) && later[i - 1].content == []
        ensures !Own(later[i], id) || later[i].content == []
      {
        assert later[i - 1] == rs[i] && later[i] == rs[i + 1];
      }
      if |rs| > 1 && !Own(rs[0], id) && rs[0].content == [] && rs[1].content != [] {
        assert rs[1] == later[0];
      }
    }
    if NoneBehindEmpty(later, id) &&
       (|rs| > 1 && !Own(rs[0], id) && rs[0].content == [] ==> !Own(rs[1], id) || rs[1].content == []) {
      forall i | 0 < i < Upto(rs, id) && !Own(rs[i - 1], id) && rs[i - 1].content == []
        ensures !Own(rs[i], id) || rs[i].content == []
      {
        if i > 1 {
          assert later[i - 2] == rs[i - 1] && later[i - 1] == rs[i];
        }
      }
    }
  }

  lemma {:induction false} DeliveredExactly(rs: seq<Record>, id: nat, skip: bool)
    ensures |Delivered(rs, id, skip)| <= |OwnContents(rs, id)|
    ensures Delivered(rs, id, skip) == OwnContents(rs, id) <==>
      NoneBehindEmpty(rs, id) && !(skip && rs != [] && Own(rs[0], id) && rs[0].content != [])
  {
    if rs != [] && !(Own(rs[0], id) && rs[0].content == []) {
      var skip' := !Own(rs[0], id) && rs[0].content == [];
      DeliveredExactly(rs[1..], id, skip');
      NoneBehindEmptyStep(rs, id);
      if Own(rs[0], id) {
        Parts(rs[0].content, Delivered(rs[1..], id, false));
        Parts(rs[0].content, OwnContents(rs[1..], id));
      }
    }
  }

  /** An empty record of request 2 in front of a byte of request 1: the byte is lost. */
  lemma ContentLost()
    ensures var rs := [Record(PARAMS, 2, [], []), Record(PARAMS, 1, [65], Zeros(7)), Record(PARAMS, 1, [], [])];
      Delivered(rs, 1, false) == [] && OwnContents(rs, 1) == [65]
  {
    var a, b, c := Record(PARAMS, 2, [], []), Record(PARAMS, 1, [65], Zeros(7)), Record(PARAMS, 1, [], []);
    assert [a, b, c][1..] == [b, c] && [b, c][1..] == [c];
    assert Delivered([c], 1, false) == [] && OwnContents([c], 1) == [];
    assert Delivered([b, c], 1, true) == [] && OwnContents([b, c], 1) == [65] + [];
  }

  // -------- the reader at work --------

  function BeginRecord(id: nat, role: nat, keepConnection: bool): (r: Record)
    ensures |r.content| == 8 && r.padding == []
  {
    Record(BEGIN_REQUEST, id, WordBytes(role) + [if keepConnection then 1 else 0, 0, 0, 0, 0, 0], [])
  }

  lemma BeginBody(id: nat, role: nat, keepConnection: bool)
    requires role <= 0xffff
    ensures var c := BeginRecord(id, role, keepConnection).content;
      Word(c[0], c[1]) == Big(c[..2]) == role && (c[2] % 2 == 1 <==> keepConnection)
  {
    WordRoundTrip(role);
    BigWord(role);
    assert BeginRecord(id, role, keepConnection).content[..2] == WordBytes(role);
    var c := BeginRecord(id, role, keepConnection).content;
    assert c[0] == WordBytes(role)[0] && c[1] == WordBytes(role)[1];
  }

  /** The record that starts a request is read to its last byte, its padding left in front
      of what follows. */
  lemma RunBegin(id: nat, role: nat, keepConnection: bool, padding: Bytes, rest: Bytes, id0: nat, kind0: Byte)
    requires 0 < id <= 0xffff && role <= 0xffff && |padding| <= 0xff
    ensures var r := BeginRecord(id, role, keepConnection).(padding := padding);
      Run(Position(0, 0, false, false, kind0, id0, false), Encode(r) + rest)
        == Stopped(Began(id, role, keepConnection), padding + rest)
  {
    var r := BeginRecord(id, role, keepConnection).(padding := padding);
    var header := MakeHeader(BEGIN_REQUEST, id, 8, |padding|);
    HeaderRoundTrip(BEGIN_REQUEST, id, 8, |padding|);
    BeginBody(id, role, keepConnection);
    assert Encode(r) == header + r.content + padding;
    hide Run, MakeHeader, ParseHeader, Word, Encode, BeginRecord;
    Assoc(header + r.content, padding, rest);
    Assoc(header, r.content, padding + rest);
    RunHeader(Position(0, 0, false, false, kind0, id0, false), header, r.content + (padding + rest));
    Parts(r.content, padding + rest);
  }

  lemma Unpadded(id: nat, role: nat, keepConnection: bool)
    ensures var r := BeginRecord(id, role, keepConnection); r.(padding := []) == r
  {
  }

  // -------- padding that was left over --------

  /** A reader that has turned to another stream takes padding that was left over for a
      header; nothing is read then unless it looks like one. */
  lemma RunPadded(padding: Bytes, rest: Bytes, id: nat, kind: Byte, skip: bool)
    requires padding != [] && padding[0] != VERSION_1
    ensures var o := Run(At(id, kind, skip), padding + rest);
      && o.content == []
      && o.end == Failed(if |padding + rest| < HEADER_LEN then PROTOCOL_ERROR else UNSUPPORTED_VERSION)
  {
    var bytes := padding + rest;
    if |bytes| >= HEADER_LEN {
      assert bytes[..HEADER_LEN][0] == padding[0];
    }
  }

  /** A reader for a client stops at the end of its stream or fails. */
  lemma {:induction false} RunEnds(s: Position, bytes: Bytes)
    requires s.begun && !s.eorStop
    ensures var o := Run(s, bytes); o.end == EndOfStream || o.end.Failed?
    decreases |bytes|, s.contentLen, s.paddingLen
  {
    if s.contentLen > 0 {
      if |bytes| >= s.contentLen {
        RunEnds(s.(contentLen := 0, skip := false), bytes[s.contentLen..]);
      }
    } else if s.paddingLen > 0 {
      if |bytes| >= s.paddingLen {
        RunEnds(s.(paddingLen := 0), bytes[s.paddingLen..]);
      }
    } else if |bytes| >= HEADER_LEN {
      var h := ParseHeader(bytes[..HEADER_LEN]);
      var s' := s.(contentLen := h.contentLen, paddingLen := h.paddingLen);
      RunEnds(s', bytes[HEADER_LEN..]);
      RunEnds(s'.(skip := true), bytes[HEADER_LEN..]);
    }
  }

  /** What is delivered from records behind padding that was left over. */
  function GotBehind(padding: Bytes, rs: seq<Record>, id: nat, kind: Byte): Bytes
    requires AllFit(rs)
  {
    if padding == [] then Delivered(Good(rs, id, kind), id, false)
    else if padding[0] != VERSION_1 then []
    else Run(At(id, kind, false), padding + EncodeAll(rs)).content
  }

  function Error(end: End): int {
    if end.Failed? then end.error else 0
  }

  /** The stream's error in the end. */
  function ErrorBehind(padding: Bytes, rs: seq<Record>, id: nat, kind: Byte): int
    requires AllFit(rs)
  {
    if padding == [] then if EndAt(Good(rs, id, kind), id).Some? then 0 else PROTOCOL_ERROR
    else if padding[0] != VERSION_1 then
      if |padding + EncodeAll(rs)| < HEADER_LEN then PROTOCOL_ERROR else UNSUPPORTED_VERSION
    else Error(Run(At(id, kind, false), padding + EncodeAll(rs)).end)
  }

  lemma RunBehind(padding: Bytes, rs: seq<Record>, id: nat, kind: Byte)
    requires AllUnmanaged(rs) && AllFit(rs)
    ensures var o := Run(At(id, kind, false), padding + EncodeAll(rs));
      && o.content == GotBehind(padding, rs, id, kind)
      && (o.end == EndOfStream || o.end.Failed?) && Error(o.end) == ErrorBehind(padding, rs, id, kind)
      && (padding == [] ==> Reads(o, rs, [], id, kind, false))
  {
    hide Run, Delivered, Good, AllUnmanaged;
    RunEnds(At(id, kind, false), padding + EncodeAll(rs));
    if padding == [] {
      RunRecords(rs, [], id, kind, false);
      assert EncodeAll(rs) + [] == EncodeAll(rs) == padding + EncodeAll(rs);
    } else if padding[0] != VERSION_1 {
      RunPadded(padding, EncodeAll(rs), id, kind, false);
    }
  }

  /** A client that reads to the end, by single bytes (a size of 0) or in pieces. */
  method ReadToEnd(r: Reader, sizes: nat -> nat) returns (data: Bytes)
    requires r.Valid() && !r.isClosed && r.isBeginProcessed && !r.eorStop
    modifies r, r.buff
    ensures r.Valid() && r.isClosed && data == old(r.Ahead()).content
    ensures r.Follows(old(r.Ahead()), old(r.replies), data)
  {
    data := [];
    ghost var o, replies0 := r.Ahead(), r.replies;
    assert [] + o.content == o.content;
    var calls := 0;
    while !r.isClosed
      invariant r.Valid() && r.isBeginProcessed && !r.eorStop
      invariant r.Follows(o, replies0, data)
      decreases !r.isClosed, |r.Ahead().content|
    {
      hide Run;
      var size := sizes(calls);
      calls := calls + 1;
      ghost var before, replies1, got := r.Ahead(), r.replies, data;
      if size == 0 {
        var c := r.GetChar();
        data := data + if c == EOF then [] else [c as Byte];
      } else {
        var str := r.GetStr(size);
        data := data + str;
      }
      ghost var piece := data[|got|..];
      assert data == got + piece;
      Assoc(got, piece, r.Ahead().content);
    }
    assert data + [] == data;
  }

  /** The start of `FCGX_Accept_r`: a new reader takes in the record that starts the
      request and turns to one of its streams, with that record's padding unread. */
  method OpenRequest(input: Bytes, kind: Byte, chunks: nat -> nat, bufflen: nat, ghost id: nat, ghost role: nat,
                     ghost keepConnection: bool, ghost padding: Bytes, ghost rest: Bytes) returns (r: Reader)
    requires 0 < id <= 0xffff && role <= 0xffff && |padding| <= 0xff && bufflen > 0
    requires input == Encode(BeginRecord(id, role, keepConnection).(padding := padding)) + rest
    ensures fresh(r) && fresh(r.buff) && r.Valid() && !r.isClosed && r.rdNext == r.stop
    ensures r.At() == At(id, kind, false) && r.Pending() == padding + rest
    ensures r.role == role && r.keepConnection == keepConnection && r.fcgiErrno == 0 && r.replies == []
  {
    hide Run, Encode, BeginRecord;
    RunBegin(id, role, keepConnection, padding, rest, 0, 0);
    r := new Reader(input, chunks, 0, bufflen, 0);
    Opens(r);
    r.FillBuffProc();
    assert r.replies == [];
    r.SetReaderType(kind);
  }

  /** Accepting a request and reading one of its streams, whatever the sizes of the
      reads and of the client's requests. */
  method ReadStream(id: nat, role: nat, keepConnection: bool, padding: Bytes, kind: Byte, rs: seq<Record>,
                    chunks: nat -> nat, bufflen: nat, sizes: nat -> nat) returns (data: Bytes, error: int)
    requires 0 < id <= 0xffff && role <= 0xffff && |padding| <= 0xff && bufflen > 0
    requires AllUnmanaged(rs) && AllFit(rs)
    ensures data == GotBehind(padding, rs, id, kind) && error == ErrorBehind(padding, rs, id, kind)
    ensures padding == [] ==>
      (data == OwnContents(Good(rs, id, kind), id) <==> NoneBehindEmpty(Good(rs, id, kind), id))
  {
    hide Run, AllUnmanaged, AllFit, EncodeAll, Delivered, Good, OwnContents, NoneBehindEmpty, Encode;
    RunBehind(padding, rs, id, kind);
    DeliveredExactly(Good(rs, id, kind), id, false);
    var begin := BeginRecord(id, role, keepConnection).(padding := padding);
    var r := OpenRequest(Encode(begin) + EncodeAll(rs), kind, chunks, bufflen, id, role, keepConnection, padding,
                         EncodeAll(rs));
    Opens(r);
    data := ReadToEnd(r, sizes);
    error := r.fcgiErrno;
  }

  /** With nothing delivered yet, what is ahead is the reading of what is pending. */
  lemma Opens(r: Reader)
    requires r.Valid() && !r.isClosed && r.rdNext == r.stop
    ensures r.Ahead() == Run(r.At(), r.Pending()).Seen(r.fcgiErrno)
  {
    hide Run;
    assert r.Pending() == r.buff[r.stop..r.buffStop] + r.input && r.buff[r.rdNext..r.stop] == [];
    var o := Run(r.At(), r.Pending());
    assert [] + o.content == o.content;
  }
}
