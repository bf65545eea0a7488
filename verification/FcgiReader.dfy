/** The reading half of the FastCGI library: a buffer refilled from the connection in
    pieces of any size, out of which the content of one stream is delivered. */
module FcgiReader {
  import opened Basics
  import opened FcgiRecord

  const EOF := -1
  const UNSUPPORTED_VERSION := -2
  const PROTOCOL_ERROR := -3
  const UNMODELLED := -1000  // a management record: the model stops there

  const STREAM_RECORD := 0
  const SKIP := 1
  const BEGIN_RECORD := 2

  // -------- what a reader delivers, as a function of the bytes to come --------

  /** Where a reader stands: inside a record or its padding, skipping or not, and what
      it is looking for. `eorStop` is set while a record is read for the library. */
  datatype Position = Position(contentLen: nat, paddingLen: nat, skip: bool, eorStop: bool,
                               kind: Byte, id: nat, begun: bool)

  datatype End =
    | EndOfStream
    | EndOfRecord
    | Began(id: nat, role: nat, keepConnection: bool)
    | Failed(error: int)

  /** What the client gets, how it ends, the bytes left over, and what was answered to
      the web server meanwhile. */
  datatype Outcome = Outcome(content: Bytes, end: End, rest: Bytes, replies: Bytes)
  {
    function Behind(before: Bytes): Outcome { this.(content := before + content) }

    function Answered(reply: Bytes): Outcome { this.(replies := reply + replies) }

    /** The first error of a stream hides how later reading ends. */
    function Seen(fcgiErrno: int): Outcome {
      if fcgiErrno == 0 || end.Began? then this else this.(end := Failed(fcgiErrno))
    }
  }

  function Stopped(end: End, rest: Bytes): Outcome { Outcome([], end, rest, []) }

  function Dry(content: Bytes): Outcome { Outcome(content, Failed(PROTOCOL_ERROR), [], []) }

  function CantMultiplex(id: nat): Bytes {
    MakeHeader(END_REQUEST, id, 8, 0) + [0, 0, 0, 0, CANT_MPX_CONN, 0, 0, 0]
  }

  /** The refusal of a second request is one record that ends it with the status 0 and says
      that the connection cannot be shared (section 5.5 of the FastCGI Specification). */
  lemma RefusalRead(id: nat)
    requires id <= 0xffff
    ensures ParseRecords(CantMultiplex(id)) == Some([Record(END_REQUEST, id, [0, 0, 0, 0, 1, 0, 0, 0], [])])
  {
    hide MakeHeader, ParseHeader, ParseRecords;
    var r := Record(END_REQUEST, id, [0, 0, 0, 0, 1, 0, 0, 0], []);
    assert Encode(r) == CantMultiplex(id);
    assert [r][1..] == [] && EncodeAll([r]) == Encode(r) + [];
    ParseEncoded([r]);
  }

  function Run(s: Position, bytes: Bytes): Outcome
    decreases |bytes|, s.contentLen, s.paddingLen
  {
    if s.contentLen > 0 then
      if |bytes| < s.contentLen then Dry(if s.skip then [] else bytes)
      else Run(s.(contentLen := 0, skip := false), bytes[s.contentLen..])
             .Behind(if s.skip then [] else bytes[..s.contentLen])
    else if s.paddingLen > 0 then
      if |bytes| < s.paddingLen then Dry([])
      else Run(s.(paddingLen := 0), bytes[s.paddingLen..])
    else if s.eorStop then Stopped(EndOfRecord, bytes)
    else if |bytes| < HEADER_LEN then Dry([])
    else
      var h, rest := ParseHeader(bytes[..HEADER_LEN]), bytes[HEADER_LEN..];
      var s' := s.(contentLen := h.contentLen, paddingLen := h.paddingLen);
      var status := Status(s, h, rest);
      if status == STREAM_RECORD then
        if h.contentLen == 0 then Stopped(EndOfStream, rest) else Run(s', rest)
      else if status == SKIP then
        Run(s'.(skip := true), rest).Answered(if h.kind == BEGIN_REQUEST then CantMultiplex(h.id) else [])
      else if status == BEGIN_RECORD then
        Stopped(Began(h.id, Word(rest[0], rest[1]), rest[2] % 2 == 1), rest[8..])
      else Stopped(Failed(status), rest)
  }

  /** Two accounts of the same reading; what is left over after an error is of no use. */
  predicate Agree(a: Outcome, b: Outcome) {
    a.content == b.content && a.end == b.end && (a.end.Failed? || a.rest == b.rest)
  }

  /** A reader at `s` that has still to read `bytes`, having answered `replies`, will
      account for the outcome `o` counted from when it had answered `replies0`. */
  predicate On(o: Outcome, replies0: Bytes, s: Position, replies: Bytes, bytes: Bytes) {
    var now := Run(s, bytes);
    && now.content == o.content && now.end == o.end && now.rest == o.rest
    && replies0 + o.replies == replies + now.replies
  }

  lemma Parts<T>(a: seq<T>, b: seq<T>)
    ensures (a + b)[..|a|] == a && (a + b)[|a|..] == b
  {
  }

  function Min(a: nat, b: nat): nat { if a < b then a else b }

  // -------- reading a record in pieces --------

  lemma RunContent(s: Position, bytes: Bytes, n: nat)
    requires s.contentLen > 0 && n <= s.contentLen && n <= |bytes|
    ensures Run(s, bytes) == Run(s.(contentLen := s.contentLen - n, skip := s.skip && n < s.contentLen), bytes[n..])
                               .Behind(if s.skip then [] else bytes[..n])
  {
    var s' := s.(contentLen := s.contentLen - n, skip := s.skip && n < s.contentLen);
    if n < s.contentLen <= |bytes| {
      assert bytes[n..][s.contentLen - n..] == bytes[s.contentLen..];
      assert bytes[..n] + bytes[n..][..s.contentLen - n] == bytes[..s.contentLen];
      var o := Run(s.(contentLen := 0, skip := false), bytes[s.contentLen..]);
      Assoc(bytes[..n], bytes[n..][..s.contentLen - n], o.content);
    } else if n < s.contentLen {
      assert bytes[..n] + bytes[n..] == bytes;
    }
  }

  /** How the account goes on after part of the content. */
  lemma OnContent(o: Outcome, replies0: Bytes, s: Position, replies: Bytes, bytes: Bytes, n: nat)
    requires s.contentLen > 0 && n <= s.contentLen && n <= |bytes| && On(o, replies0, s, replies, bytes)
    ensures var s' := s.(contentLen := s.contentLen - n, skip := s.skip && n < s.contentLen);
      if s.skip then On(o, replies0, s', replies, bytes[n..])
      else
        var later := Run(s', bytes[n..]);
        && o.content == bytes[..n] + later.content && o.end == later.end && o.rest == later.rest
        && replies0 + o.replies == replies + later.replies
  {
    hide Run;
    RunContent(s, bytes, n);
    var s' := s.(contentLen := s.contentLen - n, skip := s.skip && n < s.contentLen);
    assert [] + Run(s', bytes[n..]).content == Run(s', bytes[n..]).content;
  }

  lemma RunPadding(s: Position, bytes: Bytes, n: nat)
    requires s.contentLen == 0 && n <= s.paddingLen && n <= |bytes|
    ensures Run(s, bytes) == Run(s.(paddingLen := s.paddingLen - n), bytes[n..])
  {
    if n < s.paddingLen <= |bytes| {
      assert bytes[n..][s.paddingLen - n..] == bytes[s.paddingLen..];
    } else if n == 0 {
      assert bytes[n..] == bytes;
    }
  }

  /** Nothing more comes, though a record, its padding or a header is unfinished. */
  lemma RunDry(s: Position, header: Bytes)
    requires |header| < HEADER_LEN
    requires if s.contentLen > 0 || s.paddingLen > 0 then header == [] else !s.eorStop
    ensures Run(s, header) == Dry([])
  {
  }

  lemma RunRecordEnd(s: Position, bytes: Bytes)
    requires s.contentLen == 0 && s.paddingLen == 0 && s.eorStop
    ensures Run(s, bytes) == Stopped(EndOfRecord, bytes)
  {
  }

  lemma RunRecordContent(s: Position, bytes: Bytes)
    ensures s.contentLen > 0 && bytes == [] ==> Run(s, bytes).content == []
    ensures s.contentLen > 0 && s.skip && s.eorStop ==> Run(s, bytes).content == []
  {
    if s.contentLen > 0 && s.eorStop {
      RunRecord(s, bytes);
    }
  }

  /** Between records, the next header decides. */
  lemma RunHeader(s: Position, header: Bytes, rest: Bytes)
    requires s.contentLen == 0 && s.paddingLen == 0 && !s.eorStop && |header| == HEADER_LEN
    ensures
      var h := ParseHeader(header);
      var s' := s.(contentLen := h.contentLen, paddingLen := h.paddingLen);
      var status := Status(s, h, rest);
      Run(s, header + rest) ==
        if status == STREAM_RECORD then
          if h.contentLen == 0 then Stopped(EndOfStream, rest) else Run(s', rest)
        else if status == SKIP then
          Run(s'.(skip := true), rest).Answered(if h.kind == BEGIN_REQUEST then CantMultiplex(h.id) else [])
        else if status == BEGIN_RECORD then
          Stopped(Began(h.id, Word(rest[0], rest[1]), rest[2] % 2 == 1), rest[8..])
        else Stopped(Failed(status), rest)
  {
    assert (header + rest)[..HEADER_LEN] == header && (header + rest)[HEADER_LEN..] == rest;
  }

  /** How the account goes on behind a header. */
  lemma OnHeader(o: Outcome, replies0: Bytes, s: Position, replies: Bytes, header: Bytes, rest: Bytes)
    requires s.contentLen == 0 && s.paddingLen == 0 && !s.eorStop && |header| == HEADER_LEN
    requires On(o, replies0, s, replies, header + rest)
    ensures
      var h := ParseHeader(header);
      var s' := s.(contentLen := h.contentLen, paddingLen := h.paddingLen);
      var status := Status(s, h, rest);
      && (status == STREAM_RECORD && h.contentLen > 0 ==> On(o, replies0, s', replies, rest))
      && (status == SKIP ==>
            var reply := if h.kind == BEGIN_REQUEST then CantMultiplex(h.id) else [];
            On(o, replies0, s'.(skip := true), replies + reply, rest))
      && (status == STREAM_RECORD && h.contentLen == 0 ==>
            o.content == [] && o.end == EndOfStream && o.rest == rest && replies == replies0 + o.replies)
      && (status == BEGIN_RECORD ==>
            !s.begun && o.content == [] && o.end == Began(h.id, Word(rest[0], rest[1]), rest[2] % 2 == 1)
            && o.rest == rest[8..] && replies == replies0 + o.replies)
      && (status < 0 ==> o.content == [] && o.end == Failed(status) && replies == replies0 + o.replies)
  {
    hide Run;
    RunHeader(s, header, rest);
    var h := ParseHeader(header);
    var skipping := s.(contentLen := h.contentLen, paddingLen := h.paddingLen, skip := true);
    assert replies + [] == replies && [] + Run(skipping, rest).replies == Run(skipping, rest).replies;
    Assoc(replies, CantMultiplex(h.id), Run(skipping, rest).replies);
  }

  /** A record read for the library ends with it. */
  lemma RunRecord(s: Position, bytes: Bytes)
    requires s.eorStop && s.contentLen > 0
    ensures var o := Run(s, bytes);
      && o.content == (if s.skip then [] else bytes[..Min(s.contentLen, |bytes|)])
      && o.replies == [] && (o.end == EndOfRecord || o.end == Failed(PROTOCOL_ERROR))
  {
    if s.contentLen <= |bytes| {
      var s', rest := s.(contentLen := 0, skip := false), bytes[s.contentLen..];
      if s'.paddingLen > 0 && s'.paddingLen <= |rest| {
        assert Run(s'.(paddingLen := 0), rest[s'.paddingLen..]) == Stopped(EndOfRecord, rest[s'.paddingLen..]);
      }
      assert Run(s', rest).content == [];
    }
  }

  /** What a header means to a reader; `rest` is what follows it. */
  function Status(s: Position, h: Header, rest: Bytes): (r: int)
    ensures r == BEGIN_RECORD ==> |rest| >= 8
    ensures r == STREAM_RECORD || r == SKIP || r == BEGIN_RECORD || r < 0
  {
    if h.version != VERSION_1 then UNSUPPORTED_VERSION
    else if h.kind == BEGIN_REQUEST then
      if h.id == NULL_REQUEST_ID || h.contentLen != 8 then PROTOCOL_ERROR
      else if s.begun then SKIP
      else if s.skip || |rest| < 8 then PROTOCOL_ERROR
      else BEGIN_RECORD
    else if h.id == NULL_REQUEST_ID then UNMODELLED
    else if h.id != s.id then SKIP
    else if h.kind != s.kind then PROTOCOL_ERROR
    else STREAM_RECORD
  }

  class Reader {
    // the connection: what the web server has still to send, and how it is cut up
    var input: Bytes
    const chunks: nat -> nat
    var readCalls: nat
    var replies: Bytes

    // the request
    var requestId: nat
    var isBeginProcessed: bool
    var role: nat
    var keepConnection: bool

    // the stream
    const buff: array<Byte>
    var rdNext: nat
    var stop: nat
    var buffStop: nat
    var kind: Byte
    var eorStop: bool
    var skip: bool
    var contentLen: nat
    var paddingLen: nat
    var isClosed: bool
    var fcgiErrno: int

    ghost predicate Bounds()
      reads this
    {
      0 < buff.Length && rdNext <= buffStop <= buff.Length
    }

    ghost predicate Valid()
      reads this
    {
      Bounds() && (!isClosed ==> rdNext <= stop <= buffStop)
    }

    /** Every byte not yet taken out of the buffer. */
    ghost function Pending(): Bytes
      requires Bounds()
      reads this, buff
    {
      buff[rdNext..buffStop] + input
    }

    ghost function At(): Position
      reads this
    {
      Position(contentLen, paddingLen, skip, eorStop, kind, requestId, isBeginProcessed)
    }

    /** What the client will get from here on. */
    ghost function Ahead(): Outcome
      requires Valid()
      reads this, buff
    {
      if isClosed then Stopped(if eorStop then EndOfRecord else EndOfStream, Pending()).Seen(fcgiErrno)
      else Run(At(), buff[stop..buffStop] + input).Seen(fcgiErrno).Behind(buff[rdNext..stop])
    }

    /** From the situation described by `o` and `replies0`, the client got `taken`. */
    ghost predicate Follows(o: Outcome, replies0: Bytes, taken: Bytes)
      requires Valid()
      reads this, buff
    {
      Agree(o, Ahead().Behind(taken)) && replies0 + o.replies == replies + Ahead().replies
    }

    constructor (input: Bytes, chunks: nat -> nat, requestId: nat, bufflen: nat, kind: Byte)
      requires bufflen > 0
      ensures Valid() && fresh(buff) && !isClosed && fcgiErrno == 0 && !isBeginProcessed
      ensures At() == Position(0, 0, false, false, kind, requestId, false)
      ensures rdNext == stop && Pending() == input && replies == []
    {
      this.input, this.chunks, readCalls, replies := input, chunks, 0, [];
      this.requestId, isBeginProcessed, role, keepConnection := requestId, false, 0, false;
      buff := new Byte[bufflen];
      rdNext, stop, buffStop := 0, 0, 0;
      this.kind, eorStop, skip, contentLen, paddingLen := kind, false, false, 0, 0;
      isClosed, fcgiErrno := false, 0;
    }

    method SetError(e: int)
      requires e != 0
      modifies this`fcgiErrno, this`isClosed
      ensures fcgiErrno == (if old(fcgiErrno) == 0 then e else old(fcgiErrno)) && isClosed
    {
      if fcgiErrno == 0 {
        fcgiErrno := e;
      }
      isClosed := true;
    }

    /** Reads into the whole buffer: nothing at the end of the input, else a part of it
        of any size. */
    method OsRead() returns (count: nat)
      requires 0 < buff.Length
      modifies this`input, this`readCalls, buff
      ensures count <= |old(input)| && count <= buff.Length && (count == 0 <==> old(input) == [])
      ensures buff[..count] == old(input)[..count] && input == old(input)[count..]
    {
      var chunk := chunks(readCalls);
      readCalls := readCalls + 1;
      var wanted := if chunk < 1 then 1 else if chunk < buff.Length then chunk else buff.Length;
      count := if wanted < |input| then wanted else |input|;
      forall i | 0 <= i < count {
        buff[i] := input[i];
      }
      input := input[count..];
    }

    /** Makes sure there is something in the buffer, or fails at the end of the input. */
    method Refill() returns (ok: bool)
      requires Bounds()
      modifies this`input, this`readCalls, this`rdNext, this`buffStop, this`fcgiErrno, this`isClosed, buff
      ensures Bounds() && Pending() == old(Pending())
      ensures ok <==> old(Pending()) != []
      ensures if ok then rdNext < buffStop && isClosed == old(isClosed) && fcgiErrno == old(fcgiErrno)
              else isClosed && fcgiErrno == (if old(fcgiErrno) == 0 then PROTOCOL_ERROR else old(fcgiErrno))
    {
      if rdNext == buffStop {
        var count := OsRead();
        if count <= 0 {
          SetError(PROTOCOL_ERROR);
          return false;
        }
        rdNext, buffStop := 0, count;
      }
      return true;
    }

    /** The part of the fill loop that delivers the buffered content of the current
        record, or passes over it. */
    method PassContent(ghost o: Outcome, ghost replies0: Bytes) returns (deliver: bool)
      requires Bounds() && !isClosed && rdNext < buffStop && contentLen > 0 && On(o, replies0, At(), replies, Pending())
      modifies this`contentLen, this`rdNext, this`stop, this`skip
      ensures Bounds() && deliver == !old(skip)
      ensures deliver ==>
        && Valid() && rdNext == old(rdNext) < stop && At() == old(At()).(contentLen := contentLen)
        && contentLen + (stop - rdNext) == old(contentLen)
        && Leads(o, replies0, fcgiErrno)
      ensures !deliver ==> |Pending()| < |old(Pending())| && On(o, replies0, At(), replies, Pending())
    {
      hide Run, On, Leads;
      var count := Min(contentLen, buffStop - rdNext);
      OnContent(o, replies0, At(), replies, Pending(), count);
      Cut(count);
      contentLen := contentLen - count;
      if !skip {
        stop := rdNext + count;
        DeliverLeads(o, replies0, Run(At(), buff[stop..buffStop] + input));
        return true;
      }
      rdNext := rdNext + count;
      skip := contentLen > 0;
      return false;
    }

    lemma Cut(count: nat)
      requires Bounds() && count <= buffStop - rdNext
      ensures Pending()[..count] == buff[rdNext..rdNext + count]
      ensures Pending()[count..] == buff[rdNext + count..buffStop] + input
    {
    }

    lemma DeliverLeads(o: Outcome, replies0: Bytes, later: Outcome)
      requires Valid() && !isClosed && later == Run(At(), buff[stop..buffStop] + input)
      requires o.content == buff[rdNext..stop] + later.content && o.end == later.end && o.rest == later.rest
      requires replies0 + o.replies == replies + later.replies
      ensures Leads(o, replies0, fcgiErrno)
    {
      hide Run;
    }

    /** The part of the fill loop that passes over padding. */
    method PassPadding(ghost o: Outcome, ghost replies0: Bytes)
      requires Bounds() && contentLen == 0 && On(o, replies0, At(), replies, Pending())
      modifies this`paddingLen, this`rdNext
      ensures Bounds() && On(o, replies0, At(), replies, Pending())
      ensures |Pending()| <= |old(Pending())|
      ensures old(paddingLen > 0 && rdNext < buffStop) ==> |Pending()| < |old(Pending())|
      ensures paddingLen > 0 ==> rdNext == buffStop
      ensures old(paddingLen) == 0 ==> paddingLen == 0 && Pending() == old(Pending())
    {
      hide Run;
      var count := Min(paddingLen, buffStop - rdNext);
      RunPadding(At(), Pending(), count);
      Cut(count);
      paddingLen := paddingLen - count;
      rdNext := rdNext + count;
    }

    /** What the client will get, given the outcome `o` of reading on. */
    ghost predicate Leads(o: Outcome, replies0: Bytes, errno0: int)
      requires Valid()
      reads this, buff
    {
      Agree(o.Seen(errno0), Ahead()) && replies0 + o.replies == replies + Ahead().replies
    }

    /** Delivers more content, or closes the stream, or reports a new request. */
    method FillBuffProc()
      requires Valid() && !isClosed && rdNext == stop && (eorStop ==> contentLen > 0)
      modifies this, buff
      ensures Valid() && eorStop == old(eorStop) && kind == old(kind)
      ensures old(isBeginProcessed) ==> requestId == old(requestId)
      ensures |Pending()| <= |old(Pending())|
      ensures isClosed || rdNext < stop ==>
        && Agree(old(Ahead()), Ahead()) && old(replies) + old(Ahead()).replies == replies + Ahead().replies
        && isBeginProcessed == old(isBeginProcessed)
      ensures !isClosed && rdNext == stop ==>
        && !old(isBeginProcessed) && !eorStop && isBeginProcessed
        && Agree(old(Ahead()), Stopped(Began(requestId, role, keepConnection), Pending()))
        && replies == old(replies) + old(Ahead()).replies && fcgiErrno == old(fcgiErrno)
      ensures old(contentLen) > 0 && !old(skip) && old(Pending()) != [] ==>
        && !isClosed && rdNext < stop && Pending() == old(Pending())
        && fcgiErrno == old(fcgiErrno) && replies == old(replies)
        && At() == old(At()).(contentLen := contentLen) && contentLen + (stop - rdNext) == old(contentLen)
      decreases |Pending()|, 6
    {
      hide Run;
      ghost var o := Run(At(), Pending());
      assert Pending() == buff[stop..buffStop] + input;
      assert Ahead() == o.Seen(fcgiErrno) by {
        assert [] + o.content == o.content && buff[rdNext..stop] == [];
      }
      FillLoop(o);
    }

    /** What `FillBuffProc` leaves behind: content to deliver, a closed stream, or a new
        request. */
    ghost predicate Filled(o: Outcome, replies0: Bytes, errno0: int, begun0: bool)
      reads this, buff
    {
      && Valid()
      && (if isClosed || rdNext < stop then Leads(o, replies0, errno0) && isBeginProcessed == begun0
          else
            && !begun0 && !eorStop && isBeginProcessed && replies == replies0 + o.replies && fcgiErrno == errno0
            && Agree(o, Stopped(Began(requestId, role, keepConnection), Pending())))
    }

    lemma LeadsFilled(o: Outcome, replies0: Bytes, errno0: int, begun0: bool)
      requires Valid() && (isClosed || rdNext < stop) && Leads(o, replies0, errno0) && isBeginProcessed == begun0
      ensures Filled(o, replies0, errno0, begun0)
    {
      hide Leads;
    }

    lemma BegunFilled(o: Outcome, replies0: Bytes, errno0: int)
      requires Valid() && !isClosed && rdNext == stop && !eorStop && isBeginProcessed
      requires replies == replies0 + o.replies && fcgiErrno == errno0
      requires o.content == [] && o.end == Began(requestId, role, keepConnection) && o.rest == Pending()
      ensures Filled(o, replies0, errno0, false)
    {
    }

    method FillLoop(ghost o: Outcome)
      requires Valid() && !isClosed && rdNext == stop && (eorStop ==> contentLen > 0)
      requires o == Run(At(), Pending())
      modifies this, buff
      ensures Filled(o, old(replies), old(fcgiErrno), old(isBeginProcessed))
      ensures eorStop == old(eorStop) && kind == old(kind) && |Pending()| <= |old(Pending())|
      ensures old(isBeginProcessed) ==> requestId == old(requestId)
      ensures old(contentLen) > 0 && !old(skip) && old(Pending()) != [] ==>
        DeliveredFrom(old(At()), old(Pending()), old(replies), old(fcgiErrno))
      decreases |Pending()|, 5
    {
      hide Run, Filled;
      var header: Bytes := [];
      assert header + Pending() == Pending();
      assert On(o, replies, At(), replies, header + Pending());
      hide On;
      var done := false;
      ghost var first := true;
      while !done
        invariant Bounds()
        invariant eorStop == old(eorStop) && kind == old(kind) && |Pending()| <= |old(Pending())|
        invariant old(isBeginProcessed) ==> requestId == old(requestId)
        invariant first ==>
          !done && header == [] && At() == old(At()) && Pending() == old(Pending()) && replies == old(replies)
        invariant !done ==>
          && Bounds() && !isClosed && fcgiErrno == old(fcgiErrno) && isBeginProcessed == old(isBeginProcessed)
          && Unfinished(header) && On(o, old(replies), At(), replies, header + Pending())
        invariant done ==> Filled(o, old(replies), old(fcgiErrno), old(isBeginProcessed))
        invariant !first && old(contentLen) > 0 && !old(skip) && old(Pending()) != [] ==>
          done && DeliveredFrom(old(At()), old(Pending()), old(replies), old(fcgiErrno))
        decreases !done, |Pending()|
      {
        header, done := FillStep(header, o, old(replies));
        first := false;
      }
    }

    /** A piece of the current record's content is ready, and nothing else has changed. */
    ghost predicate DeliveredFrom(s: Position, bytes: Bytes, replies: Bytes, fcgiErrno: int)
      requires Bounds()
      reads this, buff
    {
      && !isClosed && rdNext < stop && Pending() == bytes
      && this.fcgiErrno == fcgiErrno && this.replies == replies
      && At() == s.(contentLen := contentLen) && contentLen + (stop - rdNext) == s.contentLen
    }

    ghost predicate Unfinished(header: Bytes)
      reads this
    {
      && |header| < HEADER_LEN && (header != [] ==> contentLen == 0 && paddingLen == 0)
      && (eorStop ==> contentLen > 0 || paddingLen > 0)
    }

    /** One round of the fill loop. */
    method FillStep(header: Bytes, ghost o: Outcome, ghost replies0: Bytes) returns (header': Bytes, done: bool)
      requires Bounds() && !isClosed && Unfinished(header) && On(o, replies0, At(), replies, header + Pending())
      modifies this, buff
      ensures Bounds() && eorStop == old(eorStop) && kind == old(kind) && |Pending()| <= |old(Pending())|
      ensures old(isBeginProcessed) ==> requestId == old(requestId)
      ensures !done ==>
        && !isClosed && |Pending()| < |old(Pending())|
        && fcgiErrno == old(fcgiErrno) && isBeginProcessed == old(isBeginProcessed)
        && Unfinished(header') && On(o, replies0, At(), replies, header' + Pending())
      ensures done ==> Filled(o, replies0, old(fcgiErrno), old(isBeginProcessed))
      ensures old(contentLen) > 0 && !old(skip) && old(Pending()) != [] ==>
        done && DeliveredFrom(old(At()), old(Pending()), old(replies), old(fcgiErrno))
      decreases |Pending()|, 4
    {
      hide Run, Leads, Agree, On, Filled;
      header' := header;
      var ok := Refill();
      if !ok {
        assert header + Pending() == header;
        WentDry(o, replies0, header, old(fcgiErrno));
        LeadsFilled(o, replies0, old(fcgiErrno), isBeginProcessed);
        return header', true;
      }
      header', done := Proceed(header, o, replies0);
    }

    /** The round, with something in the buffer. */
    method Proceed(header: Bytes, ghost o: Outcome, ghost replies0: Bytes) returns (header': Bytes, done: bool)
      requires Bounds() && !isClosed && rdNext < buffStop
      requires Unfinished(header) && On(o, replies0, At(), replies, header + Pending())
      modifies this, buff
      ensures Bounds() && eorStop == old(eorStop) && kind == old(kind) && |Pending()| <= |old(Pending())|
      ensures old(isBeginProcessed) ==> requestId == old(requestId)
      ensures !done ==>
        && !isClosed && |Pending()| < |old(Pending())|
        && fcgiErrno == old(fcgiErrno) && isBeginProcessed == old(isBeginProcessed)
        && Unfinished(header') && On(o, replies0, At(), replies, header' + Pending())
      ensures done ==> Filled(o, replies0, old(fcgiErrno), old(isBeginProcessed))
      ensures old(contentLen) > 0 && !old(skip) ==>
        done && DeliveredFrom(old(At()), old(Pending()), old(replies), old(fcgiErrno))
      decreases |Pending()|, 3
    {
      hide Run, Leads, Agree, On, Filled;
      header' := header;
      if contentLen > 0 || paddingLen > 0 {
        NoHeader(header);
        var deliver := PassRecord(o, replies0);
        NoHeader(header);
        if deliver || contentLen > 0 || paddingLen > 0 {
          if deliver {
            LeadsFilled(o, replies0, fcgiErrno, isBeginProcessed);
          }
          return header', deliver;
        }
      }
      if eorStop {
        NoHeader(header);
        stop := rdNext;
        isClosed := true;
        RecordOver(o, replies0);
        LeadsFilled(o, replies0, fcgiErrno, isBeginProcessed);
        return header', true;
      }
      header' := TakeHeader(header);
      if |header'| < HEADER_LEN {
        return header', false;
      }
      done := Interpret(header', o, replies0);
      header' := [];
      NoHeader(header');
    }

    lemma NoHeader(header: Bytes)
      requires Bounds() && header == []
      ensures header + Pending() == Pending()
    {
    }

    /** The part of the fill loop before the header. */
    method PassRecord(ghost o: Outcome, ghost replies0: Bytes) returns (deliver: bool)
      requires Bounds() && !isClosed && (contentLen > 0 || paddingLen > 0)
      requires rdNext < buffStop
      requires On(o, replies0, At(), replies, Pending())
      modifies this`contentLen, this`paddingLen, this`rdNext, this`stop, this`skip
      ensures Bounds() && deliver == old(contentLen > 0 && !skip)
      ensures deliver ==>
        && Valid() && rdNext == old(rdNext) < stop && At() == old(At()).(contentLen := contentLen)
        && contentLen + (stop - rdNext) == old(contentLen)
        && Leads(o, replies0, fcgiErrno)
      ensures !deliver ==> On(o, replies0, At(), replies, Pending()) && |Pending()| < |old(Pending())|
    {
      hide Run, On, Leads;
      if contentLen > 0 {
        deliver := PassContent(o, replies0);
        if deliver {
          return;
        }
      }
      if contentLen == 0 {
        PassPadding(o, replies0);
      }
      return false;
    }

    /** Moves bytes from the buffer to the header being assembled. */
    method TakeHeader(header: Bytes) returns (header': Bytes)
      requires Bounds() && |header| < HEADER_LEN
      modifies this`rdNext
      ensures Bounds() && header' + Pending() == header + old(Pending())
      ensures |header'| <= HEADER_LEN
      ensures old(rdNext < buffStop) ==> |Pending()| < |old(Pending())|
    {
      var count := Min(HEADER_LEN - |header|, buffStop - rdNext);
      Assoc(header, buff[rdNext..rdNext + count], buff[rdNext + count..buffStop] + input);
      Assoc(buff[rdNext..rdNext + count], buff[rdNext + count..buffStop], input);
      assert buff[rdNext..buffStop] == buff[rdNext..rdNext + count] + buff[rdNext + count..buffStop];
      header' := header + buff[rdNext..rdNext + count];
      rdNext := rdNext + count;
    }

    lemma WentDry(o: Outcome, replies0: Bytes, header: Bytes, errno0: int)
      requires Valid() && isClosed && On(o, replies0, At(), replies, header) && |header| < HEADER_LEN
      requires if contentLen > 0 || paddingLen > 0 then header == [] else !eorStop
      requires fcgiErrno == if errno0 == 0 then PROTOCOL_ERROR else errno0
      ensures Leads(o, replies0, errno0)
    {
      RunDry(At(), header);
    }

    lemma RecordOver(o: Outcome, replies0: Bytes)
      requires Valid() && isClosed && On(o, replies0, At(), replies, Pending())
      requires contentLen == 0 && paddingLen == 0 && eorStop
      ensures Leads(o, replies0, fcgiErrno)
    {
      RunRecordEnd(At(), Pending());
    }

    /** The part of the fill loop behind the header. */
    method Interpret(header: Bytes, ghost o: Outcome, ghost replies0: Bytes) returns (done: bool)
      requires Bounds() && !isClosed && contentLen == 0 && paddingLen == 0 && !eorStop
      requires |header| == HEADER_LEN && On(o, replies0, At(), replies, header + Pending())
      modifies this, buff
      ensures Bounds() && eorStop == old(eorStop) && kind == old(kind) && |Pending()| <= |old(Pending())|
      ensures old(isBeginProcessed) ==> requestId == old(requestId)
      ensures done ==> Filled(o, replies0, old(fcgiErrno), old(isBeginProcessed))
      ensures !done ==>
        && !isClosed && fcgiErrno == old(fcgiErrno) && isBeginProcessed == old(isBeginProcessed)
        && On(o, replies0, At(), replies, Pending())
      decreases |Pending()|, 13
    {
      hide Run, On, Leads, Filled, Status, ParseHeader, Word, CantMultiplex, Agree;
      OnHeader(o, replies0, At(), replies, header, Pending());
      stop := rdNext;
      eorStop := true;
      var status := ProcessHeader(header);
      eorStop, isClosed := false, false;
      if status == STREAM_RECORD {
        done := contentLen == 0;
        if done {
          stop := rdNext;
          isClosed := true;
        }
      } else if status == SKIP {
        skip := true;
        done := false;
      } else if status == BEGIN_RECORD {
        done := true;
      } else {
        SetError(status);
        done := true;
      }
      if done && isClosed {
        ClosedLeads(o, replies0, old(fcgiErrno));
        LeadsFilled(o, replies0, old(fcgiErrno), isBeginProcessed);
      } else if done {
        BegunFilled(o, replies0, fcgiErrno);
      }
    }

    lemma ClosedLeads(o: Outcome, replies0: Bytes, errno0: int)
      requires Valid() && isClosed && !eorStop && o.content == [] && replies == replies0 + o.replies
      requires if o.end == EndOfStream then fcgiErrno == errno0 && o.rest == Pending()
               else o.end.Failed? && o.end.error != 0 && fcgiErrno == if errno0 == 0 then o.end.error else errno0
      ensures Leads(o, replies0, errno0)
    {
      assert replies + [] == replies;
    }

    method ProcessHeader(header: Bytes) returns (status: int)
      requires Valid() && !isClosed && rdNext == stop && |header| == HEADER_LEN && eorStop
      modifies this, buff
      ensures Bounds() && |Pending()| <= |old(Pending())|
      ensures eorStop && kind == old(kind)
      ensures old(isBeginProcessed) ==> requestId == old(requestId)
      ensures status == Status(old(At()).(eorStop := false), ParseHeader(header), old(Pending()))
      ensures status < 0 ==>
        replies == old(replies) && isBeginProcessed == old(isBeginProcessed)
        && (fcgiErrno == old(fcgiErrno) || (old(fcgiErrno) == 0 && fcgiErrno == status))
      ensures status >= 0 ==> rdNext == stop && fcgiErrno == old(fcgiErrno)
      ensures var h, rest := ParseHeader(header), old(Pending());
        && (status == STREAM_RECORD || status == SKIP ==>
              && At() == old(At()).(contentLen := h.contentLen, paddingLen := h.paddingLen)
              && Pending() == rest)
        && (status == STREAM_RECORD ==> replies == old(replies))
        && (status == SKIP ==>
              replies == old(replies) + (if h.kind == BEGIN_REQUEST then CantMultiplex(h.id) else []))
        && (status == BEGIN_RECORD ==>
              && isBeginProcessed && requestId == h.id
              && role == Word(rest[0], rest[1]) && keepConnection == (rest[2] % 2 == 1)
              && Pending() == rest[8..] && replies == old(replies))
      decreases |Pending()|, 12
    {
      var h := ParseHeader(header);
      if h.version != VERSION_1 {
        return UNSUPPORTED_VERSION;
      }
      contentLen, paddingLen := h.contentLen, h.paddingLen;
      if h.kind == BEGIN_REQUEST {
        status := ProcessBeginRecord(h.id);
        return;
      }
      if h.id == NULL_REQUEST_ID {
        return UNMODELLED;
      }
      if h.id != requestId {
        return SKIP;
      }
      if h.kind != kind {
        return PROTOCOL_ERROR;
      }
      return STREAM_RECORD;
    }

    method ProcessBeginRecord(id: nat) returns (status: int)
      requires Valid() && !isClosed && rdNext == stop && eorStop
      modifies this, buff
      ensures Bounds() && |Pending()| <= |old(Pending())|
      ensures eorStop && kind == old(kind)
      ensures old(isBeginProcessed) ==> requestId == old(requestId)
      ensures status == if id == NULL_REQUEST_ID || old(contentLen) != 8 then PROTOCOL_ERROR
                        else if old(isBeginProcessed) then SKIP
                        else if old(skip) || |old(Pending())| < 8 then PROTOCOL_ERROR
                        else BEGIN_RECORD
      ensures status < 0 ==>
        replies == old(replies) && isBeginProcessed == old(isBeginProcessed)
        && (fcgiErrno == old(fcgiErrno) || (old(fcgiErrno) == 0 && fcgiErrno == status))
      ensures status >= 0 ==> rdNext == stop && fcgiErrno == old(fcgiErrno)
      ensures status == SKIP ==>
        At() == old(At()) && Pending() == old(Pending()) && replies == old(replies) + CantMultiplex(id)
      ensures status == BEGIN_RECORD ==>
        var rest := old(Pending());
        && isBeginProcessed && requestId == id
        && role == Word(rest[0], rest[1]) && keepConnection == (rest[2] % 2 == 1)
        && Pending() == rest[8..] && replies == old(replies)
      decreases |Pending()|, 11
    {
      if id == NULL_REQUEST_ID || contentLen != 8 {
        return PROTOCOL_ERROR;
      }
      if isBeginProcessed {
        replies := replies + CantMultiplex(id);
        return SKIP;
      }
      requestId := id;
      var body := ReadBody();
      if |body| != 8 {
        return PROTOCOL_ERROR;
      }
      keepConnection := body[2] % 2 == 1;
      role := Word(body[0], body[1]);
      isBeginProcessed := true;
      return BEGIN_RECORD;
    }

    /** `GetStr` on the record in hand: all of its body, or a sign that it cannot be had. */
    method ReadBody() returns (body: Bytes)
      requires Valid() && !isClosed && rdNext == stop && eorStop && contentLen == 8
      modifies this, buff
      ensures Valid() && |Pending()| <= |old(Pending())|
      ensures eorStop && kind == old(kind) && isBeginProcessed == old(isBeginProcessed) && replies == old(replies)
      ensures old(isBeginProcessed) ==> requestId == old(requestId)
      ensures |body| == 8 <==> !old(skip) && 8 <= |old(Pending())|
      ensures |body| == 8 ==>
        && rdNext == stop && fcgiErrno == old(fcgiErrno) && requestId == old(requestId)
        && body == old(Pending())[..8] && Pending() == old(Pending())[8..]
      ensures |body| != 8 ==>
        fcgiErrno == old(fcgiErrno) || (old(fcgiErrno) == 0 && fcgiErrno == PROTOCOL_ERROR)
      decreases |Pending()|, 10
    {
      hide Run;
      RunRecord(At(), Pending());
      assert Pending() == buff[stop..buffStop] + input && buff[rdNext..stop] == [];
      ghost var replies0 := replies;
      body := GetStr(8);
      if |body| != 8 {
        assert replies0 + [] == replies0 && replies + [] == replies;
      }
    }

    /** Reads up to n bytes; fewer mean that the end of the input was reached. */
    method GetStr(n: nat) returns (str: Bytes)
      requires Valid() && (isClosed || isBeginProcessed || eorStop)
      requires eorStop ==> !isClosed && rdNext == stop && 0 < n <= contentLen
      modifies this, buff
      ensures Valid() && eorStop == old(eorStop) && kind == old(kind)
      ensures old(isBeginProcessed) ==> requestId == old(requestId)
      ensures |Pending()| <= |old(Pending())|
      ensures isBeginProcessed == old(isBeginProcessed)
      ensures |str| <= n && (|str| < n ==> isClosed)
      ensures Follows(old(Ahead()), old(replies), str)
      ensures eorStop && !old(skip) && n <= |old(Pending())| ==>
        && !isClosed && |str| == n && str == old(Pending())[..n] && Pending() == old(Pending())[n..]
        && fcgiErrno == old(fcgiErrno) && replies == old(replies)
        && At() == old(At()).(contentLen := contentLen) && contentLen + (stop - rdNext) == old(contentLen) - n
      decreases |Pending()|, 9
    {
      hide Run;
      ghost var o, replies0, bytes0, s0 := Ahead(), replies, Pending(), At();
      assert [] + Ahead().content == Ahead().content && [] + Pending() == Pending();
      str := [];
      if isClosed || n == 0 {
        return;
      }
      var done := false;
      while !done
        invariant Reading(o, replies0, str, s0, bytes0, old(fcgiErrno)) && kind == old(kind) && |str| <= n
        invariant old(isBeginProcessed) ==> requestId == old(requestId)
        invariant eorStop && s0.skip ==> isClosed || (rdNext == stop && contentLen > 0)
        invariant eorStop && !s0.skip && isClosed ==> |bytes0| < n
        invariant if done then |str| == n || isClosed else |str| < n && !isClosed
        decreases !done, 2 * |Pending()| + (if rdNext == stop then 1 else 0)
      {
        str, done := GetRound(o, replies0, str, n, s0, bytes0, old(fcgiErrno));
      }
      Parts(str, Pending());
    }

    /** Some of what was ahead, `str`, has been taken since the reader was at `s0` with
        `bytes0` to come. Within a record, the position says exactly how much. */
    ghost predicate Reading(o: Outcome, replies0: Bytes, str: Bytes, s0: Position, bytes0: Bytes, errno0: int)
      reads this, buff
    {
      && Valid() && eorStop == s0.eorStop && isBeginProcessed == s0.begun
      && |Pending()| <= |bytes0|
      && Follows(o, replies0, str)
      && (eorStop && !isClosed ==> At() == s0.(contentLen := contentLen))
      && (eorStop && !s0.skip && !isClosed ==> Within(bytes0, s0.contentLen, errno0, replies0, str))
    }

    /** One round of the general case of `GetStr`. */
    method GetRound(ghost o: Outcome, ghost replies0: Bytes, str: Bytes, n: nat, ghost s0: Position,
                    ghost bytes0: Bytes, ghost errno0: int) returns (str': Bytes, done: bool)
      requires Reading(o, replies0, str, s0, bytes0, errno0) && |str| < n && !isClosed
      requires isBeginProcessed || eorStop
      requires eorStop && skip ==> rdNext == stop && contentLen > 0
      requires eorStop ==> n <= s0.contentLen
      modifies this, buff
      ensures Reading(o, replies0, str', s0, bytes0, errno0) && kind == old(kind) && |str'| <= n
      ensures old(isBeginProcessed) ==> requestId == old(requestId)
      ensures eorStop && skip ==> isClosed
      ensures if done then |str'| == n || isClosed else |str'| < n && !isClosed && rdNext != stop
      ensures |Pending()| <= |old(Pending())| && (old(rdNext != stop) ==> |Pending()| < |old(Pending())|)
      ensures eorStop && !s0.skip && isClosed ==> |bytes0| < n
      decreases |Pending()|, 8
    {
      hide Run, Follows, Ahead;
      str' := str;
      if rdNext != stop {
        str' := Take(o, replies0, str, Min(n - |str|, stop - rdNext));
        if |str'| == n {
          return str', true;
        }
      }
      More(o, replies0, str');
      done := isClosed;
    }

    /** `FillBuffProc` in the middle of a longer read. */
    method More(ghost o: Outcome, ghost replies0: Bytes, ghost str: Bytes)
      requires Valid() && !isClosed && rdNext == stop && (eorStop ==> contentLen > 0)
      requires isBeginProcessed || eorStop
      requires Follows(o, replies0, str)
      modifies this, buff
      ensures Valid() && eorStop == old(eorStop) && kind == old(kind) && isBeginProcessed == old(isBeginProcessed)
      ensures old(isBeginProcessed) ==> requestId == old(requestId)
      ensures |Pending()| <= |old(Pending())|
      ensures Follows(o, replies0, str)
      ensures isClosed || rdNext < stop
      ensures eorStop && old(skip) ==> isClosed
      ensures old(contentLen) > 0 && !old(skip) ==> (isClosed <==> old(Pending()) == [])
      ensures old(contentLen) > 0 && !old(skip) && !isClosed ==>
        && Pending() == old(Pending())
        && fcgiErrno == old(fcgiErrno) && replies == old(replies)
        && At() == old(At()).(contentLen := contentLen) && contentLen + (stop - rdNext) == old(contentLen)
      decreases |Pending()|, 7
    {
      hide Run;
      RunRecordContent(At(), Pending());
      assert Pending() == buff[stop..buffStop] + input && buff[rdNext..stop] == [];
      FillBuffProc();
    }

    /** Reading has stayed within one record: nothing but `str` of its content, of which
        there were `contentLen` bytes, has gone from `bytes`. */
    ghost predicate Within(bytes: Bytes, contentLen: nat, fcgiErrno: int, replies: Bytes, str: Bytes)
      requires Valid()
      reads this, buff
    {
      && str + Pending() == bytes && this.contentLen + (stop - rdNext) + |str| == contentLen
      && this.fcgiErrno == fcgiErrno && this.replies == replies
    }

    /** Moves the next m bytes of the window to the client. */
    method Take(ghost o: Outcome, ghost replies0: Bytes, str: Bytes, m: nat) returns (str': Bytes)
      requires Valid() && !isClosed && m <= stop - rdNext && Follows(o, replies0, str)
      modifies this`rdNext
      ensures Valid() && rdNext == old(rdNext) + m
      ensures str' == str + buff[old(rdNext)..rdNext]
      ensures Follows(o, replies0, str')
      ensures |Pending()| == |old(Pending())| - m && str' + Pending() == str + old(Pending())
    {
      hide Run;
      Delivered(str, m);
      StillPending(str, m);
      str' := str + buff[rdNext..rdNext + m];
      rdNext := rdNext + m;
    }

    /** Taking part of the window leaves the rest ahead. */
    lemma Delivered(str: Bytes, m: nat)
      requires Valid() && !isClosed && m <= stop - rdNext
      ensures str + Ahead().content ==
        (str + buff[rdNext..rdNext + m]) + (buff[rdNext + m..stop] + Run(At(), buff[stop..buffStop] + input).content)
    {
      hide Run;
      var o := Run(At(), buff[stop..buffStop] + input).Seen(fcgiErrno);
      assert Ahead().content == buff[rdNext..stop] + o.content;
      Regrouped(str, m, stop, o.content);
    }

    lemma StillPending(str: Bytes, m: nat)
      requires Valid() && !isClosed && m <= stop - rdNext
      ensures str + Pending() == (str + buff[rdNext..rdNext + m]) + (buff[rdNext + m..buffStop] + input)
    {
      Regrouped(str, m, buffStop, input);
    }

    lemma Regrouped(str: Bytes, m: nat, end: nat, tail: Bytes)
      requires rdNext + m <= end <= buff.Length
      ensures str + (buff[rdNext..end] + tail) == (str + buff[rdNext..rdNext + m]) + (buff[rdNext + m..end] + tail)
    {
      var first, later := buff[rdNext..rdNext + m], buff[rdNext + m..end];
      assert buff[rdNext..end] == first + later;
      Assoc(first, later, tail);
      Assoc(str, first, later + tail);
    }

    /** The next byte, or EOF at the end of the input. */
    method GetChar() returns (r: int)
      requires Valid() && !eorStop && (isClosed || isBeginProcessed)
      modifies this, buff
      ensures Valid() && eorStop == old(eorStop) && kind == old(kind)
      ensures old(isBeginProcessed) ==> requestId == old(requestId)
      ensures |Pending()| <= |old(Pending())|
      ensures isBeginProcessed == old(isBeginProcessed)
      ensures r == EOF || 0 <= r < 256
      ensures r == EOF ==> isClosed
      ensures Follows(old(Ahead()), old(replies), if r == EOF then [] else [r as Byte])
    {
      hide Run;
      ghost var o, replies0 := Ahead(), replies;
      assert [] + Ahead().content == Ahead().content;
      assert Follows(o, replies0, []);
      hide Follows, Ahead;
      if isClosed {
        return EOF;
      }
      if rdNext == stop {
        More(o, replies0, []);
        if isClosed {
          return EOF;
        }
      }
      var c := Take(o, replies0, [], 1);
      assert c == [c[0]];
      return c[0] as int;
    }

    /** Starts looking for records of another kind; whatever padding was left is
        forgotten. */
    method SetReaderType(kind: Byte)
      requires Bounds()
      modifies this`kind, this`eorStop, this`skip, this`contentLen, this`paddingLen, this`stop, this`isClosed
      ensures Valid() && !isClosed && rdNext == stop
      ensures At() == Position(0, 0, false, false, kind, requestId, isBeginProcessed)
      ensures Pending() == old(Pending()) && requestId == old(requestId) && isBeginProcessed == old(isBeginProcessed)
      ensures fcgiErrno == old(fcgiErrno) && replies == old(replies)
      ensures role == old(role) && keepConnection == old(keepConnection)
    {
      this.kind, eorStop, skip, contentLen, paddingLen := kind, false, false, 0, 0;
      stop := rdNext;
      isClosed := false;
    }
  }
}
