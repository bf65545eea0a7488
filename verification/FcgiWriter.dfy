/** The writing half of the FastCGI library: a buffer whose first eight bytes are
    kept free for the header of the record it will become, and the close protocol
    that ends a stream and, for the last writer, the request. */
module FcgiWriter {
  import opened Basics
  import opened FcgiRecord

  const EOF := -1

  /** The part of a request that its writers share. `wire` is what the connection
      has accepted so far; `records` is the ghost reading of it. */
  class Request {
    const requestId: nat
    /** How the operating system answers the n-th write: by failing (below 1), or by
        taking at most that many bytes. */
    const answers: nat -> int
    var writes: nat
    var appStatus: int
    var nWriters: int
    var wire: Bytes
    ghost var records: seq<Record>

    constructor (requestId: nat, answers: nat -> int, appStatus: int, nWriters: int)
      ensures this.requestId == requestId && this.answers == answers
      ensures this.appStatus == appStatus && this.nWriters == nWriters
      ensures wire == [] && records == [] && writes == 0
    {
      this.requestId := requestId;
      this.answers := answers;
      writes := 0;
      this.appStatus := appStatus;
      this.nWriters := nWriters;
      wire, records := [], [];
    }

    ghost predicate Reliable() {
      forall i: nat :: answers(i) >= 1
    }

    /** One OS write: it fails, or takes a non-empty part of what it is given. */
    method OsWrite(data: Bytes) returns (wrote: int)
      requires data != []
      modifies this`wire, this`writes
      ensures -1 <= wrote <= |data| && wrote != 0
      ensures var answer := answers(old(writes));
        wrote == if answer < 1 then -1 else if answer < |data| then answer else |data|
      ensures wire == old(wire) + (if wrote < 0 then [] else data[..wrote])
    {
      wrote := answers(writes);
      writes := writes + 1;
      if wrote < 1 {
        wrote := -1;
      } else {
        wrote := if wrote < |data| then wrote else |data|;
        wire := wire + data[..wrote];
      }
    }

    method WriteItAll(data: Bytes) returns (ok: bool)
      modifies this`wire, this`writes
      ensures ok ==> wire == old(wire) + data
      ensures Reliable() ==> ok
    {
      var sent := 0;
      while sent < |data|
        invariant 0 <= sent <= |data|
        invariant wire == old(wire) + data[..sent]
      {
        var wrote := OsWrite(data[sent..]);
        if wrote < 0 {
          return false;
        }
        sent := sent + wrote;
      }
      return true;
    }
  }

  function EndRequestBody(appStatus: int, protocolStatus: Byte): (r: Bytes)
    ensures |r| == 8
  {
    WordBytes(appStatus / 0x1_0000) + WordBytes(appStatus) + [protocolStatus, 0, 0, 0]
  }

  /** Its first four bytes are the status as 32 bits, the fifth says what became of the
      request (section 5.5 of the FastCGI Specification). */
  lemma StatusOnWire(appStatus: int, protocolStatus: Byte)
    ensures var b := EndRequestBody(appStatus, protocolStatus);
      |b| == 8 && Big(b[..4]) == appStatus % 0x1_0000_0000 && b[4..] == [protocolStatus, 0, 0, 0]
  {
    var high, low := WordBytes(appStatus / 0x1_0000), WordBytes(appStatus);
    assert EndRequestBody(appStatus, protocolStatus)[..4] == high + low;
    BigAppend(high, low);
    BigWord(appStatus / 0x1_0000);
    BigWord(appStatus);
    Halves(appStatus);
  }

  lemma Halves(n: int)
    ensures n % 0x1_0000_0000 == (n / 0x1_0000 % 0x1_0000) * 0x1_0000 + n % 0x1_0000
  {
  }

  function StreamEnd(kind: Byte, id: nat): Record { Record(kind, id, [], []) }

  function RequestEnd(id: nat, appStatus: int): Record {
    Record(END_REQUEST, id, EndRequestBody(appStatus, REQUEST_COMPLETE), [])
  }

  lemma RequestEndFits(id: nat, appStatus: int)
    requires id <= 0xffff
    ensures Fits(RequestEnd(id, appStatus)) && RequestEnd(id, appStatus).padding == []
  {
  }

  /** A record as the library frames stream data: never empty, padded with the
      fewest zeros that make its length a multiple of eight. */
  predicate IsData(r: Record, kind: Byte, id: nat) {
    && r.kind == kind && r.id == id
    && 0 < |r.content| <= MAX_LENGTH
    && |r.padding| <= 7 && r.padding == Zeros(|r.padding|)
    && (HEADER_LEN + |r.content| + |r.padding|) % 8 == 0
  }

  predicate AllData(rs: seq<Record>, kind: Byte, id: nat) {
    forall i :: 0 <= i < |rs| ==> IsData(rs[i], kind, id)
  }

  /** The record `EmptyBuffProc` makes of the buffered bytes, if there are any. */
  function Framed(kind: Byte, id: nat, data: Bytes): (r: seq<Record>)
    requires |data| <= 65528 && id <= 0xffff
    ensures AllData(r, kind, id) && AllFit(r) && Contents(r) == data
  {
    if data == [] then [] else [Record(kind, id, data, Zeros(AlignInt8(|data|) - |data|))]
  }

  /** The bytes of that record. */
  lemma FramedBytes(kind: Byte, id: nat, data: Bytes)
    requires |data| <= 65528 && id <= 0xffff
    ensures var padding := AlignInt8(|data|) - |data|;
      && 0 <= padding <= 7
      && EncodeAll(Framed(kind, id, data)) ==
         if data == [] then [] else MakeHeader(kind, id, |data|, padding) + (data + Zeros(padding))
  {
    hide MakeHeader;
    if data != [] {
      var padding := AlignInt8(|data|) - |data|;
      var r := Record(kind, id, data, Zeros(padding));
      Assoc(MakeHeader(kind, id, |data|, padding), data, Zeros(padding));
      assert Framed(kind, id, data)[1..] == [];
      assert EncodeAll([r]) == Encode(r) + [];
    }
  }

  lemma NoRecords()
    ensures EncodeAll([]) == [] && Contents([]) == [] && AllFit([])
    ensures forall kind, id :: AllData([], kind, id)
  {
  }

  /** The records that close a stream: its end-of-stream record, left out for an
      error stream on which nothing was written, and the end of the request when no
      other writer is open. */
  function CloseRecords(kind: Byte, id: nat, silent: bool, nWriters: int, appStatus: int): (r: seq<Record>)
    requires id <= 0xffff
    ensures AllFit(r)
  {
    (if kind == STDERR && silent then [] else [StreamEnd(kind, id)])
    + (if nWriters == 1 then [RequestEnd(id, appStatus)] else [])
  }

  /** `NewStream`'s buffer size, before the start of the buffer is aligned. */
  function BufferSize(bufflen: int): (r: nat)
    ensures 32 <= r <= 65536 && r % 8 == 0
    ensures 32 <= bufflen <= 65536 ==> bufflen <= r < bufflen + 8
    ensures (bufflen < 32 ==> r == 32) && (bufflen > 65536 ==> r == 65536)
  {
    var atLeast := if bufflen > 32 then bufflen else 32;
    AlignInt8(if atLeast < MAX_LENGTH + 1 then atLeast else MAX_LENGTH + 1)
  }

  class Writer {
    const req: Request
    const buff: array<Byte>
    const kind: Byte
    var wrNext: nat
    var stop: nat
    var isClosed: bool
    var wasFCloseCalled: bool
    var fcgiErrno: int
    var isAnythingWritten: bool
    var rawWrite: bool

    /** What holds between calls of the API. */
    ghost predicate Valid()
      reads this
    {
      Bounds() && (wasFCloseCalled <==> rawWrite)
    }

    /** What holds even while the stream is being closed. */
    ghost predicate Bounds()
      reads this
    {
      Frame() && (!rawWrite ==> HEADER_LEN <= wrNext)
    }

    ghost predicate Frame()
      reads this
    {
      && req.requestId <= 0xffff
      && 24 <= buff.Length <= 65536 && buff.Length % 8 == 0
      && wrNext <= stop <= buff.Length
      && (!wasFCloseCalled ==> stop == buff.Length)
      && (wasFCloseCalled ==> isClosed && wrNext == stop)
      && (isClosed <==> fcgiErrno != 0 || wasFCloseCalled)
    }

    /** The records closing the stream would add. */
    ghost function Closing(): (r: seq<Record>)
      requires Bounds()
      reads this, buff, req
      ensures AllFit(r)
    {
      CloseRecords(kind, req.requestId, Pending() == [] && !isAnythingWritten, req.nWriters, req.appStatus)
    }

    /** The records emptying the buffer adds. */
    ghost function Emission(doClose: bool): (r: seq<Record>)
      requires Bounds()
      reads this, buff, req
      ensures AllFit(r)
    {
      (if rawWrite then [] else Framed(kind, req.requestId, Pending())) + (if doClose then Closing() else [])
    }

    /** The bytes that come before those of `Emission`. */
    ghost function Base(): Bytes
      requires Bounds()
      reads this, buff, req
    {
      if rawWrite then Sent() else req.wire
    }

    /** Everything sent or buffered, as it will appear on the wire in raw mode. */
    ghost function Sent(): Bytes
      requires Frame()
      reads this, buff, req
    {
      req.wire + buff[..wrNext]
    }

    /** Bytes accepted from the client and not yet framed. */
    ghost function Pending(): Bytes
      requires Bounds()
      reads this, buff
    {
      if rawWrite then [] else buff[HEADER_LEN..wrNext]
    }

    constructor (req: Request, bufflen: int, aligned: bool, kind: Byte)
      requires req.requestId <= 0xffff
      ensures Valid() && fresh(buff)
      ensures this.req == req && this.kind == kind
      ensures !isClosed && !wasFCloseCalled && fcgiErrno == 0 && !isAnythingWritten
      ensures Pending() == []
    {
      hide AlignInt8;
      var size := if aligned then BufferSize(bufflen) else BufferSize(bufflen) - 8;
      this.req := req;
      this.kind := kind;
      buff := new Byte[size];
      wrNext, stop := HEADER_LEN, size;
      isClosed, wasFCloseCalled, fcgiErrno := false, false, 0;
      isAnythingWritten, rawWrite := false, false;
    }

    method SetError(e: int)
      requires e != 0
      modifies this`fcgiErrno, this`isClosed
      ensures fcgiErrno == (if old(fcgiErrno) == 0 then e else old(fcgiErrno)) && isClosed
    {
      if fcgiErrno == 0 {
        fcgiErrno := e;
      }
      isClosed := true;
    }

    /** Copies `data` behind the bytes already in the buffer. */
    method Append(data: Bytes)
      requires wrNext + |data| <= buff.Length
      modifies this`wrNext, buff
      ensures wrNext == old(wrNext) + |data|
      ensures buff[..wrNext] == old(buff[..wrNext]) + data
      ensures HEADER_LEN <= old(wrNext) ==> buff[HEADER_LEN..wrNext] == old(buff[HEADER_LEN..wrNext]) + data
    {
      forall i | 0 <= i < |data| {
        buff[wrNext + i] := data[i];
      }
      wrNext := wrNext + |data|;
    }

    /** Turns the buffered bytes into a record in place, or gives back the space kept
        for its header when there are none. */
    method FrameRecord()
      requires Bounds() && !wasFCloseCalled && !rawWrite
      modifies this`wrNext, buff, req`records
      ensures Frame()
      ensures var framed := Framed(kind, req.requestId, old(Pending()));
        Sent() == req.wire + EncodeAll(framed) && req.records == old(req.records) + framed
      ensures if old(Pending()) == [] then wrNext == 0 else HEADER_LEN < wrNext
    {
      hide Framed, EncodeAll, MakeHeader, AlignInt8, Zeros;
      ghost var pending := Pending();
      FramedBytes(kind, req.requestId, pending);
      var cLen := wrNext - HEADER_LEN;
      if cLen > 0 {
        var eLen := AlignInt8(cLen);
        Append(Zeros(eLen - cLen));
        assert buff[HEADER_LEN..wrNext] == pending + Zeros(eLen - cLen);
        var header := MakeHeader(kind, req.requestId, cLen, eLen - cLen);
        forall i | 0 <= i < HEADER_LEN {
          buff[i] := header[i];
        }
        assert buff[..wrNext] == header + buff[HEADER_LEN..wrNext];
      } else {
        wrNext := 0;
      }
      req.records := req.records + Framed(kind, req.requestId, pending);
    }

    /** Hands the buffer to the connection. */
    method Drain() returns (ok: bool)
      requires Frame() && !wasFCloseCalled
      modifies this, req`wire, req`writes
      ensures Frame() && !wasFCloseCalled && rawWrite == old(rawWrite) && stop == old(stop)
      ensures old(fcgiErrno) != 0 || req.Reliable() ==> fcgiErrno == old(fcgiErrno)
      ensures isAnythingWritten == (old(isAnythingWritten) || old(wrNext) != 0)
      ensures if ok then wrNext == 0 else wrNext == old(wrNext) != 0 && fcgiErrno != 0
      ensures fcgiErrno == 0 ==> req.wire == old(Sent())
    {
      ok := true;
      if wrNext != 0 {
        isAnythingWritten := true;
        ok := req.WriteItAll(buff[..wrNext]);
        if !ok {
          var osErrno :| osErrno > 0;
          SetError(osErrno);
          return;
        }
        wrNext := 0;
      }
    }

    /** The first half of `EmptyBuffProc`: all that goes into the buffer. */
    method Seal(doClose: bool)
      requires Bounds() && !wasFCloseCalled && (doClose ==> !rawWrite)
      modifies this, buff, req
      ensures Frame() && !wasFCloseCalled && rawWrite == (old(rawWrite) || doClose)
      ensures old(fcgiErrno) != 0 || req.Reliable() ==> fcgiErrno == old(fcgiErrno)
      ensures req.appStatus == old(req.appStatus)
      ensures req.nWriters == old(req.nWriters) - (if doClose then 1 else 0)
      ensures fcgiErrno == 0 ==>
        req.records == old(req.records) + old(Emission(doClose))
        && Sent() == old(Base()) + EncodeAll(old(Emission(doClose)))
      ensures !doClose ==>
        isAnythingWritten == old(isAnythingWritten) && isClosed == old(isClosed)
        && (!rawWrite ==> if old(Pending()) == [] then wrNext == 0 else HEADER_LEN <= wrNext)
      decreases if doClose then 5 else 0, 0
    {
      hide Framed, CloseRecords, EncodeAll, Contents, AllData, AllFit;
      NoRecords();
      ghost var base, records := Base(), req.records;
      ghost var framed := Emission(false);
      ghost var closing := if doClose then Closing() else [];
      assert Emission(doClose) == framed + closing;
      assert framed == if rawWrite then [] else Framed(kind, req.requestId, Pending());
      assert base + [] == base && records + [] == records;
      if !rawWrite {
        FrameRecord();
      }
      assert Sent() == base + EncodeAll(framed) && req.records == records + framed;
      if doClose {
        WriteCloseRecords();
      }
      EncodeAllAppend(framed, closing);
      Assoc(base, EncodeAll(framed), EncodeAll(closing));
      Assoc(records, framed, closing);
    }

    method EmptyBuffProc(doClose: bool)
      requires Bounds() && !wasFCloseCalled
      requires doClose ==> !rawWrite
      requires !doClose ==> !isClosed
      modifies this, buff, req
      ensures Bounds() && !wasFCloseCalled && rawWrite == (old(rawWrite) || doClose)
      ensures old(fcgiErrno) != 0 || req.Reliable() ==> fcgiErrno == old(fcgiErrno)
      ensures req.appStatus == old(req.appStatus)
      ensures req.nWriters == old(req.nWriters) - (if doClose then 1 else 0)
      ensures fcgiErrno == 0 ==> wrNext == (if rawWrite then 0 else HEADER_LEN)
      ensures fcgiErrno == 0 ==>
        req.records == old(req.records) + old(Emission(doClose))
        && req.wire == old(Base()) + EncodeAll(old(Emission(doClose)))
      ensures fcgiErrno == 0 && !doClose && !rawWrite ==>
        isAnythingWritten == (old(isAnythingWritten) || old(Pending()) != [])
      decreases if doClose then 5 else 0, 1
    {
      Seal(doClose);
      var ok := Drain();
      if ok && !rawWrite {
        wrNext := wrNext + HEADER_LEN;
      }
    }

    /** Puts a record, if it is needed, into the raw stream. */
    method PutRecord(end: Record, needed: bool)
      requires Frame() && !wasFCloseCalled && rawWrite && Fits(end) && end.padding == []
      modifies this, buff, req
      ensures Frame() && !wasFCloseCalled && rawWrite
      ensures old(fcgiErrno) != 0 || req.Reliable() ==> fcgiErrno == old(fcgiErrno)
      ensures req.appStatus == old(req.appStatus) && req.nWriters == old(req.nWriters)
      ensures fcgiErrno == 0 ==>
        var more := if needed then [end] else [];
        Sent() == old(Sent()) + EncodeAll(more) && req.records == old(req.records) + more
      decreases 2
    {
      if needed {
        assert Encode(end) == MakeHeader(end.kind, end.id, |end.content|, 0) + end.content;
        assert EncodeAll([end]) == Encode(end) + EncodeAll([]);
        var _ := PutStr(MakeHeader(end.kind, end.id, |end.content|, 0) + end.content);
        req.records := req.records + [end];
      }
    }

    method WriteCloseRecords()
      requires Frame() && !wasFCloseCalled && !rawWrite
      modifies this, buff, req
      ensures Frame() && !wasFCloseCalled && rawWrite
      ensures old(fcgiErrno) != 0 || req.Reliable() ==> fcgiErrno == old(fcgiErrno)
      ensures req.appStatus == old(req.appStatus) && req.nWriters == old(req.nWriters) - 1
      ensures fcgiErrno == 0 ==>
        var more := CloseRecords(kind, req.requestId, old(wrNext) == 0 && !old(isAnythingWritten),
                                 old(req.nWriters), old(req.appStatus));
        req.records == old(req.records) + more && Sent() == old(Sent()) + EncodeAll(more)
      decreases 3
    {
      hide EncodeAll, RequestEnd, Encode;
      NoRecords();
      RequestEndFits(req.requestId, req.appStatus);
      ghost var sent, records := Sent(), req.records;
      rawWrite := true;
      var silent := wrNext == 0 && !isAnythingWritten;
      var streamEnd := StreamEnd(kind, req.requestId);
      PutRecord(streamEnd, !(kind == STDERR && silent));
      var requestEnd := RequestEnd(req.requestId, req.appStatus);
      PutRecord(requestEnd, req.nWriters == 1);
      ghost var first := if kind == STDERR && silent then [] else [streamEnd];
      ghost var second := if req.nWriters == 1 then [requestEnd] else [];
      EncodeAllAppend(first, second);
      Assoc(sent, EncodeAll(first), EncodeAll(second));
      Assoc(records, first, second);
      req.nWriters := req.nWriters - 1;
    }

    /** Copies what fits and, if that is not everything, empties the buffer. The ghost
        parameters are the state some writing started from and the bytes it took so far. */
    method PutSome(data: Bytes, ghost records: seq<Record>, ghost wire: Bytes, ghost bytes: Bytes) returns (m: nat)
      requires Bounds() && !wasFCloseCalled && (isClosed ==> wrNext != stop)
      requires fcgiErrno == 0 && !rawWrite ==> Took(records, wire, bytes)
      requires fcgiErrno == 0 && rawWrite ==> Sent() == bytes
      modifies this, buff, req
      ensures Bounds() && !wasFCloseCalled && rawWrite == old(rawWrite)
      ensures old(fcgiErrno) != 0 || req.Reliable() ==> fcgiErrno == old(fcgiErrno)
      ensures req.appStatus == old(req.appStatus) && req.nWriters == old(req.nWriters)
      ensures m <= |data|
      ensures m < |data| ==> isClosed || wrNext != stop
      ensures m == 0 ==> data == [] || old(wrNext == stop)
      ensures fcgiErrno == 0 && rawWrite ==>
        Sent() == bytes + data[..m] && req.records == old(req.records)
      ensures fcgiErrno == 0 && !rawWrite ==>
        && Took(records, wire, bytes + data[..m])
        && old(req.records) <= req.records
        && isAnythingWritten == (old(isAnythingWritten) || old(req.records) != req.records)
      decreases 0, 2
    {
      hide Framed, EncodeAll, Contents, AllData, AllFit;
      NoRecords();
      ghost var records', wire', pending := req.records, req.wire, Pending();
      m := if |data| < stop - wrNext then |data| else stop - wrNext;
      Append(data[..m]);
      Assoc(req.wire, old(buff[..wrNext]), data[..m]);
      ghost var taken := Pending();
      if m < |data| && !isClosed {
        assert Emission(false) == if rawWrite then [] else Framed(kind, req.requestId, taken);
        EmptyBuffProc(false);
      }
      if fcgiErrno == 0 && !rawWrite {
        assert taken == pending + data[..m];
        if req.wire == wire' && req.records == records' && Pending() == taken {
          TookNothing();
        } else {
          TookOne(records', wire', taken);
        }
        TookMore(records, wire, bytes, records', wire', pending, data[..m]);
      }
    }

    /** Returns the number of bytes written, all of them, or EOF. */
    method PutStr(data: Bytes) returns (r: int)
      requires Bounds()
      modifies this, buff, req
      ensures Bounds() && rawWrite == old(rawWrite) && wasFCloseCalled == old(wasFCloseCalled)
      ensures old(fcgiErrno) != 0 || req.Reliable() ==> fcgiErrno == old(fcgiErrno)
      ensures req.appStatus == old(req.appStatus) && req.nWriters == old(req.nWriters)
      ensures r == |data| || (r == EOF && isClosed)
      ensures wasFCloseCalled ==>
        r == (if data == [] then 0 else EOF) && isAnythingWritten == old(isAnythingWritten)
        && req.wire == old(req.wire) && req.records == old(req.records)
      ensures fcgiErrno == 0 && !wasFCloseCalled && rawWrite ==>
        Sent() == old(Sent()) + data && req.records == old(req.records)
      ensures fcgiErrno == 0 && !wasFCloseCalled && !rawWrite ==>
        r == |data| && Took(old(req.records), old(req.wire), old(Pending()) + data)
      ensures fcgiErrno == 0 && !wasFCloseCalled && !rawWrite ==>
        isAnythingWritten == (old(isAnythingWritten) || old(req.records) != req.records)
      decreases 1
    {
      if |data| <= stop - wrNext {
        Append(data);
        Assoc(req.wire, old(buff[..wrNext]), data);
        return |data|;
      }
      r := PutSlowly(data);
    }

    /** The general case: the stream is closed or the buffer must be emptied. */
    method PutSlowly(data: Bytes) returns (r: int)
      requires Bounds() && data != []
      modifies this, buff, req
      ensures Bounds() && rawWrite == old(rawWrite) && wasFCloseCalled == old(wasFCloseCalled)
      ensures old(fcgiErrno) != 0 || req.Reliable() ==> fcgiErrno == old(fcgiErrno)
      ensures req.appStatus == old(req.appStatus) && req.nWriters == old(req.nWriters)
      ensures r == |data| || (r == EOF && isClosed)
      ensures wasFCloseCalled ==>
        r == EOF && isAnythingWritten == old(isAnythingWritten)
        && req.wire == old(req.wire) && req.records == old(req.records)
      ensures fcgiErrno == 0 && !wasFCloseCalled && rawWrite ==>
        Sent() == old(Sent()) + data && req.records == old(req.records)
      ensures fcgiErrno == 0 && !wasFCloseCalled && !rawWrite ==>
        && r == |data| && Took(old(req.records), old(req.wire), old(Pending()) + data)
        && isAnythingWritten == (old(isAnythingWritten) || old(req.records) != req.records)
      decreases 0, 3
    {
      hide Took, Framed, EncodeAll, Contents, AllData, AllFit;
      if wasFCloseCalled {
        return EOF;
      }
      if !rawWrite {
        TookNothing();
      }
      var moved := 0;
      ghost var start := if rawWrite then Sent() else Pending();
      assert start + data[..moved] == start;
      while true
        invariant 0 <= moved <= |data|
        invariant Bounds() && rawWrite == old(rawWrite) && !wasFCloseCalled
        invariant old(fcgiErrno) != 0 || req.Reliable() ==> fcgiErrno == old(fcgiErrno)
        invariant req.appStatus == old(req.appStatus) && req.nWriters == old(req.nWriters)
        invariant fcgiErrno == 0 && rawWrite ==>
          Sent() == start + data[..moved] && req.records == old(req.records)
        invariant fcgiErrno == 0 && !rawWrite ==>
          && old(req.records) <= req.records
          && Took(old(req.records), old(req.wire), start + data[..moved])
          && isAnythingWritten == (old(isAnythingWritten) || old(req.records) != req.records)
        decreases 2 * (|data| - moved) + (if wrNext == stop then 1 else 0), !isClosed
      {
        if isClosed && wrNext == stop {
          return EOF;
        }
        var m := PutSome(data[moved..], old(req.records), old(req.wire), start + data[..moved]);
        NextSlice(start, data, moved, m);
        moved := moved + m;
        if moved == |data| {
          assert start + data[..moved] == start + data;
          return moved;
        }
      }
    }

    lemma TookNothing()
      requires Bounds()
      ensures Took(req.records, req.wire, Pending())
    {
      hide EncodeAll, Contents, AllData, AllFit;
      NoRecords();
      assert req.wire + [] == req.wire && [] + Pending() == Pending() && req.records[|req.records|..] == [];
    }

    /** What was buffered has become a record. */
    lemma TookOne(records: seq<Record>, wire: Bytes, pending: Bytes)
      requires Bounds() && Pending() == [] && |pending| <= 65528
      requires req.records == records + Framed(kind, req.requestId, pending)
      requires req.wire == wire + EncodeAll(Framed(kind, req.requestId, pending))
      ensures Took(records, wire, pending)
    {
      hide Framed, EncodeAll, Contents, AllData, AllFit;
      var more := Framed(kind, req.requestId, pending);
      assert req.records[|records|..] == more && Contents(more) + [] == Contents(more);
    }

    /** Two stretches of writing compose. */
    lemma TookMore(records0: seq<Record>, wire0: Bytes, bytes: Bytes,
                   records: seq<Record>, wire: Bytes, pending: Bytes, data: Bytes)
      requires Bounds()
      requires records0 <= records
      requires var more := records[|records0|..];
        AllData(more, kind, req.requestId) && AllFit(more)
        && wire == wire0 + EncodeAll(more) && Contents(more) + pending == bytes
      requires Took(records, wire, pending + data)
      ensures Took(records0, wire0, bytes + data)
    {
      hide EncodeAll, Contents, Fits;
      var more, last := records[|records0|..], req.records[|records|..];
      assert req.records[|records0|..] == more + last;
      EncodeAllAppend(more, last);
      ContentsAppend(more, last);
      Assoc(wire0, EncodeAll(more), EncodeAll(last));
      Assoc(Contents(more), pending, data);
      Assoc(Contents(more), Contents(last), Pending());
    }

    /** `records` and `wire` grew by data records only, and what they carry followed
        by what is still buffered is `bytes`. */
    ghost predicate Took(records: seq<Record>, wire: Bytes, bytes: Bytes)
      requires Bounds()
      reads this, buff, req
    {
      && records <= req.records
      && var more := req.records[|records|..];
         && AllData(more, kind, req.requestId) && AllFit(more)
         && req.wire == wire + EncodeAll(more)
         && Contents(more) + Pending() == bytes
    }

    /** Writes one byte; returns it, or EOF. */
    method PutChar(c: Byte) returns (r: int)
      requires Valid()
      modifies this, buff, req
      ensures Valid() && wasFCloseCalled == old(wasFCloseCalled)
      ensures old(fcgiErrno) != 0 || req.Reliable() ==> fcgiErrno == old(fcgiErrno)
      ensures req.appStatus == old(req.appStatus) && req.nWriters == old(req.nWriters)
      ensures wasFCloseCalled ==>
        r == EOF && isAnythingWritten == old(isAnythingWritten)
        && req.wire == old(req.wire) && req.records == old(req.records)
      ensures fcgiErrno == 0 && !wasFCloseCalled ==>
        && r == c as int && Took(old(req.records), old(req.wire), old(Pending()) + [c])
        && isAnythingWritten == (old(isAnythingWritten) || old(req.records) != req.records)
    {
      if wrNext != stop {
        Append([c]);
        return c as int;
      }
      if isClosed {
        return EOF;
      }
      EmptyBuffProc(false);
      if wrNext != stop {
        Append([c]);
        return c as int;
      }
      return EOF;
    }

    method FFlush() returns (r: int)
      requires Valid()
      modifies this, buff, req
      ensures Valid() && wasFCloseCalled == old(wasFCloseCalled)
      ensures old(fcgiErrno) != 0 || req.Reliable() ==> fcgiErrno == old(fcgiErrno)
      ensures req.appStatus == old(req.appStatus) && req.nWriters == old(req.nWriters)
      ensures old(isClosed) ==>
        r == 0 && isAnythingWritten == old(isAnythingWritten)
        && req.wire == old(req.wire) && req.records == old(req.records)
      ensures !old(isClosed) ==> r == (if fcgiErrno == 0 then 0 else -1)
      ensures fcgiErrno == 0 && !wasFCloseCalled ==>
        && Pending() == [] && Took(old(req.records), old(req.wire), old(Pending()))
        && isAnythingWritten == (old(isAnythingWritten) || old(req.records) != req.records)
    {
      if isClosed {
        return 0;
      }
      EmptyBuffProc(false);
      return if isClosed then -1 else 0;
    }

    /** Flushes and closes the stream; the first call on the last open writer also ends
        the request. Later calls do nothing. */
    method FClose() returns (r: int)
      requires Valid()
      modifies this, buff, req
      ensures Valid() && wasFCloseCalled
      ensures r == if fcgiErrno == 0 then 0 else EOF
      ensures old(fcgiErrno) != 0 || req.Reliable() ==> fcgiErrno == old(fcgiErrno)
      ensures req.appStatus == old(req.appStatus)
      ensures old(wasFCloseCalled) ==>
        && req.wire == old(req.wire) && req.records == old(req.records) && req.nWriters == old(req.nWriters)
        && isAnythingWritten == old(isAnythingWritten)
      ensures !old(wasFCloseCalled) ==> req.nWriters == old(req.nWriters) - 1
      ensures !old(wasFCloseCalled) && fcgiErrno == 0 ==>
        req.records == old(req.records) + old(Emission(true))
        && req.wire == old(req.wire) + EncodeAll(old(Emission(true)))
    {
      if !wasFCloseCalled {
        EmptyBuffProc(true);
        wasFCloseCalled := true;
        isClosed := true;
        stop := wrNext;
      }
      return if fcgiErrno == 0 then 0 else EOF;
    }
  }
}
