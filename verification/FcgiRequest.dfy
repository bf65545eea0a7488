/** A request seen from the application: its out and err streams share one
    connection, are written, flushed and closed in any order, and are finished
    together. */
module FcgiRequest {
  import opened Basics
  import opened FcgiRecord
  import opened FcgiWriter

  /** A client call on the out stream (`err` false) or the err stream. */
  datatype Op =
    | PutStr(err: bool, data: Bytes)
    | PutChar(err: bool, c: Byte)
    | Flush(err: bool)
    | Close(err: bool)
    | SetExitStatus(status: int)

  // -------- what the calls ask for --------

  predicate ClosedBy(ops: seq<Op>, err: bool) {
    ops != [] && (ops[|ops| - 1] == Close(err) || ClosedBy(ops[..|ops| - 1], err))
  }

  /** The bytes put on a stream before it was first closed. */
  function Accepted(ops: seq<Op>, err: bool): Bytes {
    if ops == [] then []
    else
      var before := ops[..|ops| - 1];
      Accepted(before, err) + (if ClosedBy(before, err) then [] else BytesOf(ops[|ops| - 1], err))
  }

  function BytesOf(op: Op, err: bool): Bytes {
    match op
    case PutStr(e, data) => if e == err then data else []
    case PutChar(e, c) => if e == err then [c] else []
    case _ => []
  }

  /** The exit status last set before both streams were closed. */
  function FinalStatus(ops: seq<Op>, status: int): int {
    if ops == [] then status
    else
      var before := ops[..|ops| - 1];
      match ops[|ops| - 1]
      case SetExitStatus(s) =>
        if ClosedBy(before, false) && ClosedBy(before, true) then FinalStatus(before, status) else s
      case _ => FinalStatus(before, status)
  }

  // -------- what the wire should carry --------

  /** The records of one stream: data records carrying `bytes`, then its end-of-stream
      record if it has `ended`. */
  predicate StreamIs(rs: seq<Record>, kind: Byte, id: nat, bytes: Bytes, ended: bool) {
    var n := if ended then |rs| - 1 else |rs|;
    && 0 <= n
    && AllData(rs[..n], kind, id) && Contents(rs[..n]) == bytes
    && rs[n..] == if ended then [StreamEnd(kind, id)] else []
  }

  /** Exactly one end-of-request record, and nothing after it. */
  predicate EndsOnce(rs: seq<Record>, id: nat, status: int) {
    OfKind(rs, END_REQUEST) == [RequestEnd(id, status)]
    && rs != [] && rs[|rs| - 1] == RequestEnd(id, status)
  }

  /** Exactly one end of the request, at the end, whose bytes say that the request is
      complete and which status it had, as 32 bits with the most significant byte first. */
  predicate EndsWithStatus(rs: seq<Record>, id: nat, status: int) {
    && rs != [] && OfKind(rs, END_REQUEST) == [rs[|rs| - 1]]
    && var last := rs[|rs| - 1];
       && last.kind == END_REQUEST && last.id == id && last.padding == []
       && |last.content| == 8 && Big(last.content[..4]) == status % 0x1_0000_0000
       && last.content[4] == 0 && last.content[5..] == [0, 0, 0]
  }

  lemma StatusRead(rs: seq<Record>, id: nat, status: int)
    requires EndsOnce(rs, id, status)
    ensures EndsWithStatus(rs, id, status)
  {
    hide OfKind, EndRequestBody, Big;
    StatusOnWire(status, REQUEST_COMPLETE);
    var b := EndRequestBody(status, REQUEST_COMPLETE);
    assert b[4] == b[4..][0] && b[5..] == b[4..][1..];
  }

  predicate OwnKinds(rs: seq<Record>, id: nat) {
    forall i :: 0 <= i < |rs| ==> rs[i].id == id && rs[i].kind in {STDOUT, STDERR, END_REQUEST}
  }

  predicate IsCompleteRequest(wire: Bytes, id: nat, out: Bytes, err: Bytes, status: int) {
    match ParseRecords(wire)
    case None => false
    case Some(rs) =>
      && OwnKinds(rs, id)
      && StreamIs(OfKind(rs, STDOUT), STDOUT, id, out, true)
      && StreamIs(OfKind(rs, STDERR), STDERR, id, err, err != [])
      && EndsWithStatus(rs, id, status)
  }

  // -------- records added to a stream --------

  lemma AllDataAppend(a: seq<Record>, b: seq<Record>, kind: Byte, id: nat)
    requires AllData(a, kind, id) && AllData(b, kind, id)
    ensures AllData(a + b, kind, id)
  {
  }

  lemma Extended(rs: seq<Record>, more: seq<Record>, kind: Byte, other: Byte)
    requires forall i :: 0 <= i < |more| ==> more[i].kind == kind
    ensures OfKind(rs + more, other) == if other == kind then OfKind(rs, other) + more else OfKind(rs, other)
  {
    OfKindAppend(rs, more, other);
    OfKindUniform(more, kind, other);
    assert OfKind(rs, other) + [] == OfKind(rs, other);
  }

  lemma OwnKindsAppend(rs: seq<Record>, more: seq<Record>, id: nat)
    requires OwnKinds(rs, id) && OwnKinds(more, id)
    ensures OwnKinds(rs + more, id)
  {
  }

  // -------- the state of a request as a value --------

  datatype Stream = Stream(closed: bool, written: bool, pending: Bytes)

  /** How the records of a stream relate to the bytes it accepted. */
  predicate StreamState(mine: seq<Record>, kind: Byte, id: nat, s: Stream, accepted: Bytes) {
    if s.closed then StreamIs(mine, kind, id, accepted, kind == STDOUT || accepted != [])
    else
      AllData(mine, kind, id) && Contents(mine) + s.pending == accepted && (s.written <==> mine != [])
  }

  datatype State = State(id: nat, records: seq<Record>, wire: Bytes, out: Stream, err: Stream)
  {
    function At(onErr: bool): Stream { if onErr then err else out }

    function With(onErr: bool, s: Stream): State { if onErr then this.(err := s) else this.(out := s) }

    function Grown(more: seq<Record>): State
      requires AllFit(more)
    {
      this.(records := records + more, wire := wire + EncodeAll(more))
    }

    function NWriters(): nat { (if out.closed then 0 else 1) + (if err.closed then 0 else 1) }

    /** The wire is the encoding of the records, all of them this request's. */
    predicate Whole() {
      id <= 0xffff && AllFit(records) && wire == EncodeAll(records) && OwnKinds(records, id)
    }

    /** What one stream did with the bytes it accepted. */
    predicate Side(onErr: bool, ops: seq<Op>) {
      && (At(onErr).closed <==> ClosedBy(ops, onErr))
      && StreamState(OfKind(records, Kind(onErr)), Kind(onErr), id, At(onErr), Accepted(ops, onErr))
    }

    predicate Ended(finalStatus: int) {
      if NWriters() > 0 then OfKind(records, END_REQUEST) == [] else EndsOnce(records, id, finalStatus)
    }

    /** What holds after the calls `ops` even if a write failed. */
    predicate Counted(nWriters: int, appStatus: int, ops: seq<Op>, status: int) {
      && nWriters == NWriters()
      && (nWriters > 0 ==> appStatus == FinalStatus(ops, status))
      && (out.closed <==> ClosedBy(ops, false))
      && (err.closed <==> ClosedBy(ops, true))
    }

    /** The state after the calls `ops`, when every write succeeded. */
    predicate After(ops: seq<Op>, status: int) {
      Whole() && Side(false, ops) && Side(true, ops) && Ended(FinalStatus(ops, status))
    }
  }

  function Kind(onErr: bool): Byte { if onErr then STDERR else STDOUT }

  lemma LastOp(ops: seq<Op>, op: Op)
    ensures (ops + [op])[..|ops|] == ops && (ops + [op])[|ops|] == op
  {
  }

  lemma AcceptedSnoc(ops: seq<Op>, op: Op, onErr: bool)
    ensures Accepted(ops + [op], onErr)
         == Accepted(ops, onErr) + (if ClosedBy(ops, onErr) then [] else BytesOf(op, onErr))
    ensures ClosedBy(ops + [op], onErr) <==> ClosedBy(ops, onErr) || op == Close(onErr)
  {
    LastOp(ops, op);
  }

  lemma StatusSnoc(ops: seq<Op>, op: Op, status: int)
    ensures FinalStatus(ops + [op], status) ==
      if op.SetExitStatus? && !(ClosedBy(ops, false) && ClosedBy(ops, true)) then op.status
      else FinalStatus(ops, status)
  {
    LastOp(ops, op);
  }

  lemma CountedSnoc(st: State, st': State, appStatus: int, ops: seq<Op>, status: int, op: Op)
    requires st.Counted(st.NWriters(), appStatus, ops, status)
    requires st'.out.closed == (st.out.closed || op == Close(false))
    requires st'.err.closed == (st.err.closed || op == Close(true))
    ensures st'.Counted(st'.NWriters(), if op.SetExitStatus? then op.status else appStatus, ops + [op], status)
  {
    AcceptedSnoc(ops, op, false);
    AcceptedSnoc(ops, op, true);
    StatusSnoc(ops, op, status);
  }

  lemma WholeGrown(st: State, more: seq<Record>, onErr: bool, s: Stream)
    requires st.Whole() && AllFit(more) && OwnKinds(more, st.id)
    ensures st.Grown(more).With(onErr, s).Whole()
  {
    EncodeAllAppend(st.records, more);
    OwnKindsAppend(st.records, more, st.id);
  }

  /** Records of other kinds do not touch a stream. */
  lemma OtherSide(st: State, st': State, ops: seq<Op>, op: Op, onErr: bool)
    requires st.Side(onErr, ops) && st'.id == st.id && st'.At(onErr) == st.At(onErr)
    requires OfKind(st'.records, Kind(onErr)) == OfKind(st.records, Kind(onErr))
    requires op != Close(onErr) || st.At(onErr).closed
    requires BytesOf(op, onErr) == [] || st.At(onErr).closed
    ensures st'.Side(onErr, ops + [op])
  {
    AcceptedSnoc(ops, op, onErr);
  }

  lemma OwnSide(st: State, ops: seq<Op>, op: Op, onErr: bool, mine: seq<Record>, accepted: Bytes)
    requires mine == OfKind(st.records, Kind(onErr))
    requires !ClosedBy(ops, onErr) && (st.At(onErr).closed <==> op == Close(onErr))
    requires accepted == Accepted(ops, onErr) + BytesOf(op, onErr)
    requires StreamState(mine, Kind(onErr), st.id, st.At(onErr), accepted)
    ensures st.Side(onErr, ops + [op])
  {
    AcceptedSnoc(ops, op, onErr);
  }

  /** A call that adds no bytes and closes nothing leaves the state as it was. */
  lemma IdleKeeps(st: State, ops: seq<Op>, status: int, op: Op)
    requires st.After(ops, status)
    requires op.Close? ==> st.At(op.err).closed
    requires op.PutStr? || op.PutChar? ==> st.At(op.err).closed
    ensures st.After(ops + [op], status)
  {
    OtherSide(st, st, ops, op, false);
    OtherSide(st, st, ops, op, true);
    StatusSnoc(ops, op, status);
  }

  lemma PutKeepsStream(mine: seq<Record>, more: seq<Record>, kind: Byte, id: nat, s: Stream, pending: Bytes,
                       accepted: Bytes, data: Bytes)
    requires !s.closed && StreamState(mine, kind, id, s, accepted)
    requires AllData(more, kind, id) && Contents(more) + pending == s.pending + data
    ensures StreamState(mine + more, kind, id, Stream(false, s.written || more != [], pending), accepted + data)
  {
    AllDataAppend(mine, more, kind, id);
    ContentsAppend(mine, more);
    Assoc(Contents(mine), Contents(more), pending);
    Assoc(Contents(mine), s.pending, data);
  }

  lemma DataKinds(rs: seq<Record>, onErr: bool, id: nat)
    requires AllData(rs, Kind(onErr), id)
    ensures OwnKinds(rs, id) && forall i :: 0 <= i < |rs| ==> rs[i].kind == Kind(onErr)
  {
    forall i | 0 <= i < |rs| ensures rs[i].kind == Kind(onErr) && rs[i].id == id {
      assert IsData(rs[i], Kind(onErr), id);
    }
  }

  /** Data records of one stream, carrying what was pending and the call's bytes. */
  lemma PutKeeps(st: State, ops: seq<Op>, status: int, op: Op, more: seq<Record>, pending: Bytes)
    requires st.After(ops, status)
    requires (op.PutStr? || op.PutChar? || op.Flush?) && !st.At(op.err).closed
    requires AllData(more, Kind(op.err), st.id) && AllFit(more)
    requires Contents(more) + pending == st.At(op.err).pending + BytesOf(op, op.err)
    ensures st.Grown(more).With(op.err, Stream(false, st.At(op.err).written || more != [], pending))
              .After(ops + [op], status)
  {
    hide StreamIs, StreamState, AllData, OwnKinds;
    hide Accepted, ClosedBy, FinalStatus, EncodeAll, OfKind, Contents, AllFit;
    var e, k := op.err, Kind(op.err);
    var s' := Stream(false, st.At(e).written || more != [], pending);
    var st' := st.Grown(more).With(e, s');
    DataKinds(more, e, st.id);
    WholeGrown(st, more, e, s');
    Extended(st.records, more, k, k);
    Extended(st.records, more, k, Kind(!e));
    Extended(st.records, more, k, END_REQUEST);
    PutKeepsStream(OfKind(st.records, k), more, k, st.id, st.At(e), pending, Accepted(ops, e), BytesOf(op, e));
    OwnSide(st', ops, op, e, OfKind(st.records, k) + more, Accepted(ops, e) + BytesOf(op, e));
    OtherSide(st, st', ops, op, !e);
    StatusSnoc(ops, op, status);
  }

  /** The records of `CloseRecords` that belong to the stream itself. */
  function OwnEnd(kind: Byte, id: nat, silent: bool): seq<Record> {
    if kind == STDERR && silent then [] else [StreamEnd(kind, id)]
  }

  lemma CloseKeepsStream(mine: seq<Record>, kind: Byte, id: nat, s: Stream, accepted: Bytes)
    requires !s.closed && StreamState(mine, kind, id, s, accepted)
    requires kind == STDOUT || kind == STDERR
    requires |s.pending| <= 65528 && id <= 0xffff
    ensures var more := Framed(kind, id, s.pending) + OwnEnd(kind, id, s.pending == [] && !s.written);
      StreamState(mine + more, kind, id, Stream(true, true, []), accepted)
  {
    var framed := Framed(kind, id, s.pending);
    var end := OwnEnd(kind, id, s.pending == [] && !s.written);
    AllDataAppend(mine, framed, kind, id);
    ContentsAppend(mine, framed);
    if mine != [] {
      assert IsData(mine[0], kind, id);
      assert Contents(mine) == mine[0].content + Contents(mine[1..]);
    }
    assert accepted == [] <==> s.pending == [] && !s.written;
    Assoc(mine, framed, end);
    assert (mine + framed + end)[..|mine + framed|] == mine + framed;
  }

  lemma GrownTwice(st: State, a: seq<Record>, b: seq<Record>)
    requires AllFit(a) && AllFit(b)
    ensures AllFit(a + b) && st.Grown(a + b) == st.Grown(a).Grown(b)
  {
    EncodeAllAppend(a, b);
    Assoc(st.records, a, b);
    Assoc(st.wire, EncodeAll(a), EncodeAll(b));
  }

  /** The records with which a stream ends: its remaining data and its end. */
  function Ending(st: State, e: bool): (r: seq<Record>)
    requires |st.At(e).pending| <= 65528 && st.id <= 0xffff
    ensures AllFit(r) && OwnKinds(r, st.id) && forall i :: 0 <= i < |r| ==> r[i].kind == Kind(e)
  {
    var s := st.At(e);
    DataKinds(Framed(Kind(e), st.id, s.pending), e, st.id);
    Framed(Kind(e), st.id, s.pending) + OwnEnd(Kind(e), st.id, s.pending == [] && !s.written)
  }

  lemma EndingElsewhere(st: State, ops: seq<Op>, e: bool, other: Byte)
    requires |st.At(e).pending| <= 65528 && st.id <= 0xffff
    ensures other != Kind(e) ==> OfKind(st.records + Ending(st, e), other) == OfKind(st.records, other)
    ensures OfKind(st.records + Ending(st, e), Kind(e)) == OfKind(st.records, Kind(e)) + Ending(st, e)
  {
    Extended(st.records, Ending(st, e), Kind(e), other);
    Extended(st.records, Ending(st, e), Kind(e), Kind(e));
  }

  /** First half of closing a stream. */
  lemma StreamEnds(st: State, ops: seq<Op>, e: bool)
    requires st.Whole() && st.Side(e, ops) && st.Side(!e, ops) && OfKind(st.records, END_REQUEST) == []
    requires !st.At(e).closed && |st.At(e).pending| <= 65528
    ensures var st' := st.Grown(Ending(st, e)).With(e, Stream(true, true, []));
      && st'.Whole() && st'.Side(e, ops + [Close(e)]) && st'.Side(!e, ops + [Close(e)])
      && OfKind(st'.records, END_REQUEST) == []
  {
    hide StreamIs, StreamState, AllData, Framed, OwnEnd, OwnKinds;
    hide Accepted, ClosedBy, FinalStatus, EncodeAll, OfKind, Contents, AllFit;
    var k, op := Kind(e), Close(e);
    var st' := st.Grown(Ending(st, e)).With(e, Stream(true, true, []));
    WholeGrown(st, Ending(st, e), e, Stream(true, true, []));
    EndingElsewhere(st, ops, e, Kind(!e));
    EndingElsewhere(st, ops, e, END_REQUEST);
    OtherSide(st, st', ops, op, !e);
    CloseKeepsStream(OfKind(st.records, k), k, st.id, st.At(e), Accepted(ops, e));
    assert Accepted(ops, e) + [] == Accepted(ops, e);
    OwnSide(st', ops, op, e, OfKind(st.records, k) + Ending(st, e), Accepted(ops, e));
  }

  lemma EndIsOwn(id: nat, finalStatus: int)
    requires id <= 0xffff
    ensures var last := [RequestEnd(id, finalStatus)];
      AllFit(last) && OwnKinds(last, id) && last[0].kind == END_REQUEST
  {
  }

  /** Second half: with no other stream open, the end of the request. */
  lemma RequestEnds(st: State, ops: seq<Op>, finalStatus: int)
    requires st.Whole() && st.Side(false, ops) && st.Side(true, ops) && OfKind(st.records, END_REQUEST) == []
    ensures var last := if st.NWriters() == 0 then [RequestEnd(st.id, finalStatus)] else [];
      && AllFit(last)
      && var st' := st.Grown(last);
         st'.Whole() && st'.Side(false, ops) && st'.Side(true, ops) && st'.Ended(finalStatus)
  {
    hide StreamIs, StreamState, AllData, Framed, OwnKinds;
    hide Accepted, ClosedBy, FinalStatus, Contents, RequestEnd;
    if st.NWriters() > 0 {
      assert st.records + [] == st.records && st.wire + [] == st.wire;
      return;
    }
    var last := [RequestEnd(st.id, finalStatus)];
    EndIsOwn(st.id, finalStatus);
    WholeGrown(st, last, false, st.out);
    Extended(st.records, last, END_REQUEST, STDOUT);
    Extended(st.records, last, END_REQUEST, STDERR);
    Extended(st.records, last, END_REQUEST, END_REQUEST);
  }

  /** Closing a stream adds its last records and, when it was the last one open, the
      end of the request. */
  lemma CloseKeeps(st: State, ops: seq<Op>, status: int, e: bool)
    requires st.After(ops, status) && !st.At(e).closed && |st.At(e).pending| <= 65528
    ensures var s := st.At(e);
      var more := Framed(Kind(e), st.id, s.pending)
                  + CloseRecords(Kind(e), st.id, s.pending == [] && !s.written, st.NWriters(),
                                 FinalStatus(ops, status));
      AllFit(more) && st.Grown(more).With(e, Stream(true, true, [])).After(ops + [Close(e)], status)
  {
    hide StreamIs, StreamState, AllData, Framed, OwnKinds, State.Side;
    hide Accepted, ClosedBy, FinalStatus, EncodeAll, OfKind, Contents, AllFit, RequestEnd;
    var s := st.At(e);
    var framed, end := Framed(Kind(e), st.id, s.pending), OwnEnd(Kind(e), st.id, s.pending == [] && !s.written);
    var last := if st.NWriters() == 1 then [RequestEnd(st.id, FinalStatus(ops, status))] else [];
    StreamEnds(st, ops, e);
    assert framed + end == Ending(st, e);
    RequestEnds(st.Grown(framed + end).With(e, Stream(true, true, [])), ops + [Close(e)], FinalStatus(ops, status));
    GrownTwice(st, framed + end, last);
    Assoc(framed, end, last);
    StatusSnoc(ops, Close(e), status);
  }

  /** With both streams closed, the wire holds a complete request. */
  lemma BothClosed(st: State, ops: seq<Op>, status: int)
    requires st.After(ops, status) && st.NWriters() == 0
    ensures IsCompleteRequest(st.wire, st.id, Accepted(ops, false), Accepted(ops, true), FinalStatus(ops, status))
  {
    hide Accepted, ClosedBy, FinalStatus, EncodeAll, OfKind, Contents, AllFit, ParseRecords, EndsWithStatus;
    StatusRead(st.records, st.id, FinalStatus(ops, status));
    ParseEncoded(st.records);
  }

  lemma ClosingAddsNothing(ops: seq<Op>, status: int)
    ensures var all := ops + [Close(true)] + [Close(false)];
      && (forall e :: Accepted(all, e) == Accepted(ops, e))
      && FinalStatus(all, status) == FinalStatus(ops, status)
  {
    forall e ensures Accepted(ops + [Close(true)] + [Close(false)], e) == Accepted(ops, e) {
      AcceptedSnoc(ops, Close(true), e);
      AcceptedSnoc(ops + [Close(true)], Close(false), e);
    }
    StatusSnoc(ops, Close(true), status);
    StatusSnoc(ops + [Close(true)], Close(false), status);
  }

  /** The writes and the flush on one stream, as one contract: a closed stream stays as
      it was; an open one, while no write fails, takes the call's bytes. */
  method Apply(w: Writer, op: Op)
    requires w.Valid() && (op.PutStr? || op.PutChar? || op.Flush?)
    modifies w, w.buff, w.req
    ensures w.Valid() && w.wasFCloseCalled == old(w.wasFCloseCalled)
    ensures old(w.fcgiErrno) != 0 || w.req.Reliable() ==> w.fcgiErrno == old(w.fcgiErrno)
    ensures w.req.appStatus == old(w.req.appStatus) && w.req.nWriters == old(w.req.nWriters)
    ensures w.wasFCloseCalled ==>
      w.isAnythingWritten == old(w.isAnythingWritten)
      && w.req.wire == old(w.req.wire) && w.req.records == old(w.req.records)
    ensures w.fcgiErrno == 0 && !w.wasFCloseCalled ==>
      && w.Took(old(w.req.records), old(w.req.wire), old(w.Pending()) + BytesOf(op, op.err))
      && w.isAnythingWritten == (old(w.isAnythingWritten) || old(w.req.records) != w.req.records)
  {
    if op.PutStr? {
      var _ := w.PutStr(op.data);
    } else if op.PutChar? {
      var _ := w.PutChar(op.c);
    } else {
      var _ := w.FFlush();
      assert old(w.Pending()) + [] == old(w.Pending());
    }
  }

  class Session {
    const req: Request
    const out: Writer
    const err: Writer

    ghost function Repr(): set<object> reads this { {req, out, err, out.buff, err.buff} }

    ghost predicate Ok() reads this, Repr() { out.fcgiErrno == 0 && err.fcgiErrno == 0 }

    /** Two distinct streams on one request. */
    ghost predicate Wired()
      reads this, Repr()
    {
      && out.req == req && err.req == req && out != err && out.buff != err.buff
      && out.kind == STDOUT && err.kind == STDERR
      && out.Valid() && err.Valid()
    }

    ghost function View(): State
      requires Wired()
      reads this, Repr()
    {
      State(req.requestId, req.records, req.wire,
            if out.wasFCloseCalled then Stream(true, true, []) else Stream(false, out.isAnythingWritten, out.Pending()),
            if err.wasFCloseCalled then Stream(true, true, []) else Stream(false, err.isAnythingWritten, err.Pending()))
    }

    ghost predicate Inv(ops: seq<Op>, status: int)
      reads this, Repr()
    {
      && Wired()
      && View().Counted(req.nWriters, req.appStatus, ops, status)
      && (Ok() ==> View().After(ops, status))
    }

    constructor (requestId: nat, answers: nat -> int, status: int, outLen: int, errLen: int,
                 outAligned: bool, errAligned: bool)
      requires requestId <= 0xffff
      ensures Inv([], status) && Ok() && fresh(Repr())
      ensures req.requestId == requestId && req.answers == answers
    {
      var shared := new Request(requestId, answers, status, 2);
      var o := new Writer(shared, outLen, outAligned, STDOUT);
      var e := new Writer(shared, errLen, errAligned, STDERR);
      req, out, err := shared, o, e;
    }

    method SetStatus(s: int, ghost ops: seq<Op>, ghost status: int)
      requires Inv(ops, status)
      modifies req
      ensures Inv(ops + [SetExitStatus(s)], status)
      ensures req.Reliable() || !old(Ok()) ==> Ok() == old(Ok())
    {
      CountedSnoc(View(), View(), req.appStatus, ops, status, SetExitStatus(s));
      req.appStatus := s;
      if Ok() {
        IdleKeeps(View(), ops, status, SetExitStatus(s));
      }
    }

    function At(onErr: bool): Writer { if onErr then err else out }

    method Call(op: Op)
      requires Wired() && (op.PutStr? || op.PutChar? || op.Flush?)
      modifies At(op.err), At(op.err).buff, req
      ensures Wired() && req.nWriters == old(req.nWriters) && req.appStatus == old(req.appStatus)
      ensures View().At(!op.err) == old(View().At(!op.err))
      ensures At(op.err).wasFCloseCalled == old(At(op.err).wasFCloseCalled)
      ensures req.Reliable() || !old(Ok()) ==> Ok() == old(Ok())
      ensures At(op.err).wasFCloseCalled ==> View() == old(View())
      ensures Ok() && !At(op.err).wasFCloseCalled ==>
        exists more :: AllData(more, Kind(op.err), req.requestId) && AllFit(more) && Took(op, old(View()), more)
    {
      hide AllData, AllFit, Contents, EncodeAll, BytesOf;
      var w := At(op.err);
      ghost var before := View();
      Apply(w, op);
      if Ok() && !w.wasFCloseCalled {
        ghost var more := req.records[|before.records|..];
        assert req.records == before.records + more;
        assert Took(op, before, more);
      }
    }

    ghost predicate Took(op: Op, before: State, more: seq<Record>)
      requires Wired() && AllFit(more) && (op.PutStr? || op.PutChar? || op.Flush?)
      reads this, Repr()
    {
      var pending := At(op.err).Pending();
      && Contents(more) + pending == before.At(op.err).pending + BytesOf(op, op.err)
      && View() == before.Grown(more).With(op.err, Stream(false, before.At(op.err).written || more != [], pending))
    }

    /** A write or a flush on one of the streams. */
    method Put(op: Op, ghost ops: seq<Op>, ghost status: int)
      requires Inv(ops, status) && (op.PutStr? || op.PutChar? || op.Flush?)
      modifies Repr()
      ensures Inv(ops + [op], status)
      ensures req.Reliable() || !old(Ok()) ==> Ok() == old(Ok())
    {
      hide State.After, FinalStatus, ClosedBy, Accepted, BytesOf, AllData, AllFit, Contents, EncodeAll;
      ghost var before := View();
      Call(op);
      if Ok() {
        if At(op.err).wasFCloseCalled {
          IdleKeeps(before, ops, status, op);
        } else {
          ghost var more :| AllData(more, Kind(op.err), req.requestId) && AllFit(more) && Took(op, before, more);
          PutKeeps(before, ops, status, op, more, At(op.err).Pending());
        }
      }
      CountedSnoc(before, View(), req.appStatus, ops, status, op);
    }

    /** FClose on one of the streams. */
    method Shut(onErr: bool) returns (r: int)
      requires Wired() && req.nWriters == View().NWriters()
      modifies At(onErr), At(onErr).buff, req
      ensures Wired() && req.appStatus == old(req.appStatus) && req.nWriters == View().NWriters()
      ensures At(onErr).wasFCloseCalled && View().At(!onErr) == old(View().At(!onErr))
      ensures req.Reliable() || !old(Ok()) ==> Ok() == old(Ok())
      ensures old(At(onErr).wasFCloseCalled) ==> View() == old(View())
      ensures Ok() && !old(At(onErr).wasFCloseCalled) ==>
        && AllFit(old(At(onErr).Emission(true)))
        && View() == old(View()).Grown(old(At(onErr).Emission(true))).With(onErr, Stream(true, true, []))
    {
      r := At(onErr).FClose();
    }

    method CloseStream(onErr: bool, ghost ops: seq<Op>, ghost status: int) returns (r: int)
      requires Inv(ops, status)
      modifies Repr()
      ensures Inv(ops + [Close(onErr)], status)
      ensures At(onErr).wasFCloseCalled && At(!onErr).wasFCloseCalled == old(At(!onErr).wasFCloseCalled)
      ensures req.Reliable() || !old(Ok()) ==> Ok() == old(Ok())
    {
      hide State.After, FinalStatus, ClosedBy, Accepted, AllFit, Framed, CloseRecords, EncodeAll;
      ghost var before := View();
      r := Shut(onErr);
      CountedSnoc(before, View(), req.appStatus, ops, status, Close(onErr));
      if Ok() {
        if before.At(onErr).closed {
          IdleKeeps(before, ops, status, Close(onErr));
        } else {
          CloseKeeps(before, ops, status, onErr);
        }
      }
    }

    /** Every client call keeps the invariant. */
    method Step(op: Op, ghost ops: seq<Op>, ghost status: int)
      requires Inv(ops, status)
      modifies Repr()
      ensures Inv(ops + [op], status)
      ensures req.Reliable() || !old(Ok()) ==> Ok() == old(Ok())
    {
      match op {
        case SetExitStatus(s) => SetStatus(s, ops, status);
        case Close(onErr) => var _ := CloseStream(onErr, ops, status);
        case _ => Put(op, ops, status);
      }
    }

    method Run(ops: seq<Op>, ghost status: int)
      requires Inv([], status)
      modifies Repr()
      ensures Inv(ops, status)
      ensures req.Reliable() || !old(Ok()) ==> Ok() == old(Ok())
    {
      hide State.After, State.Counted, FinalStatus, ClosedBy, Accepted;
      ghost var done: seq<Op> := [];
      for i := 0 to |ops|
        invariant done == ops[..i] && Inv(done, status)
        invariant req.Reliable() || !old(Ok()) ==> Ok() == old(Ok())
      {
        Step(ops[i], done, status);
        done := done + [ops[i]];
      }
      assert done == ops;
    }

    /** Closes err, then out. */
    method Finish(ghost ops: seq<Op>, ghost status: int)
      requires Inv(ops, status)
      modifies Repr()
      ensures req.Reliable() || !old(Ok()) ==> Ok() == old(Ok())
      ensures Ok() ==> IsCompleteRequest(req.wire, req.requestId, Accepted(ops, false), Accepted(ops, true),
                                         FinalStatus(ops, status))
    {
      hide State.After, FinalStatus, ClosedBy, Accepted, IsCompleteRequest;
      var _ := CloseStream(true, ops, status);
      var _ := CloseStream(false, ops + [Close(true)], status);
      if Ok() {
        BothClosed(View(), ops + [Close(true)] + [Close(false)], status);
        ClosingAddsNothing(ops, status);
      }
    }
  }

  /** Whatever the client does, and however the connection splits the writes, a request
      whose writes all succeed leaves a complete request on the wire. */
  method RunRequest(requestId: nat, answers: nat -> int, status: int, outLen: int, errLen: int,
                    outAligned: bool, errAligned: bool, ops: seq<Op>) returns (wire: Bytes, ok: bool)
    requires requestId <= 0xffff
    ensures ok ==> IsCompleteRequest(wire, requestId, Accepted(ops, false), Accepted(ops, true),
                                     FinalStatus(ops, status))
    ensures (forall i: nat :: answers(i) >= 1) ==> ok
  {
    var s := new Session(requestId, answers, status, outLen, errLen, outAligned, errAligned);
    s.Run(ops, status);
    s.Finish(ops, status);
    return s.req.wire, s.out.fcgiErrno == 0 && s.err.fcgiErrno == 0;
  }
}
