/** A web server's environment on its way to the application: encoded as name-value
    pairs, framed as PARAMS records, carried over a connection that splits writes and
    reads at will, and decoded again. */
module FcgiEndToEnd {
  import opened Basics
  import opened FcgiRecord
  import opened FcgiWriter
  import FcgiReader
  import opened FcgiDelivery
  import opened FcgiParams

  const NO_EQUALS := 1000  // the exit status for an environment string without '='
  const RESPONDER_ENTRY: Bytes := Ascii("FCGI_ROLE=RESPONDER")
  const AUTHORIZER_ENTRY: Bytes := Ascii("FCGI_ROLE=AUTHORIZER")
  const FILTER_ENTRY: Bytes := Ascii("FCGI_ROLE=FILTER")

  function Ascii(s: string): Bytes
    requires forall i :: 0 <= i < |s| ==> s[i] as int < 128
  {
    seq(|s|, i requires 0 <= i < |s| => s[i] as int as Byte)
  }

  // -------- environment strings as pairs --------

  predicate Named(env: seq<Bytes>) {
    forall i :: 0 <= i < |env| ==> EQUALS in env[i] && Short(env[i])
  }

  /** The position of the first '=', or the length. */
  function EqualsAt(e: Bytes): (r: nat)
    ensures r <= |e| && (r < |e| <==> EQUALS in e)
    ensures r < |e| ==> e[r] == EQUALS
    ensures EQUALS !in e[..r]
  {
    if e == [] || e[0] == EQUALS then 0 else 1 + EqualsAt(e[1..])
  }

  function PairOf(e: Bytes): (p: Pair)
    requires EQUALS in e
    ensures Entry(p) == e && EQUALS !in p.name
  {
    var n := EqualsAt(e);
    Pair(e[..n], e[n + 1..])
  }

  function PairsOf(env: seq<Bytes>): (r: seq<Pair>)
    requires Named(env)
    ensures AllShort(r) && |r| == |env|
  {
    if env == [] then [] else [PairOf(env[0])] + PairsOf(env[1..])
  }

  /** Splitting each string at its first '=' and joining it again changes nothing. */
  lemma {:induction false} EntriesOfPairs(env: seq<Bytes>)
    requires Named(env)
    ensures Entries(PairsOf(env)) == env
  {
    if env != [] {
      EntriesOfPairs(env[1..]);
      assert env == [env[0]] + env[1..];
      assert PairsOf(env)[1..] == PairsOf(env[1..]);
    }
  }

  // -------- the web server's side --------

  /** `PutStr` as a part of a longer writing that has taken `bytes` so far. */
  method PutPart(w: Writer, data: Bytes, ghost records: seq<Record>, ghost wire: Bytes, ghost bytes: Bytes)
    returns (r: int)
    requires w.Valid() && !w.wasFCloseCalled && (w.fcgiErrno == 0 ==> w.Took(records, wire, bytes))
    modifies w, w.buff, w.req
    ensures w.Valid() && !w.wasFCloseCalled && (w.fcgiErrno == 0 ==> w.Took(records, wire, bytes + data))
    ensures w.req.nWriters == old(w.req.nWriters)
    ensures old(w.fcgiErrno) != 0 || w.req.Reliable() ==> w.fcgiErrno == old(w.fcgiErrno)
    ensures w.fcgiErrno == 0 ==> r >= 0
  {
    ghost var records', wire', pending := w.req.records, w.req.wire, w.Pending();
    r := w.PutStr(data);
    if w.fcgiErrno == 0 {
      w.TookMore(records, wire, bytes, records', wire', pending, data);
    }
  }

  /** The body of the environment loop: 0, or the status to exit with. */
  method SendString(w: Writer, e: Bytes, headerBuff: array<Byte>, ghost records: seq<Record>, ghost wire: Bytes,
                    ghost bytes: Bytes) returns (status: int)
    requires Short(e) && headerBuff.Length == 8 && headerBuff != w.buff
    requires w.Valid() && !w.wasFCloseCalled && (w.fcgiErrno == 0 ==> w.Took(records, wire, bytes))
    modifies w, w.buff, w.req, headerBuff
    ensures w.Valid() && !w.wasFCloseCalled && w.req.nWriters == old(w.req.nWriters)
    ensures old(w.fcgiErrno) != 0 || w.req.Reliable() ==> w.fcgiErrno == old(w.fcgiErrno)
    ensures EQUALS !in e ==> status == NO_EQUALS
    ensures EQUALS in e && w.fcgiErrno == 0 ==> status == 0 && w.Took(records, wire, bytes + EncodePair(PairOf(e)))
  {
    hide EncodeAll, Contents, AllData, AllFit, LengthBytes;
    var n := EqualsAt(e);
    if n == |e| {
      return NO_EQUALS;
    }
    var name, value := e[..n], e[n + 1..];
    var headerLen := BuildNameValueHeader(|name|, |value|, headerBuff);
    var header := headerBuff[..headerLen];
    Assoc(bytes, header, name);
    Assoc(bytes, header + name, value);
    var r := PutPart(w, header, records, wire, bytes);
    if r < 0 {
      return w.fcgiErrno;
    }
    r := PutPart(w, name, records, wire, bytes + header);
    if r < 0 {
      return w.fcgiErrno;
    }
    r := PutPart(w, value, records, wire, bytes + header + name);
    return if r < 0 then w.fcgiErrno else 0;
  }

  lemma {:induction false} EncodePairsSnoc(env: seq<Bytes>, e: Bytes)
    requires Named(env) && EQUALS in e && Short(e)
    ensures Named(env + [e])
    ensures EncodePairs(PairsOf(env + [e])) == EncodePairs(PairsOf(env)) + EncodePair(PairOf(e))
  {
    hide EncodePair, PairOf, EqualsAt;
    if env == [] {
      assert [] + [e] == [e] && PairsOf([e]) == [PairOf(e)] + PairsOf([]);
      assert PairsOf([e])[1..] == [];
      assert EncodePairs(PairsOf([e])) == EncodePair(PairOf(e)) + EncodePairs([]);
    } else {
      EncodePairsSnoc(env[1..], e);
      assert (env + [e])[0] == env[0] && (env + [e])[1..] == env[1..] + [e];
      assert PairsOf(env)[1..] == PairsOf(env[1..]);
      assert PairsOf(env + [e])[1..] == PairsOf(env[1..] + [e]);
      Assoc(EncodePair(PairOf(env[0])), EncodePairs(PairsOf(env[1..])), EncodePair(PairOf(e)));
    }
  }

  /** The environment loop. */
  method SendStrings(w: Writer, env: seq<Bytes>) returns (status: int)
    requires w.Valid() && !w.isClosed && w.Pending() == [] && forall i :: 0 <= i < |env| ==> Short(env[i])
    modifies w, w.buff, w.req
    ensures w.Valid() && !w.wasFCloseCalled && w.req.nWriters == old(w.req.nWriters)
    ensures w.req.Reliable() && Named(env) ==> status == 0
    ensures status == 0 ==> w.fcgiErrno == 0 && Named(env)
    ensures status == 0 ==> w.Took(old(w.req.records), old(w.req.wire), EncodePairs(PairsOf(env)))
  {
    hide EncodePairs, PairsOf, EncodeAll, Contents, EncodePair, PairOf;
    var headerBuff := new Byte[8];
    ghost var done: seq<Bytes>, records, wire := [], w.req.records, w.req.wire;
    NothingTaken(w);
    for i := 0 to |env|
      invariant done == env[..i] && Named(done)
      invariant w.Valid() && !w.wasFCloseCalled && w.req.nWriters == old(w.req.nWriters) && w.fcgiErrno == 0
      invariant w.Took(records, wire, EncodePairs(PairsOf(done)))
    {
      status := SendString(w, env[i], headerBuff, records, wire, EncodePairs(PairsOf(done)));
      if status != 0 || w.fcgiErrno != 0 {
        return if status == 0 then w.fcgiErrno else status;
      }
      EncodePairsSnoc(done, env[i]);
      done := done + [env[i]];
    }
    assert done == env;
    return 0;
  }

  lemma NothingTaken(w: Writer)
    requires w.Valid() && w.Pending() == []
    ensures w.Took(w.req.records, w.req.wire, EncodePairs(PairsOf([])))
  {
    assert w.req.wire + [] == w.req.wire;
  }

  /** Sends the environment and closes the stream; 0 when all went well. */
  method SendEnvironment(w: Writer, env: seq<Bytes>) returns (status: int)
    requires w.Valid() && !w.isClosed && w.Pending() == [] && w.kind == PARAMS
    requires w.req.nWriters == 2 && forall i :: 0 <= i < |env| ==> Short(env[i])
    modifies w, w.buff, w.req
    ensures w.Valid() && w.req.requestId <= 0xffff
    ensures status == 0 ==> w.fcgiErrno == 0 && Named(env)
    ensures w.req.Reliable() && Named(env) ==> status == 0
    ensures status == 0 ==> SentPairs(old(w.req.wire), w.req.wire, w.req.requestId, PairsOf(env))
  {
    hide EncodePairs, PairsOf, EncodeAll, Contents, Framed, SentPairs;
    ghost var records, wire := w.req.records, w.req.wire;
    status := SendStrings(w, env);
    if status != 0 {
      return;
    }
    ghost var more, pending, wire' := w.req.records[|records|..], w.Pending(), w.req.wire;
    assert w.Emission(true) == Framed(PARAMS, w.req.requestId, pending) + [StreamEnd(PARAMS, w.req.requestId)];
    var _ := w.FClose();
    if w.fcgiErrno == 0 {
      PairsSent(wire, wire', w.req.wire, w.req.requestId, PairsOf(env), more, pending);
    }
    return w.fcgiErrno;
  }

  /** The wire grew by data records that carry the encoded pairs, and the end of their
      stream. */
  ghost predicate SentPairs(wire0: Bytes, wire: Bytes, id: nat, ps: seq<Pair>)
    requires id <= 0xffff && AllShort(ps)
  {
    exists rs :: AllData(rs, PARAMS, id) && AllFit(rs + [StreamEnd(PARAMS, id)])
      && Contents(rs) == EncodePairs(ps) && wire == wire0 + EncodeAll(rs + [StreamEnd(PARAMS, id)])
  }

  lemma PairsSent(wire0: Bytes, wire1: Bytes, wire: Bytes, id: nat, ps: seq<Pair>, more: seq<Record>, pending: Bytes)
    requires id <= 0xffff && AllShort(ps) && |pending| <= 65528
    requires AllData(more, PARAMS, id) && AllFit(more) && Contents(more) + pending == EncodePairs(ps)
    requires wire1 == wire0 + EncodeAll(more)
    requires wire == wire1 + EncodeAll(Framed(PARAMS, id, pending) + [StreamEnd(PARAMS, id)])
    ensures SentPairs(wire0, wire, id, ps)
  {
    var framed, end := Framed(PARAMS, id, pending), [StreamEnd(PARAMS, id)];
    var rs := more + framed;
    ContentsAppend(more, framed);
    EncodeAllAppend(more, framed + end);
    Assoc(wire0, EncodeAll(more), EncodeAll(framed + end));
    Assoc(more, framed, end);
    assert AllData(rs, PARAMS, id);
  }

  // -------- the application's side --------

  /** Data records and the end of their stream are read as the data, to the last byte. */
  lemma {:induction false} DeliveredData(rs: seq<Record>, id: nat)
    requires AllData(rs, PARAMS, id)
    ensures var all := rs + [StreamEnd(PARAMS, id)];
      Delivered(all, id, false) == Contents(rs) && EndAt(all, id) == Some(|all|)
  {
    var all := rs + [StreamEnd(PARAMS, id)];
    if rs == [] {
      assert all == [StreamEnd(PARAMS, id)];
    } else {
      assert IsData(rs[0], PARAMS, id);
      DeliveredData(rs[1..], id);
      assert all[0] == rs[0] && all[1..] == rs[1..] + [StreamEnd(PARAMS, id)];
    }
  }

  /** What was sent, as records of a reader. */
  lemma SentRecords(rs: seq<Record>, id: nat)
    requires AllData(rs, PARAMS, id) && 0 < id <= 0xffff && AllFit(rs + [StreamEnd(PARAMS, id)])
    ensures var all := rs + [StreamEnd(PARAMS, id)];
      && AllUnmanaged(all) && Good(all, id, PARAMS) == all
      && Delivered(all, id, false) == Contents(rs) && EndAt(all, id) == Some(|all|)
  {
    var all := rs + [StreamEnd(PARAMS, id)];
    forall i | 0 <= i < |all| ensures Unmanaged(all[i]) && !Bad(all[i], id, PARAMS) {
      assert Fits(all[i]);
      if i < |rs| {
        assert IsData(rs[i], PARAMS, id);
      }
    }
    GoodAll(all, id, PARAMS);
    DeliveredData(rs, id);
  }

  /** What a reader at the start of the parameters will get. */
  lemma RunSentPairs(wire0: Bytes, wire: Bytes, id: nat, ps: seq<Pair>)
    requires 0 < id <= 0xffff && AllShort(ps) && SentPairs(wire0, wire, id, ps)
    ensures wire0 <= wire
    ensures var o := FcgiReader.Run(At(id, PARAMS, false), wire[|wire0|..]);
      o.content == EncodePairs(ps) && o.end == FcgiReader.EndOfStream && o.rest == []
  {
    hide FcgiReader.Run, AllUnmanaged, Good, Delivered, EncodePairs;
    var rs :| AllData(rs, PARAMS, id) && AllFit(rs + [StreamEnd(PARAMS, id)])
      && Contents(rs) == EncodePairs(ps) && wire == wire0 + EncodeAll(rs + [StreamEnd(PARAMS, id)]);
    var all := rs + [StreamEnd(PARAMS, id)];
    SentRecords(rs, id);
    RunRecords(all, [], id, PARAMS, false);
    assert all[|all|..] == [] && EncodeAll(all) + [] == EncodeAll(all);
    assert wire[|wire0|..] == EncodeAll(all);
  }

  function RoleEntry(role: nat): Option<Bytes> {
    if role == 1 then Some(RESPONDER_ENTRY)
    else if role == 2 then Some(AUTHORIZER_ENTRY)
    else if role == 3 then Some(FILTER_ENTRY)
    else None
  }

  /** What the list of parameters decodes to that a reader gets from records, behind the
      padding of the record that started the request. */
  function ReadPairs(padding: Bytes, rs: seq<Record>, id: nat): Decoded
    requires AllFit(rs)
  {
    Decode(GotBehind(padding, rs, id, PARAMS))
  }

  predicate Complete(rs: seq<Record>, id: nat) {
    EndAt(Good(rs, id, PARAMS), id).Some?
  }

  /** The padding of the record that ends the parameters, and the records behind it. */
  function Later(rs: seq<Record>, id: nat): (r: (Bytes, seq<Record>))
    requires Complete(rs, id)
    ensures AllFit(rs) ==> AllFit(r.1)
    ensures AllUnmanaged(rs) ==> AllUnmanaged(r.1)
  {
    var n := EndAt(Good(rs, id, PARAMS), id).value;
    (rs[n - 1].padding, rs[n..])
  }

  lemma SentPairsRead(rs: seq<Record>, id: nat, ps: seq<Pair>)
    requires AllData(rs, PARAMS, id) && 0 < id <= 0xffff && AllFit(rs + [StreamEnd(PARAMS, id)])
    requires AllShort(ps) && Contents(rs) == EncodePairs(ps)
    ensures AllUnmanaged(rs + [StreamEnd(PARAMS, id)]) && Complete(rs + [StreamEnd(PARAMS, id)], id)
    ensures ReadPairs([], rs + [StreamEnd(PARAMS, id)], id) == Decoded(Entries(ps), true)
  {
    hide AllData, AllFit, Delivered, Good, Decode, EncodePairs;
    SentRecords(rs, id);
    PairsRoundTrip(ps);
  }

  /** `FCGX_Accept_r` on one connection, whatever records follow the start of the request:
      the role and the parameters, or None when the connection has to be given up. A list
      that breaks off behind a pair is accepted too; the stream's error then tells so. The
      reader is left at the request's body. */
  method Accept(input: Bytes, chunks: nat -> nat, bufflen: nat, ghost id: nat, ghost role: nat,
                ghost keepConnection: bool, ghost padding: Bytes, ghost rs: seq<Record>)
    returns (params: Option<Params>, r: FcgiReader.Reader)
    requires 0 < id <= 0xffff && role <= 0xffff && |padding| <= 0xff && bufflen > 0
    requires AllUnmanaged(rs) && AllFit(rs)
    requires input == Encode(BeginRecord(id, role, keepConnection).(padding := padding)) + EncodeAll(rs)
    ensures params.Some? <==> RoleEntry(role).Some? && ReadPairs(padding, rs, id).ok
    ensures fresh(r) && fresh(r.buff)
    ensures params.Some? ==>
      && fresh(params.value) && fresh(params.value.vec) && params.value.Valid()
      && params.value.Contents() == [RoleEntry(role).value] + ReadPairs(padding, rs, id).entries
      && r.Valid() && !r.isClosed && r.rdNext == r.stop && r.At() == At(id, STDIN, false)
      && r.fcgiErrno == ErrorBehind(padding, rs, id, PARAMS)
      && (padding == [] && Complete(rs, id) ==>
            r.Pending() == Later(rs, id).0 + EncodeAll(Later(rs, id).1))
  {
    hide FcgiReader.Run, Decode, GotBehind, ErrorBehind, Good, AllUnmanaged, EncodeAll, Encode, BeginRecord;
    RunBehind(padding, rs, id, PARAMS);
    r := OpenRequest(input, PARAMS, chunks, bufflen, id, role, keepConnection, padding, EncodeAll(rs));
    Opens(r);
    match RoleEntry(r.role)
    case None => return None, r;
    case Some(entry) =>
      var p := new Params(30);
      p.Put(entry);
      assert [] + [entry] == [entry];
      ghost var o := r.Ahead();
      var status := ReadParams(p, r);
      if status < 0 {
        return None, r;
      }
      ghost var left := r.Pending();
      assert padding == [] && Complete(rs, id) ==> left == Later(rs, id).0 + EncodeAll(Later(rs, id).1) by {
        if padding == [] && Complete(rs, id) {
          LaterLeft(o, rs, id);
        }
      }
      r.SetReaderType(STDIN);
      return Some(p), r;
  }

  lemma LaterLeft(o: FcgiReader.Outcome, rs: seq<Record>, id: nat)
    requires AllFit(rs) && Reads(o, rs, [], id, PARAMS, false) && Complete(rs, id)
    ensures o.rest == Later(rs, id).0 + EncodeAll(Later(rs, id).1)
  {
    hide EncodeAll, Delivered, Refusals;
    var later := EncodeAll(Later(rs, id).1);
    assert later + [] == later;
  }

  /** Accepting a request and reading its body: behind a complete list of parameters, what
      is sent behind it, unless the record that ends the list has padding. */
  method AcceptBody(input: Bytes, chunks: nat -> nat, bufflen: nat, sizes: nat -> nat, ghost id: nat,
                    ghost role: nat, ghost keepConnection: bool, ghost padding: Bytes, ghost rs: seq<Record>)
    returns (params: Option<Params>, body: Bytes)
    requires 0 < id <= 0xffff && role <= 0xffff && |padding| <= 0xff && bufflen > 0
    requires AllUnmanaged(rs) && AllFit(rs)
    requires input == Encode(BeginRecord(id, role, keepConnection).(padding := padding)) + EncodeAll(rs)
    ensures params.Some? <==> RoleEntry(role).Some? && ReadPairs(padding, rs, id).ok
    ensures params.Some? && padding == [] && Complete(rs, id) ==>
      var (end, later) := Later(rs, id); body == GotBehind(end, later, id, STDIN)
  {
    hide FcgiReader.Run, Decode, GotBehind, ErrorBehind, Complete, Later;
    hide AllFit, AllUnmanaged, EncodeAll, Encode, BeginRecord;
    var r;
    params, r := Accept(input, chunks, bufflen, id, role, keepConnection, padding, rs);
    body := [];
    if params.Some? {
      if padding == [] && Complete(rs, id) {
        RunBehind(Later(rs, id).0, Later(rs, id).1, id, STDIN);
      }
      Opens(r);
      body := ReadToEnd(r, sizes);
    }
  }

  /** Left-over padding that does not look like a record does no harm exactly if there is
      nothing to be read behind it. */
  lemma PaddingHarmless(padding: Bytes, rs: seq<Record>, id: nat)
    requires AllFit(rs) && (padding != [] ==> padding[0] != VERSION_1)
    ensures ReadPairs(padding, rs, id) == ReadPairs([], rs, id) <==>
      padding == [] || Delivered(Good(rs, id, PARAMS), id, false) == []
    ensures forall kind ::
      GotBehind(padding, rs, id, kind) == GotBehind([], rs, id, kind) <==>
        padding == [] || Delivered(Good(rs, id, kind), id, false) == []
  {
    hide Delivered, Good, First;
  }

  /** One pair, and the end of the list. */
  const ONE_PAIR: Record := Record(PARAMS, 1, [1, 1, 65, 66], Zeros(4))

  lemma PairDecoded()
    ensures Decode([1, 1, 65, 66]) == Decoded([[65, EQUALS, 66]], true)
  {
    hide Decode, EncodePair, Entry;
    var p := Pair([65], [66]);
    OnePair(p);
    assert [p][1..] == [] && EncodePairs([p]) == EncodePair(p) + [] == [1, 1, 65, 66];
    PairsRoundTrip([p]);
    assert Entries([p]) == [Entry(p)] + [];
  }

  lemma NoPairs()
    ensures Decode([]) == Decoded([], true)
  {
  }

  lemma OnePair(p: Pair)
    requires p == Pair([65], [66])
    ensures EncodePair(p) == [1, 1, 65, 66] && Entry(p) == [65, EQUALS, 66]
  {
    assert LengthBytes(1) == [1];
  }

  /** A list that breaks off behind a pair. */
  lemma CutOffPair()
    ensures AllUnmanaged([ONE_PAIR]) && AllFit([ONE_PAIR]) && !Complete([ONE_PAIR], 1)
    ensures ReadPairs([], [ONE_PAIR], 1) == Decoded([[65, EQUALS, 66]], true)
  {
    hide Decode;
    PairDecoded();
    assert Fits(ONE_PAIR) && [ONE_PAIR][1..] == [];
    GoodAll([ONE_PAIR], 1, PARAMS);
    assert Delivered([ONE_PAIR], 1, false) == ONE_PAIR.content + [];
    assert GotBehind([], [ONE_PAIR], 1, PARAMS) == [1, 1, 65, 66];
    assert EndAt([ONE_PAIR], 1) == None;
  }

  /** A connection that breaks off behind a pair: the request is accepted, with an error
      on its stream that nothing looks at. */
  method AcceptCutOff(chunks: nat -> nat, bufflen: nat) returns (params: Option<Params>, error: int)
    requires bufflen > 0
    ensures error == FcgiReader.PROTOCOL_ERROR && params.Some? && fresh(params.value) && fresh(params.value.vec)
    ensures params.value.Valid() && params.value.Contents() == [RESPONDER_ENTRY, [65, EQUALS, 66]]
  {
    hide ReadPairs, Complete, EncodeAll, Encode;
    CutOffPair();
    Unpadded(1, 1, false);
    var input := Encode(BeginRecord(1, 1, false)) + EncodeAll([ONE_PAIR]);
    var r;
    params, r := Accept(input, chunks, bufflen, 1, 1, false, [], [ONE_PAIR]);
    error := r.fcgiErrno;
    assert ErrorBehind([], [ONE_PAIR], 1, PARAMS) == FcgiReader.PROTOCOL_ERROR by {
      assert !Complete([ONE_PAIR], 1);
    }
  }

  /** The same pair in a complete list, behind a padded start record. */
  lemma PairBehindPadding()
    ensures var rs := [ONE_PAIR, StreamEnd(PARAMS, 1)];
      && AllUnmanaged(rs) && AllFit(rs) && Complete(rs, 1)
      && ReadPairs([], rs, 1) == Decoded([[65, EQUALS, 66]], true)
      && ReadPairs(Zeros(8), rs, 1) == Decoded([], true)
  {
    hide Decode;
    PairDecoded();
    var all := [ONE_PAIR] + [StreamEnd(PARAMS, 1)];
    assert all == [ONE_PAIR, StreamEnd(PARAMS, 1)] && Fits(ONE_PAIR) && Fits(StreamEnd(PARAMS, 1));
    assert IsData(ONE_PAIR, PARAMS, 1);
    SentRecords([ONE_PAIR], 1);
    assert Contents([ONE_PAIR]) == ONE_PAIR.content + Contents([]) == [1, 1, 65, 66];
    NoPairs();
  }

  /** A start record with padding: the request is accepted, and its parameters are lost. */
  method AcceptPadded(chunks: nat -> nat, bufflen: nat) returns (params: Option<Params>, error: int)
    requires bufflen > 0
    ensures error == FcgiReader.UNSUPPORTED_VERSION
    ensures params.Some? && fresh(params.value) && fresh(params.value.vec)
    ensures params.value.Valid() && params.value.Contents() == [RESPONDER_ENTRY]
  {
    hide ReadPairs, Complete, EncodeAll, Encode;
    PairBehindPadding();
    var rs := [ONE_PAIR, StreamEnd(PARAMS, 1)];
    var input := Encode(BeginRecord(1, 1, false).(padding := Zeros(8))) + EncodeAll(rs);
    var r;
    params, r := Accept(input, chunks, bufflen, 1, 1, false, Zeros(8), rs);
    error := r.fcgiErrno;
  }

  // -------- both sides --------

  /** The web server's side: the start of a request and its environment, or None when the
      connection has failed or a string has no name. */
  method Send(env: seq<Bytes>, id: nat, answers: nat -> int, bufflen: int, aligned: bool)
    returns (wire: Option<Bytes>, ghost rs: seq<Record>)
    requires 0 < id <= 0xffff && forall i :: 0 <= i < |env| ==> Short(env[i])
    ensures wire.Some? ==>
      && Named(env) && AllData(rs, PARAMS, id) && AllFit(rs + [StreamEnd(PARAMS, id)])
      && Contents(rs) == EncodePairs(PairsOf(env))
      && wire.value == Encode(BeginRecord(id, 1, false)) + EncodeAll(rs + [StreamEnd(PARAMS, id)])
    ensures Named(env) && answers(0) >= 16 && (forall i: nat :: answers(i) >= 1) ==> wire.Some?
  {
    hide EncodePairs, PairsOf, AllData, AllFit, EncodeAll;
    var req := new Request(id, answers, 0, 2);
    var begin := BeginRecord(id, 1, false);
    ghost var begun := Encode(begin);
    assert |begun| == 16;
    rs := [];
    var wrote := req.OsWrite(Encode(begin));
    if wrote != 16 {
      return None, rs;
    }
    assert req.wire == begun;
    hide Encode, BeginRecord;
    var w := new Writer(req, bufflen, aligned, PARAMS);
    var status := SendEnvironment(w, env);
    if status != 0 {
      return None, rs;
    }
    rs :| AllData(rs, PARAMS, id) && AllFit(rs + [StreamEnd(PARAMS, id)])
      && Contents(rs) == EncodePairs(PairsOf(env)) && req.wire == begun + EncodeAll(rs + [StreamEnd(PARAMS, id)]);
    return Some(req.wire), rs;
  }

  /** The strings of a vector. */
  method Strings(p: Params) returns (strings: seq<Bytes>)
    requires p.Valid()
    ensures strings == p.Contents()
  {
    strings := [];
    for i := 0 to p.cur
      invariant strings == p.Contents()[..i]
    {
      strings := strings + [p.vec[i].value];
    }
    assert p.Contents()[..p.cur] == p.Contents();
  }

  /** From the web server's environment to the application's: whatever the sizes of the
      buffers and of the writes and reads, the strings arrive as they were, in order,
      behind the role. Names are looked up as in the environment they came from. */
  method Transmit(env: seq<Bytes>, id: nat, answers: nat -> int, bufflen: int, aligned: bool,
                  chunks: nat -> nat, readBufflen: nat) returns (envp: Option<seq<Bytes>>)
    requires 0 < id <= 0xffff && readBufflen > 0 && forall i :: 0 <= i < |env| ==> Short(env[i])
    ensures envp.Some? ==> Named(env) && envp.value == [RESPONDER_ENTRY] + env
    ensures Named(env) && answers(0) >= 16 && (forall i: nat :: answers(i) >= 1) ==> envp.Some?
  {
    hide EncodePairs, PairsOf, Entries, AllData, AllFit, AllUnmanaged, EncodeAll, Encode, BeginRecord;
    hide ReadPairs, Complete, Later, ErrorBehind, Named;
    var wire, rs := Send(env, id, answers, bufflen, aligned);
    if wire.None? {
      return None;
    }
    EntriesOfPairs(env);
    SentPairsRead(rs, id, PairsOf(env));
    Unpadded(id, 1, false);
    var params, _ := Accept(wire.value, chunks, readBufflen, id, 1, false, [], rs + [StreamEnd(PARAMS, id)]);
    var strings := Strings(params.value);
    return Some(strings);
  }
}
