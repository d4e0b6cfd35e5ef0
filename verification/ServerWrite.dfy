/**
 The write side of a listening server: client writes are chunked, framed, sent over one wire, decoded and
 dispatched to the sockets the agent accepted, while connections are opened and stopped under any
 interleaving of the agent's tasks. A step is what runs between two awaits.
 */
module ServerWrite {
  import opened Bytes
  import opened Connections
  import Chunker
  import Frames
  import Wire

  /** handle_write of one message: idle, waiting for drain, or waiting for the stop it called. */
  datatype Handler = Idle | Draining(ct: bytes, data: bytes) | Stopping(ct: bytes)

  /**
   `server` is the token of the listening server. `writes` records the client's writes per connection,
   `arrived` the payloads the agent decoded for it, `replies` the frames the agent handed to its transport, by
   origin. A connection is `disturbed` when a stop began before its first empty payload had arrived, by
   another task or after a drain that raised.
   */
  datatype System = System(server: bytes, counter: nat, conns: map<bytes, Conn>, wire: seq<bytes>, handler: Handler,
                           writes: map<bytes, seq<bytes>>, arrived: map<bytes, seq<bytes>>,
                           replies: seq<Reply>, disturbed: set<bytes>)

  /**
   Where a frame of the agent comes from: a new connection, the peer's data read by run, the notice of a stop,
   or a payload for an unknown connection.
   */
  datatype Reply = Announcement(ct: bytes) | FromPeer(ct: bytes, data: bytes) | Notice(ct: bytes) | Unknown(ct: bytes)

  /** The frame itself, but for an announcement, which has the address of the peer. */
  function ReplyFrame(server: bytes, r: Reply): bytes
    requires !r.Announcement?
  {
    Chunker.FrameOf(Chunker.DataFrame(server, r.ct, if r.FromPeer? then r.data else []))
  }

  /** The agent counts connections from 10. */
  function Initial(server: bytes): System {
    System(server, 10, map[], [], Idle, map[], map[], [], {})
  }

  datatype Step =
    | Accept
    | ClientWrites(ct: bytes, data: bytes)
    | Deliver
    | Drained(ok: bool)
    | RunSends(ct: bytes, data: bytes)
    | OtherStop(ct: bytes)
    | NoticeSent(ct: bytes, ok: bool)

  function At(m: map<bytes, seq<bytes>>, ct: bytes): seq<bytes> {
    if ct in m then m[ct] else []
  }

  /** A new connection registers itself under a fresh identifier in its first atomic stretch. */
  function Accepts(s: System): System {
    var ct := ConnectionId(s.counter);
    s.(counter := s.counter + 1, conns := s.conns[ct := Accepted()], replies := s.replies + [Announcement(ct)])
  }

  /** write on the client: a writer exists only for a connection the agent has announced. */
  function Writes(s: System, ct: bytes, data: bytes): System {
    if ct !in s.conns || |ct| != 16 then s
    else s.(wire := s.wire + Chunker.ServerFrames(s.server, ct, Chunker.Chunks(data)),
            writes := s.writes[ct := At(s.writes, ct) + [data]])
  }

  /** The payload of a frame for a connection of this server. */
  datatype Payload = Payload(ct: bytes, data: bytes)

  function Decoded(server: bytes, f: bytes): Option<Payload> {
    match Wire.DecodeBytes(f)
    case Some(ServerSocketData(token, ct, data, _, _)) => if token == server then Some(Payload(ct, data)) else None
    case _ => None
  }

  /** The SDSRV branch of process_incoming up to the await of drain; unknown connections get a reply. */
  function Delivers(s: System): System {
    if !s.handler.Idle? || s.wire == [] then s
    else
      var t := s.(wire := s.wire[1..]);
      match Decoded(s.server, s.wire[0])
      case None => t
      case Some(p) =>
        var u := t.(arrived := s.arrived[p.ct := At(s.arrived, p.ct) + [p.data]]);
        if p.ct in s.conns && s.conns[p.ct].registered then
          u.(conns := s.conns[p.ct := SocketWrite(s.conns[p.ct], p.data)], handler := Draining(p.ct, p.data))
        else u.(replies := s.replies + [Unknown(p.ct)])
  }

  /** stop up to its await: the call that gets past the check sends the notice. */
  function Stops(s: System, ct: bytes): System
    requires ct in s.conns
  {
    s.(conns := s.conns[ct := StopCall(s.conns[ct])],
       replies := if s.conns[ct].disconnected then s.replies else s.replies + [Notice(ct)])
  }

  /** A stop begins; the connection is disturbed when its first empty payload has not arrived. */
  function Disturbs(s: System, ct: bytes): set<bytes>
    requires ct in s.conns
  {
    if s.conns[ct].disconnected || Ended(At(s.arrived, ct)) then s.disturbed else s.disturbed + {ct}
  }

  /** handle_write after drain: an empty payload and an exception both call stop. */
  function Drains(s: System, ok: bool): System {
    if !s.handler.Draining? || s.handler.ct !in s.conns then s
    else if ok && s.handler.data != [] then s.(handler := Idle)
    else
      var ct := s.handler.ct;
      Stops(s, ct).(handler := if s.conns[ct].disconnected then Idle else Stopping(ct), disturbed := Disturbs(s, ct))
  }

  /** run hands on what it read from the peer, nothing at its end. */
  function RunSend(s: System, ct: bytes, data: bytes): System {
    if ct !in s.conns then s else s.(replies := s.replies + [FromPeer(ct, data)])
  }

  /** stop called by the connection's run task or by the loop that shuts the server down. */
  function OtherStops(s: System, ct: bytes): System {
    if ct !in s.conns then s
    else
      Stops(s, ct).(disturbed := Disturbs(s, ct))
  }

  /** The await inside stop ends, with the notice sent or with an exception. */
  function Notices(s: System, ct: bytes, ok: bool): System {
    if ct !in s.conns || !s.conns[ct].stopping then s
    else
      s.(conns := s.conns[ct := StopSent(s.conns[ct], ok)],
         handler := if s.handler == Stopping(ct) then Idle else s.handler)
  }

  function Exec(s: System, step: Step): System {
    match step
    case Accept => Accepts(s)
    case ClientWrites(ct, data) => Writes(s, ct, data)
    case Deliver => Delivers(s)
    case Drained(ok) => Drains(s, ok)
    case RunSends(ct, data) => RunSend(s, ct, data)
    case OtherStop(ct) => OtherStops(s, ct)
    case NoticeSent(ct, ok) => Notices(s, ct, ok)
  }

  function Run(s: System, steps: seq<Step>): System
    decreases |steps|
  {
    if steps == [] then s else Run(Exec(s, steps[0]), steps[1..])
  }

  // ---- payload lists ----

  /** The bytes in front of the first empty payload, the one that means close. */
  function UpToEmpty(ps: seq<bytes>): bytes {
    if ps == [] || ps[0] == [] then [] else ps[0] + UpToEmpty(ps[1..])
  }

  predicate Ended(ps: seq<bytes>) {
    ps != [] && (ps[0] == [] || Ended(ps[1..]))
  }

  lemma {:induction false} UpToEmptyAppend(ps: seq<bytes>, qs: seq<bytes>)
    ensures UpToEmpty(ps + qs) == if Ended(ps) then UpToEmpty(ps) else UpToEmpty(ps) + UpToEmpty(qs)
    ensures Ended(ps + qs) <==> Ended(ps) || Ended(qs)
  {
    if ps == [] {
      assert ps + qs == qs;
    } else {
      assert (ps + qs)[1..] == ps[1..] + qs;
      UpToEmptyAppend(ps[1..], qs);
    }
  }

  lemma UpToEmptyGrows(ps: seq<bytes>, qs: seq<bytes>)
    ensures UpToEmpty(ps) <= UpToEmpty(ps + qs)
  {
    UpToEmptyAppend(ps, qs);
  }

  lemma OnePayload(data: bytes)
    ensures UpToEmpty([data]) == data && (Ended([data]) <==> data == [])
  {
    assert [data][1..] == [];
  }

  lemma {:induction false} NoEmptyChunks(ps: seq<bytes>)
    requires forall p :: p in ps ==> p != []
    ensures !Ended(ps) && UpToEmpty(ps) == Concat(ps)
  {
    if ps == [] {
    } else {
      assert ps[0] in ps;
      forall p | p in ps[1..] ensures p != [] {
        assert p in ps;
      }
      NoEmptyChunks(ps[1..]);
    }
  }

  function AllChunks(ws: seq<bytes>): seq<bytes> {
    if ws == [] then [] else Chunker.Chunks(ws[0]) + AllChunks(ws[1..])
  }

  lemma {:induction false} AllChunksAppend(ws: seq<bytes>, w: bytes)
    ensures AllChunks(ws + [w]) == AllChunks(ws) + Chunker.Chunks(w)
  {
    hide Chunker.Chunks;
    if ws == [] {
      assert AllChunks([w]) == Chunker.Chunks(w) + AllChunks([w][1..]);
    } else {
      assert (ws + [w])[1..] == ws[1..] + [w];
      AllChunksAppend(ws[1..], w);
    }
  }

  /** Chunking never invents the payload that means close, and never hides the one that was written. */
  lemma {:induction false} ChunkingKeepsMeaning(ws: seq<bytes>)
    ensures UpToEmpty(AllChunks(ws)) == UpToEmpty(ws)
    ensures Ended(AllChunks(ws)) <==> Ended(ws)
  {
    if ws == [] {
    } else {
      ChunkingKeepsMeaning(ws[1..]);
      UpToEmptyAppend(Chunker.Chunks(ws[0]), AllChunks(ws[1..]));
      if ws[0] == [] {
        assert Chunker.Chunks([]) == [[]];
      } else {
        Chunker.ChunkArithmetic(ws[0]);
        NoEmptyChunks(Chunker.Chunks(ws[0]));
      }
    }
  }

  // ---- the wire ----

  /** The payload a frame carries for a connection, if it carries one. */
  function PayloadIn(server: bytes, f: bytes, ct: bytes): seq<bytes> {
    match Decoded(server, f)
    case Some(p) => if p.ct == ct then [p.data] else []
    case None => []
  }

  function PayloadsFor(server: bytes, wire: seq<bytes>, ct: bytes): seq<bytes> {
    if wire == [] then []
    else
      PayloadIn(server, wire[0], ct) + PayloadsFor(server, wire[1..], ct)
  }

  lemma {:induction false} PayloadsAppend(server: bytes, wire: seq<bytes>, more: seq<bytes>, ct: bytes)
    ensures PayloadsFor(server, wire + more, ct) == PayloadsFor(server, wire, ct) + PayloadsFor(server, more, ct)
  {
    hide Decoded;
    if wire == [] {
      assert wire + more == more;
    } else {
      assert (wire + more)[1..] == wire[1..] + more;
      PayloadsAppend(server, wire[1..], more, ct);
    }
  }

  lemma FrameDecodes(server: bytes, c: bytes, data: bytes)
    requires |server| == 16 && |c| == 16 && |data| < Chunker.LIMIT
    ensures Decoded(server, Chunker.FrameOf(Chunker.DataFrame(server, c, data))) == Some(Payload(c, data))
  {
    hide Wire.EncodeFrame, Wire.DecodeBytes;
    var m := Chunker.DataFrame(server, c, data);
    Chunker.ServerDataFrame(server, c, data);
    assert Frames.WellFormed(m);
    Frames.BytesRoundTrip(m);
  }

  lemma {:induction false} FramesDecode(server: bytes, c: bytes, ps: seq<bytes>, ct: bytes)
    requires |server| == 16 && |c| == 16
    requires forall p :: p in ps ==> |p| < Chunker.LIMIT
    ensures PayloadsFor(server, Chunker.ServerFrames(server, c, ps), ct) == if c == ct then ps else []
  {
    hide Decoded, Chunker.FrameOf, Chunker.DataFrame, PayloadsFor;
    if ps == [] {
      NoPayloads(server, ct);
    } else {
      assert ps[0] in ps;
      forall p | p in ps[1..] ensures |p| < Chunker.LIMIT {
        assert p in ps;
      }
      FrameDecodes(server, c, ps[0]);
      FramesDecode(server, c, ps[1..], ct);
      var f, rest := Chunker.FrameOf(Chunker.DataFrame(server, c, ps[0])), Chunker.ServerFrames(server, c, ps[1..]);
      assert Chunker.ServerFrames(server, c, ps) == [f] + rest && ([f] + rest)[1..] == rest;
      PayloadsHead(server, [f] + rest, ct);
      assert ps == [ps[0]] + ps[1..];
    }
  }

  lemma ChunksAreShort(data: bytes)
    ensures forall p :: p in Chunker.Chunks(data) ==> |p| < Chunker.LIMIT
  {
    Chunker.SplitArithmetic(data);
  }

  // ---- invariants ----

  /** The chunks of the writes are what has arrived followed by what is in flight. */
  predicate InOrder(s: System, ct: bytes) {
    AllChunks(At(s.writes, ct)) == At(s.arrived, ct) + PayloadsFor(s.server, s.wire, ct)
  }

  /**
   The socket never has more than what arrived up to the first empty payload. While payloads still reach it
   it has just that, and once the empty one has arrived the handler is about to close it.
   */
  predicate Bounded(c: Conn, ps: seq<bytes>, h: Handler, ct: bytes) {
    && c.socket <= UpToEmpty(ps)
    && (c.registered && !c.writerClosed ==> c.socket == UpToEmpty(ps))
    && (c.registered && !c.writerClosed && Ended(ps) ==> h == Draining(ct, []) || (h == Stopping(ct) && c.stopping))
  }

  /** An undisturbed connection has got all it should, and is not stopped before its first empty payload. */
  predicate Undisturbed(c: Conn, ps: seq<bytes>) {
    && c.socket == UpToEmpty(ps)
    && (!Ended(ps) ==> !c.disconnected)
  }

  /** The state of one connection, with the payloads that arrived for it. */
  predicate Own(c: Conn, ps: seq<bytes>, h: Handler, disturbed: bool, ct: bytes) {
    && StopsOnce(c)
    && Bounded(c, ps, h, ct)
    && (h == Draining(ct, []) ==> Ended(ps))
    && (!disturbed ==> Undisturbed(c, ps))
  }

  /** One announcement has been sent for every connection, and one notice for each whose stop has begun. */
  predicate Noticed(s: System, ct: bytes) {
    && multiset(s.replies)[Notice(ct)] == (if ct in s.conns && s.conns[ct].disconnected then 1 else 0)
    && multiset(s.replies)[Announcement(ct)] == (if ct in s.conns then 1 else 0)
  }

  /** Whether the handler is busy with a connection. */
  predicate Handles(h: Handler, ct: bytes) {
    !h.Idle? && h.ct == ct
  }

  /** A connection nothing has arrived for is not being handled. */
  predicate Good(s: System, ct: bytes) {
    && |s.server| == 16
    && InOrder(s, ct)
    && (ct !in s.conns ==> At(s.writes, ct) == [] && !Handles(s.handler, ct))
    && Noticed(s, ct)
    && (ct in s.conns ==> Own(s.conns[ct], At(s.arrived, ct), s.handler, ct in s.disturbed, ct))
  }

  /** Every identifier in use was handed out by the counter. */
  predicate Counted(s: System) {
    forall ct :: ct in s.conns ==> exists i: nat :: i < s.counter && ct == ConnectionId(i)
  }

  lemma FreshId(s: System)
    requires Counted(s)
    ensures ConnectionId(s.counter) !in s.conns
  {
    if ConnectionId(s.counter) in s.conns {
      var i: nat :| i < s.counter && ConnectionId(s.counter) == ConnectionId(i);
      IdsAreDistinct(s.counter, i);
    }
  }

  lemma AcceptKeeps(s: System, ct: bytes)
    requires Good(s, ct) && Counted(s)
    ensures Good(Accepts(s), ct)
  {
    hide ConnectionId, PayloadsFor;
    FreshId(s);
    if ct == ConnectionId(s.counter) {
      assert AllChunks([]) == [];
      assert At(s.arrived, ct) == [];
    }
  }

  lemma CountedKeeps(s: System, step: Step)
    requires Counted(s)
    ensures Counted(Exec(s, step))
  {
    hide ConnectionId, Decoded;
    var t := Exec(s, step);
    forall ct | ct in t.conns ensures exists i: nat :: i < t.counter && ct == ConnectionId(i) {
      if ct in s.conns {
        var i: nat :| i < s.counter && ct == ConnectionId(i);
      } else {
        assert ct == ConnectionId(s.counter);
      }
    }
  }

  lemma WriteKeeps(s: System, c: bytes, data: bytes, ct: bytes)
    requires Good(s, ct)
    ensures Good(Writes(s, c, data), ct)
  {
    hide AllChunks, PayloadsFor, Chunker.Chunks, Chunker.ServerFrames, UpToEmpty, Ended;
    if c in s.conns && |c| == 16 {
      var ps := Chunker.Chunks(data);
      var fs := Chunker.ServerFrames(s.server, c, ps);
      PayloadsAppend(s.server, s.wire, fs, ct);
      ChunksAreShort(data);
      FramesDecode(s.server, c, ps, ct);
      AllChunksAppend(At(s.writes, c), data);
      assert At(s.arrived, ct) + (PayloadsFor(s.server, s.wire, ct) + PayloadsFor(s.server, fs, ct))
          == At(s.arrived, ct) + PayloadsFor(s.server, s.wire, ct) + PayloadsFor(s.server, fs, ct);
    }
  }

  lemma DeliverInOrder(s: System, ct: bytes)
    requires InOrder(s, ct)
    ensures InOrder(Delivers(s), ct)
    ensures s.handler.Idle? && s.wire != [] ==>
              At(Delivers(s).arrived, ct) == At(s.arrived, ct) + PayloadIn(s.server, s.wire[0], ct)
  {
    hide AllChunks, Decoded, SocketWrite, PayloadsFor;
    if s.handler.Idle? && s.wire != [] {
      PayloadsHead(s.server, s.wire, ct);
      var ps, rest := PayloadIn(s.server, s.wire[0], ct), PayloadsFor(s.server, s.wire[1..], ct);
      assert At(s.arrived, ct) + (ps + rest) == At(s.arrived, ct) + ps + rest;
    }
  }

  lemma NoPayloads(server: bytes, ct: bytes)
    ensures PayloadsFor(server, [], ct) == []
  {}

  lemma PayloadsHead(server: bytes, wire: seq<bytes>, ct: bytes)
    requires wire != []
    ensures PayloadsFor(server, wire, ct) == PayloadIn(server, wire[0], ct) + PayloadsFor(server, wire[1..], ct)
  {
    hide Decoded;
  }

  /** A step that leaves a connection alone, while the handler may turn from one other connection to another. */
  lemma ElsewhereKeeps(s: System, t: System, ct: bytes)
    requires Good(s, ct) && t.server == s.server && InOrder(t, ct) && Noticed(t, ct)
    requires (ct in t.conns <==> ct in s.conns) && (ct in s.conns ==> t.conns[ct] == s.conns[ct])
    requires At(t.arrived, ct) == At(s.arrived, ct) && At(t.writes, ct) == At(s.writes, ct)
    requires ct in t.disturbed <==> ct in s.disturbed
    requires t.handler == s.handler || (!Handles(s.handler, ct) && !Handles(t.handler, ct))
    ensures Good(t, ct)
  {
    hide InOrder, Noticed, StopsOnce, UpToEmpty, Ended;
  }

  lemma SameOrder(s: System, t: System, ct: bytes)
    requires InOrder(s, ct)
    requires t.server == s.server && t.wire == s.wire && t.writes == s.writes && t.arrived == s.arrived
    ensures InOrder(t, ct)
  {}

  /** A payload for a connection that is registered: it is written and the handler waits for drain. */
  lemma OwnTakes(c: Conn, ps: seq<bytes>, data: bytes, disturbed: bool, ct: bytes)
    requires Own(c, ps, Idle, disturbed, ct) && c.registered
    ensures Own(SocketWrite(c, data), ps + [data], Draining(ct, data), disturbed, ct)
  {
    hide UpToEmpty, Ended, StopsOnce;
    LifeKeepsStopsOnce(c, data, true);
    OwnFacts(c);
    UpToEmptyAppend(ps, [data]);
    UpToEmptyGrows(ps, [data]);
    OnePayload(data);
  }

  /** What StopsOnce says of a connection whose stop has not begun. */
  lemma OwnFacts(c: Conn)
    requires StopsOnce(c)
    ensures !c.disconnected ==> c.registered && !c.writerClosed
    ensures c.stopping ==> c.disconnected && c.registered
    ensures c.disconnected && !c.stopping ==> (c.registered <==> c.noticeLost)
  {}

  /** A payload for a connection that is not registered any more is dropped. */
  lemma OwnMisses(c: Conn, ps: seq<bytes>, data: bytes, disturbed: bool, ct: bytes)
    requires Own(c, ps, Idle, disturbed, ct) && !c.registered
    ensures Own(c, ps + [data], Idle, disturbed, ct)
  {
    hide UpToEmpty, Ended, StopsOnce;
    OwnFacts(c);
    UpToEmptyAppend(ps, [data]);
    UpToEmptyGrows(ps, [data]);
    OnePayload(data);
  }

  /** The handler goes on after drain. */
  lemma OwnDrains(c: Conn, ps: seq<bytes>, data: bytes, ok: bool, disturbed: bool, ct: bytes)
    requires Own(c, ps, Draining(ct, data), disturbed, ct)
    ensures ok && data != [] ==> Own(c, ps, Idle, disturbed, ct)
    ensures !(ok && data != []) ==>
              Own(StopCall(c), ps, if c.disconnected then Idle else Stopping(ct),
                  disturbed || (!c.disconnected && !Ended(ps)), ct)
  {
    hide UpToEmpty, Ended, StopsOnce;
    LifeKeepsStopsOnce(c, [], ok);
    OwnFacts(c);
  }

  /** Someone else stops the connection. */
  lemma OwnStops(c: Conn, ps: seq<bytes>, h: Handler, disturbed: bool, ct: bytes)
    requires Own(c, ps, h, disturbed, ct)
    ensures Own(StopCall(c), ps, h, disturbed || (!c.disconnected && !Ended(ps)), ct)
  {
    hide UpToEmpty, Ended, StopsOnce;
    LifeKeepsStopsOnce(c, [], true);
    OwnFacts(c);
  }

  lemma OwnNotice(c: Conn, ps: seq<bytes>, h: Handler, ok: bool, disturbed: bool, ct: bytes)
    requires Own(c, ps, h, disturbed, ct) && c.stopping
    ensures Own(StopSent(c, ok), ps, if h == Stopping(ct) then Idle else h, disturbed, ct)
  {
    hide UpToEmpty, Ended, StopsOnce;
    LifeKeepsStopsOnce(c, [], ok);
    OwnFacts(c);
  }

  lemma DeliverKeeps(s: System, ct: bytes)
    requires Good(s, ct)
    ensures Good(Delivers(s), ct)
  {
    hide Decoded, InOrder, Own, SocketWrite;
    DeliverInOrder(s, ct);
    if s.handler.Idle? && s.wire != [] {
      if Decoded(s.server, s.wire[0]).Some? && Decoded(s.server, s.wire[0]).value.ct == ct {
        if ct in s.conns {
          var c, ps, data := s.conns[ct], At(s.arrived, ct), Decoded(s.server, s.wire[0]).value.data;
          SocketWriteKeeps(c, data);
          if c.registered {
            OwnTakes(c, ps, data, ct in s.disturbed, ct);
          } else {
            OwnMisses(c, ps, data, ct in s.disturbed, ct);
          }
        }
      } else {
        ElsewhereKeeps(s, Delivers(s), ct);
      }
    }
  }

  lemma SocketWriteKeeps(c: Conn, data: bytes)
    ensures SocketWrite(c, data).disconnected == c.disconnected
  {}

  /** stop leaves every connection but its own alone and sends the notice exactly when it begins. */
  lemma StopsEffect(s: System, c: bytes, ct: bytes)
    requires c in s.conns && Noticed(s, ct)
    ensures var t := Stops(s, c);
            && t == s.(conns := s.conns[c := StopCall(s.conns[c])], replies := t.replies)
            && Noticed(t, ct)
  {}

  lemma SameNotices(s: System, t: System, ct: bytes)
    requires Noticed(s, ct) && t.replies == s.replies && t.conns == s.conns
    ensures Noticed(t, ct)
  {}

  lemma DrainKeeps(s: System, ok: bool, ct: bytes)
    requires Good(s, ct)
    ensures Good(Drains(s, ok), ct)
  {
    hide InOrder, Own, StopsOnce, Stops, Noticed, StopCall, Ended;
    var t := Drains(s, ok);
    if s.handler.Draining? && s.handler.ct in s.conns {
      StopsEffect(s, s.handler.ct, ct);
      SameNotices(if ok && s.handler.data != [] then s else Stops(s, s.handler.ct), t, ct);
      SameOrder(s, t, ct);
      if s.handler.ct == ct {
        OwnDrains(s.conns[ct], At(s.arrived, ct), s.handler.data, ok, ct in s.disturbed, ct);
      } else {
        ElsewhereKeeps(s, t, ct);
      }
    }
  }

  lemma OtherStopKeeps(s: System, c: bytes, ct: bytes)
    requires Good(s, ct)
    ensures Good(OtherStops(s, c), ct)
  {
    hide InOrder, Own, StopsOnce, Stops, Noticed, StopCall, Ended;
    if c in s.conns {
      var t := OtherStops(s, c);
      StopsEffect(s, c, ct);
      SameNotices(Stops(s, c), t, ct);
      SameOrder(s, t, ct);
      if c != ct {
        ElsewhereKeeps(s, t, ct);
      } else {
        OwnStops(s.conns[ct], At(s.arrived, ct), s.handler, ct in s.disturbed, ct);
      }
    }
  }

  lemma RunSendKeeps(s: System, c: bytes, data: bytes, ct: bytes)
    requires Good(s, ct)
    ensures Good(RunSend(s, c, data), ct)
  {
    hide InOrder, Own;
    SameOrder(s, RunSend(s, c, data), ct);
  }

  lemma NoticeKeeps(s: System, c: bytes, ok: bool, ct: bytes)
    requires Good(s, ct)
    ensures Good(Notices(s, c, ok), ct)
  {
    hide InOrder, Own, StopsOnce;
    var t := Notices(s, c, ok);
    SameOrder(s, t, ct);
    if c != ct {
      ElsewhereKeeps(s, t, ct);
    } else if ct in s.conns && s.conns[ct].stopping {
      OwnNotice(s.conns[ct], At(s.arrived, ct), s.handler, ok, ct in s.disturbed, ct);
    }
  }

  lemma StepKeeps(s: System, step: Step, ct: bytes)
    requires Good(s, ct) && Counted(s)
    ensures Good(Exec(s, step), ct) && Counted(Exec(s, step))
  {
    hide Good, Counted, Accepts, Writes, Delivers, Drains, RunSend, OtherStops, Notices;
    CountedKeeps(s, step);
    match step
    case Accept => AcceptKeeps(s, ct);
    case ClientWrites(c, data) => WriteKeeps(s, c, data, ct);
    case Deliver => DeliverKeeps(s, ct);
    case Drained(ok) => DrainKeeps(s, ok, ct);
    case RunSends(c, data) => RunSendKeeps(s, c, data, ct);
    case OtherStop(c) => OtherStopKeeps(s, c, ct);
    case NoticeSent(c, ok) => NoticeKeeps(s, c, ok, ct);
  }

  lemma {:induction false} RunKeeps(s: System, steps: seq<Step>, ct: bytes)
    requires Good(s, ct) && Counted(s)
    ensures Good(Run(s, steps), ct) && Counted(Run(s, steps))
    decreases |steps|
  {
    hide Good, Counted, Exec;
    if steps == [] {
    } else {
      StepKeeps(s, steps[0], ct);
      RunKeeps(Exec(s, steps[0]), steps[1..], ct);
    }
  }

  lemma RunIsGood(server: bytes, steps: seq<Step>, ct: bytes)
    requires |server| == 16
    ensures Good(Run(Initial(server), steps), ct) && Counted(Run(Initial(server), steps))
  {
    hide Run, ConnectionId;
    assert Good(Initial(server), ct);
    RunKeeps(Initial(server), steps, ct);
  }

  /**
   End to end, in every reachable state: the socket of any connection, stopped by whomever, holds a prefix of
   what the client wrote to it before its first empty write; and it holds all of it once nothing is in flight,
   unless a stop began before the empty write had arrived.
   */
  lemma WritePathDelivers(server: bytes, steps: seq<Step>, ct: bytes)
    requires |server| == 16
    ensures var s := Run(Initial(server), steps);
            ct in s.conns ==>
              && s.conns[ct].socket <= UpToEmpty(At(s.writes, ct))
              && (ct !in s.disturbed && PayloadsFor(s.server, s.wire, ct) == [] ==>
                    s.conns[ct].socket == UpToEmpty(At(s.writes, ct)))
  {
    hide Run, AllChunks, PayloadsFor, UpToEmpty, Ended;
    RunIsGood(server, steps, ct);
    var s := Run(Initial(server), steps);
    var arrived, flying := At(s.arrived, ct), PayloadsFor(s.server, s.wire, ct);
    ChunkingKeepsMeaning(At(s.writes, ct));
    UpToEmptyGrows(arrived, flying);
    assert flying == [] ==> arrived + flying == arrived;
  }

  /**
   The agent announces every connection once and, however many tasks call stop, sends one notice for one whose
   stop has begun, else none. Notices are told by their origin here; EofLooksLikeNotice says why.
   */
  lemma OneNotice(server: bytes, steps: seq<Step>, ct: bytes)
    requires |server| == 16
    ensures var s := Run(Initial(server), steps);
            && multiset(s.replies)[Notice(ct)] == (if ct in s.conns && s.conns[ct].disconnected then 1 else 0)
            && (ct in s.conns ==> s.conns[ct].notices == multiset(s.replies)[Notice(ct)])
            && multiset(s.replies)[Announcement(ct)] == (if ct in s.conns then 1 else 0)
  {
    hide Run;
    RunIsGood(server, steps, ct);
  }

  /**
   A payload that arrives is written to the socket of its connection, unless that is closed already, and the
   handler waits for drain; for a connection that is not registered the reply is an empty payload.
   */
  lemma DeliveryMeans(s: System)
    requires s.handler.Idle? && s.wire != [] && Decoded(s.server, s.wire[0]).Some?
    ensures var p, t := Decoded(s.server, s.wire[0]).value, Delivers(s);
            && t.wire == s.wire[1..] && At(t.arrived, p.ct) == At(s.arrived, p.ct) + [p.data]
            && (if p.ct in s.conns && s.conns[p.ct].registered then
                  var c := s.conns[p.ct];
                  && t.conns == s.conns[p.ct := c.(socket := if c.writerClosed then c.socket else c.socket + p.data)]
                  && t.handler == Draining(p.ct, p.data) && t.replies == s.replies
                else t.conns == s.conns && t.handler == Idle && t.replies == s.replies + [Unknown(p.ct)])
  {
    hide Decoded;
  }

  /**
   After drain: data that was written well ends there; an empty payload and an exception stop the connection,
   with a notice if that is its first stop, and in any case close its socket when the stop is over.
   */
  lemma DrainMeans(s: System, ok: bool)
    requires s.handler.Draining? && s.handler.ct in s.conns
    ensures var ct, t := s.handler.ct, Drains(s, ok);
            && (ok && s.handler.data != [] ==> t == s.(handler := Idle))
            && (!ok || s.handler.data == [] ==>
                  && t.conns.Keys == s.conns.Keys && t.conns[ct].disconnected
                  && (if s.conns[ct].disconnected then
                        t.handler == Idle && t.replies == s.replies && t.conns[ct].writerClosed
                      else
                        && t.handler == Stopping(ct) && t.replies == s.replies + [Notice(ct)] && t.conns[ct].stopping
                        && forall good :: Notices(t, ct, good).conns[ct].writerClosed))
  {
    hide Ended;
  }

  /** The end of the peer's data is handed on as the very frame that stop then sends, so the client gets two. */
  lemma EofLooksLikeNotice(server: bytes)
    ensures var ct := ConnectionId(10);
            var s := Run(Initial(server), [Accept, RunSends(ct, []), OtherStop(ct)]);
            && s.replies == [Announcement(ct), FromPeer(ct, []), Notice(ct)]
            && ReplyFrame(server, FromPeer(ct, [])) == ReplyFrame(server, Notice(ct))
  {
    hide ConnectionId, Chunker.FrameOf, Ended;
    var ct := ConnectionId(10);
    RunThree(Initial(server), Accept, RunSends(ct, []), OtherStop(ct));
    var s1 := Exec(Initial(server), Accept);
    assert s1.replies == [Announcement(ct)];
    var s2 := Exec(s1, RunSends(ct, []));
    assert s2.replies == [Announcement(ct), FromPeer(ct, [])];
  }

  /** A completed stop leaves the connection unregistered if and only if its notice could be sent. */
  lemma CompletedStop(server: bytes, steps: seq<Step>, ct: bytes)
    requires |server| == 16
    ensures var s := Run(Initial(server), steps);
            ct in s.conns && s.conns[ct].disconnected && !s.conns[ct].stopping ==>
              (!s.conns[ct].registered <==> !s.conns[ct].noticeLost)
  {
    hide Run;
    RunIsGood(server, steps, ct);
  }

  /** A registration never replaces another: in every run the next identifier is new. */
  lemma RegistrationIsFresh(server: bytes, steps: seq<Step>)
    requires |server| == 16
    ensures var s := Run(Initial(server), steps); ConnectionId(s.counter) !in s.conns
  {
    hide Run, ConnectionId;
    RunIsGood(server, steps, []);
    FreshId(Run(Initial(server), steps));
  }

  /** The case that stays registered: the peer leaves and the websocket raises while the notice is sent. */
  lemma LostNoticeStaysRegistered(server: bytes)
    ensures var ct := ConnectionId(10);
            var s := Run(Initial(server), [Accept, OtherStop(ct), NoticeSent(ct, false)]);
            ct in s.conns && s.conns[ct].disconnected && !s.conns[ct].stopping && s.conns[ct].registered
  {
    hide ConnectionId, Ended;
    var ct := ConnectionId(10);
    var s1 := Exec(Initial(server), Accept);
    var s2 := Exec(s1, OtherStop(ct));
    var s3 := Exec(s2, NoticeSent(ct, false));
    RunThree(Initial(server), Accept, OtherStop(ct), NoticeSent(ct, false));
  }

  lemma RunThree(s: System, a: Step, b: Step, c: Step)
    ensures Run(s, [a, b, c]) == Exec(Exec(Exec(s, a), b), c)
  {
    hide Exec;
    assert [a, b, c][1..] == [b, c] && [b, c][1..] == [c] && [c][1..] == [];
    var s1 := Exec(s, a);
    var s2 := Exec(s1, b);
    assert Run(s2, [c]) == Run(Exec(s2, c), []);
    assert Run(s1, [b, c]) == Run(s2, [c]);
  }
}
