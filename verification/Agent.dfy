/** The agent's side of accepted connections as objects: each method is one stretch between awaits. */
module Agent {
  import opened Bytes
  import opened Connections
  import Chunker
  import Codec
  import Frames
  import Text
  import Wire

  class WSNETAgent {
    var connId: nat
    /** server_tcp_connections of one listening server. */
    var registry: map<bytes, TCPServerConnection>
    /** Frames handed to the transport. */
    var sent: seq<bytes>

    constructor ()
      ensures connId == 10 && registry == map[] && sent == []
    {
      connId, registry, sent := 10, map[], [];
    }

    method GetConnectionId() returns (id: bytes)
      modifies this`connId
      ensures id == ConnectionId(old(connId)) && connId == old(connId) + 1
    {
      var t := connId;
      connId := connId + 1;
      IdEncodes(t);
      id := Text.Encode(Text.Utf8, IdText(t)).value;
    }

    method SendData(frame: bytes)
      modifies this`sent
      ensures sent == old(sent) + [frame]
    {
      sent := sent + [frame];
    }
  }

  class TCPServerConnection {
    const agent: WSNETAgent
    const token: bytes
    const connectiontoken: bytes
    var disconnected: bool
    var stopping: bool
    var noticeLost: bool
    var socket: bytes
    var writerClosed: bool
    ghost var notices: nat

    ghost function View(): Conn
      reads this, agent
    {
      Conn(connectiontoken in agent.registry && agent.registry[connectiontoken] == this,
           disconnected, stopping, notices, noticeLost, socket, writerClosed)
    }

    /** A payload for this connection, with no data the notice that it is closed; false when it does not encode. */
    method SendPayload(data: bytes) returns (ok: bool)
      modifies agent`sent
      ensures ok == Wire.EncodeFrame(Chunker.DataFrame(token, connectiontoken, data)).Some?
      ensures agent.sent == old(agent.sent) + Chunker.Encoded(Chunker.DataFrame(token, connectiontoken, data))
      ensures |token| == 16 && |connectiontoken| == 16 && |data| < Chunker.LIMIT ==> ok
    {
      hide Wire.EncodeFrame;
      if |token| == 16 && |connectiontoken| == 16 && |data| < Chunker.LIMIT {
        Chunker.ServerDataFrame(token, connectiontoken, data);
      }
      var frame := Codec.ToFrame(Chunker.DataFrame(token, connectiontoken, data));
      ok := frame.Some?;
      if ok {
        agent.SendData(frame.value);
      }
    }

    /**
     The constructor and the first stretch of run: take an identifier, register, announce the peer. An IPv6
     peer has four parts, which run cannot unpack: it ends there, without announcement and without stop.
     */
    constructor (agent: WSNETAgent, token: bytes, peer: Wire.Address, port: int)
      modifies agent
      ensures this.agent == agent && this.token == token
      ensures connectiontoken == ConnectionId(old(agent.connId)) && agent.connId == old(agent.connId) + 1
      ensures agent.registry == old(agent.registry)[connectiontoken := this]
      ensures agent.sent == old(agent.sent) +
              if peer.V6? then [] else Chunker.Encoded(Wire.ServerSocketData(token, connectiontoken, [], peer, port))
      ensures |token| == 16 && old(agent.connId) < 10_000_000_000_000_000 && IsPeer(peer, port) ==>
                |agent.sent| == |old(agent.sent)| + 1
      ensures View() == Accepted()
    {
      hide Wire.EncodeFrame;
      this.agent, this.token := agent, token;
      disconnected, stopping, noticeLost := false, false, false;
      socket, writerClosed, notices := [], false, 0;
      var id := agent.GetConnectionId();
      connectiontoken := id;
      new;
      agent.registry := agent.registry[connectiontoken := this];
      if peer.V6? {
        return;
      }
      var frame := Codec.ToFrame(Wire.ServerSocketData(token, connectiontoken, [], peer, port));
      IdsAreDistinct(old(agent.connId), old(agent.connId));
      if |token| == 16 && |connectiontoken| == 16 && IsPeer(peer, port) {
        AnnouncementEncodes(token, connectiontoken, peer, port);
      }
      if frame.Some? {
        agent.SendData(frame.value);
      }
    }

    /** stop up to its await; false when an earlier call got past the check or the notice does not encode. */
    method StopBegin() returns (awaiting: bool)
      modifies this, agent`sent
      ensures var notice := Chunker.DataFrame(token, connectiontoken, []);
              var encodes := Wire.EncodeFrame(notice).Some?;
              && awaiting == (!old(disconnected) && encodes)
              && View() == Stopped(old(View()), encodes)
              && agent.sent == old(agent.sent) + if old(disconnected) then [] else Chunker.Encoded(notice)
      ensures |token| == 16 && |connectiontoken| == 16 ==> awaiting == !old(disconnected)
      ensures disconnected && socket == old(socket)
      ensures if awaiting then stopping && writerClosed == old(writerClosed)
              else writerClosed && (stopping ==> old(stopping))
    {
      hide Wire.EncodeFrame;
      if disconnected {
        writerClosed := true;
        return false;
      }
      disconnected := true;
      notices := notices + 1;
      awaiting := SendPayload([]);
      stopping := awaiting;
      if !awaiting {
        noticeLost := true;
        writerClosed := true;
      }
    }

    /** stop after its await. */
    method StopEnd(ok: bool)
      requires stopping
      modifies this, agent`registry
      ensures View() == StopSent(old(View()), ok)
      ensures writerClosed && !stopping && noticeLost == !ok && disconnected == old(disconnected)
      ensures agent.registry == if ok then old(agent.registry) - {connectiontoken} else old(agent.registry)
    {
      stopping := false;
      noticeLost := !ok;
      if ok && connectiontoken in agent.registry {
        agent.registry := agent.registry - {connectiontoken};
      }
      assert connectiontoken !in agent.registry ==> agent.registry - {connectiontoken} == agent.registry;
      writerClosed := true;
    }

    /** handle_write up to drain. */
    method HandleWrite(data: bytes)
      modifies this`socket
      ensures View() == SocketWrite(old(View()), data)
      ensures socket == if writerClosed then old(socket) else old(socket) + data
    {
      if !writerClosed {
        socket := socket + data;
      }
    }

    /** handle_write after drain: the empty payload and an exception both begin to stop the connection. */
    method HandleWriteDrained(data: bytes, ok: bool) returns (awaiting: bool)
      modifies this, agent`sent
      ensures ok && data != [] ==> View() == old(View()) && agent.sent == old(agent.sent) && !awaiting
      ensures !(ok && data != []) ==>
                var notice := Chunker.DataFrame(token, connectiontoken, []);
                var encodes := Wire.EncodeFrame(notice).Some?;
                && awaiting == (!old(disconnected) && encodes)
                && View() == Stopped(old(View()), encodes)
                && agent.sent == old(agent.sent) + if old(disconnected) then [] else Chunker.Encoded(notice)
    {
      hide Wire.EncodeFrame;
      awaiting := false;
      if !ok || data == [] {
        awaiting := StopBegin();
      }
    }
  }

  /** stop up to its await, or to its end when the notice does not encode. */
  function Stopped(c: Conn, encodes: bool): Conn {
    if c.disconnected || encodes then StopCall(c) else StopSent(StopCall(c), false)
  }

  /** What getpeername gives for IPv4: a packed address and a port. */
  predicate IsPeer(peer: Wire.Address, port: int) {
    peer.V4? && Wire.AddressFits(false, peer) && 0 <= port < 0x1_0000
  }

  lemma AnnouncementEncodes(token: bytes, ct: bytes, peer: Wire.Address, port: int)
    requires |token| == 16 && |ct| == 16 && IsPeer(peer, port)
    ensures Wire.EncodeFrame(Wire.ServerSocketData(token, ct, [], peer, port)).Some?
  {
    hide BigEndian, Wire.Print;
    WidthBounds();
    var f := Wire.Then(Wire.UInt(2), Wire.Then(Wire.Remainder, Wire.End));
    var vs := Wire.Cons(Wire.VInt(port), Wire.Cons(Wire.VBytes([]), Wire.Nil));
    var g := Wire.Then(Wire.Addr(false), f);
    var ws := Wire.Cons(Wire.VAddr(peer), vs);
    Frames.PrintThen(Wire.Raw(16), Wire.Then(Wire.Raw(16), g), Wire.VBytes(token), Wire.Cons(Wire.VBytes(ct), ws));
    Frames.PrintThen(Wire.Raw(16), g, Wire.VBytes(ct), ws);
    Frames.PrintThen(Wire.Addr(false), f, Wire.VAddr(peer), vs);
    Frames.PrintThen(Wire.UInt(2), f.tail, Wire.VInt(port), vs.tail);
    Frames.PrintThen(Wire.Remainder, Wire.End, Wire.VBytes([]), Wire.Nil);
    Chunker.PrintNothing();
  }
}
