/** The chunking writers: one call, one or more socket-data frames on the websocket. */
module Chunker {
  import opened Bytes
  import opened Wire
  import opened Text
  import opened Frames
  import Codec
  import Reader

  /** The writers send data shorter than this as one payload. */
  const LIMIT := 286295

  /** Longer data is cut into pieces of this size. */
  const CHUNK := 286200

  function Split(data: bytes): seq<bytes>
    decreases |data|
  {
    if data == [] then [] else [Head(data, CHUNK)] + Split(Tail(data, CHUNK))
  }

  /** The payloads one write puts on the wire. */
  function Chunks(data: bytes): seq<bytes> {
    if |data| < LIMIT then [data] else Split(data)
  }

  function CeilDiv(n: nat, d: nat): nat
    requires d > 0
  {
    (n + d - 1) / d
  }

  lemma {:induction false} SplitArithmetic(data: bytes)
    ensures Concat(Split(data)) == data
    ensures |Split(data)| == CeilDiv(|data|, CHUNK)
    ensures forall c :: c in Split(data) ==> 1 <= |c| <= CHUNK
    ensures forall i :: 0 <= i < |Split(data)| - 1 ==> |Split(data)[i]| == 286200
    decreases |data|
  {
    if data == [] {
    } else {
      var h, t := Head(data, CHUNK), Tail(data, CHUNK);
      SplitArithmetic(t);
      assert Split(data)[1..] == Split(t);
      assert data == h + t;
      if |data| > CHUNK {
        assert CeilDiv(|data|, CHUNK) == 1 + CeilDiv(|data| - CHUNK, CHUNK);
      }
      forall i | 0 <= i < |Split(data)| - 1 ensures |Split(data)[i]| == 286200 {
        if i > 0 {
          assert Split(data)[i] == Split(t)[i - 1];
        } else {
          assert t != [];
        }
      }
    }
  }

  /** One pass of the loop that reads CHUNK bytes until it reads none. */
  lemma SplitStep(left: bytes)
    ensures (Head(left, CHUNK) == [] <==> left == []) && |Head(left, CHUNK)| <= CHUNK
    ensures left == [] ==> Split(left) == []
    ensures left != [] ==> Split(left) == [Head(left, CHUNK)] + Split(Tail(left, CHUNK)) && |Tail(left, CHUNK)| < |left|
  {}

  /**
   Chunk arithmetic: the payloads of a non-empty write are the data in order, none is empty, none is
   longer than 286294 bytes, and there are as few as their size allows.
   */
  lemma ChunkArithmetic(data: bytes)
    requires data != []
    ensures Concat(Chunks(data)) == data
    ensures forall c :: c in Chunks(data) ==> 1 <= |c| <= 286294
    ensures |Chunks(data)| == if |data| < 286295 then 1 else CeilDiv(|data|, 286200)
    ensures forall i :: 0 <= i < |Chunks(data)| - 1 ==> |Chunks(data)[i]| == 286200
  {
    SplitArithmetic(data);
    assert Concat([data]) == data;
  }

  // ---- frames ----

  function DataFrame(token: bytes, ctoken: bytes, data: bytes): Message {
    ServerSocketData(token, ctoken, data, Host([]), 0)
  }

  /** A socket-data frame is 22 bytes longer than its payload. */
  lemma SocketDataFrame(token: bytes, data: bytes)
    requires |token| == 16 && |data| < 0xFFFF_0000
    ensures EncodeFrame(SocketData(token, data)).Some?
    ensures |EncodeFrame(SocketData(token, data)).value| == 22 + |data|
  {
    var m := SocketData(token, data);
    hide BigEndian, Print;
    WidthBounds();
    PrintThen(Raw(16), Then(Remainder, End), VBytes(token), Cons(VBytes(data), Nil));
    PrintThen(Remainder, End, VBytes(data), Nil);
    PrintNothing();
    assert Print(FormatOf(TSd), FieldsOf(m)) == Some(token + (data + []));
  }

  lemma PrintNothing()
    ensures Print(End, Nil) == Some([])
  {}

  /** A server-socket-data frame without an address is 45 bytes longer than its payload. */
  lemma ServerDataFrame(token: bytes, ctoken: bytes, data: bytes)
    requires |token| == 16 && |ctoken| == 16 && |data| < 0xFFFF_0000
    ensures EncodeFrame(DataFrame(token, ctoken, data)).Some?
    ensures |EncodeFrame(DataFrame(token, ctoken, data)).value| == 45 + |data|
  {
    var m := DataFrame(token, ctoken, data);
    hide BigEndian, Print, PrintAddress;
    WidthBounds();
    var f := Then(UInt(2), Then(Remainder, End));
    var vs := Cons(VInt(0), Cons(VBytes(data), Nil));
    PrintThen(Raw(16), Then(Raw(16), Then(Addr(false), f)), VBytes(token),
        Cons(VBytes(ctoken), Cons(VAddr(Host([])), vs)));
    PrintThen(Raw(16), Then(Addr(false), f), VBytes(ctoken), Cons(VAddr(Host([])), vs));
    PrintThen(Addr(false), f, VAddr(Host([])), vs);
    PrintThen(UInt(2), Then(Remainder, End), VInt(0), Cons(VBytes(data), Nil));
    PrintThen(Remainder, End, VBytes(data), Nil);
    PrintNothing();
    NoAddress();
    var a, p := PrintAddress(false, Host([])).value, BigEndian(0, 2);
    assert Print(FormatOf(TSdSrv), FieldsOf(m)) == Some(token + (ctoken + (a + (p + (data + [])))));
  }

  /** Behind its header that frame has the two tokens, an empty host name, port 0 and the payload. */
  lemma ServerDataBytes(token: bytes, ctoken: bytes, data: bytes)
    requires |token| == 16 && |ctoken| == 16 && |data| < 0xFFFF_0000
    ensures EncodeFrame(DataFrame(token, ctoken, data)).Some?
    ensures EncodeFrame(DataFrame(token, ctoken, data)).value[4..]
         == [0, 200] + token + ctoken + [255, 0, 0, 0, 0, 0, 0] + data
  {
    hide EncodeFrame, BigEndian, Layout, Wide, Sized, Coded, ToBytes;
    var m := DataFrame(token, ctoken, data);
    ServerDataFrame(token, ctoken, data);
    HeaderBytes(m);
    FrameLayout(m);
    NoAddressLayout(m);
    var f := EncodeFrame(m).value;
    assert f[4..] == f[4..6] + (token + (ctoken + ([255, 0, 0, 0, 0] + ([0, 0] + data))));
  }

  lemma NoAddressLayout(m: Message)
    requires m.ServerSocketData? && m.clientip == Host([]) && m.clientport == 0
    ensures Layout(m) == m.connectiontoken + ([255, 0, 0, 0, 0] + ([0, 0] + m.data))
  {
    WidthBounds();
    TwoBytes(0);
    assert BigEndian(0, 4) == BigEndian(0, 3) + [0] && BigEndian(0, 3) == BigEndian(0, 2) + [0];
    assert AddressLayout(false, Host([])) == [255, 0, 0, 0, 0];
  }

  lemma NoAddress()
    ensures PrintAddress(false, Host([])).Some? && |PrintAddress(false, Host([])).value| == 5
  {
    WidthBounds();
  }

  /** Every frame of a chunked tunnel write is at most 286316 bytes. */
  lemma FrameBound(token: bytes, data: bytes, c: bytes)
    requires |token| == 16 && data != [] && c in Chunks(data)
    ensures EncodeFrame(SocketData(token, c)).Some? && |EncodeFrame(SocketData(token, c)).value| <= 286316
  {
    ChunkArithmetic(data);
    SocketDataFrame(token, c);
  }

  // ---- the writers ----

  /** A websocket as the writers see it: the frames sent so far. */
  class WebSocket {
    var sent: seq<bytes>

    constructor ()
      ensures sent == []
    {
      sent := [];
    }

    method Send(frame: bytes)
      modifies this
      ensures sent == old(sent) + [frame]
    {
      sent := sent + [frame];
    }
  }

  /** The frame of a message, if it encodes. */
  function Encoded(m: Message): seq<bytes> {
    match EncodeFrame(m)
    case None => []
    case Some(f) => [f]
  }

  /** The bytes of a message that fits in a frame. */
  function FrameOf(m: Message): bytes {
    match EncodeFrame(m)
    case None => []
    case Some(f) => f
  }

  /** The frames of a list of payloads. */
  function ServerFrames(token: bytes, ctoken: bytes, payloads: seq<bytes>): seq<bytes> {
    if payloads == [] then []
    else [FrameOf(DataFrame(token, ctoken, payloads[0]))] + ServerFrames(token, ctoken, payloads[1..])
  }

  function TunnelFrames(token: bytes, payloads: seq<bytes>): seq<bytes> {
    if payloads == [] then []
    else [FrameOf(SocketData(token, payloads[0]))] + TunnelFrames(token, payloads[1..])
  }

  /** WSNetworkServerTCPWriter: the token of the listening server and of one accepted connection. */
  class ServerWriter {
    const ws: WebSocket
    const token: bytes
    const connectiontoken: bytes
    const closedEvent: Reader.Event

    constructor (ws: WebSocket, token: bytes, connectiontoken: bytes, closedEvent: Reader.Event)
      ensures this.ws == ws && this.token == token && this.connectiontoken == connectiontoken
      ensures this.closedEvent == closedEvent
    {
      this.ws, this.token, this.connectiontoken, this.closedEvent := ws, token, connectiontoken, closedEvent;
    }

    method SendPayload(data: bytes)
      requires |token| == 16 && |connectiontoken| == 16 && |data| < LIMIT
      modifies ws
      ensures ws.sent == old(ws.sent) + ServerFrames(token, connectiontoken, [data])
    {
      hide EncodeFrame;
      ServerDataFrame(token, connectiontoken, data);
      var frame := Codec.ToFrame(DataFrame(token, connectiontoken, data));
      ws.Send(frame.value);
      assert [data][1..] == [];
    }

    /** write(data): the frames of the chunks of data, the one empty payload of a close included. */
    method Write(data: bytes)
      requires |token| == 16 && |connectiontoken| == 16
      modifies ws
      ensures ws.sent == old(ws.sent) + ServerFrames(token, connectiontoken, Chunks(data))
    {
      hide FrameOf, DataFrame, ServerFrames, Split, Head, Tail, Codec.BytesIO.Rest;
      if |data| < LIMIT {
        SendPayload(data);
      } else {
        var buf := new Codec.BytesIO(data);
        ghost var done: seq<bytes> := [];
        assert ServerFrames(token, connectiontoken, []) == [] by { NoFrames(token, connectiontoken); }
        while true
          invariant buf.Valid() && fresh(buf)
          invariant Split(data) == done + Split(buf.Rest())
          invariant ws.sent == old(ws.sent) + ServerFrames(token, connectiontoken, done)
          decreases |buf.Rest()|
        {
          SplitStep(buf.Rest());
          var chunk := buf.Read(CHUNK);
          if chunk == [] {
            break;
          }
          SendPayload(chunk);
          ServerFramesAppend(token, connectiontoken, done, [chunk]);
          done := done + [chunk];
        }
        assert done + [] == done;
      }
    }

    /** close() writes the empty payload and closes the reader, which shares the event. */
    method Close()
      requires |token| == 16 && |connectiontoken| == 16
      modifies ws, closedEvent
      ensures ws.sent == old(ws.sent) + ServerFrames(token, connectiontoken, [[]])
      ensures closedEvent.isSet
    {
      Write([]);
      closedEvent.isSet := true;
    }
  }

  lemma NoFrames(token: bytes, ctoken: bytes)
    ensures ServerFrames(token, ctoken, []) == [] && TunnelFrames(token, []) == []
  {}

  lemma {:induction false} ServerFramesAppend(token: bytes, ctoken: bytes, ps: seq<bytes>, qs: seq<bytes>)
    ensures ServerFrames(token, ctoken, ps + qs) == ServerFrames(token, ctoken, ps) + ServerFrames(token, ctoken, qs)
  {
    hide FrameOf;
    if ps == [] {
      assert ps + qs == qs;
    } else {
      assert (ps + qs)[1..] == ps[1..] + qs;
      ServerFramesAppend(token, ctoken, ps[1..], qs);
    }
  }

  lemma {:induction false} TunnelFramesAppend(token: bytes, ps: seq<bytes>, qs: seq<bytes>)
    ensures TunnelFrames(token, ps + qs) == TunnelFrames(token, ps) + TunnelFrames(token, qs)
  {
    hide FrameOf;
    if ps == [] {
      assert ps + qs == qs;
    } else {
      assert (ps + qs)[1..] == ps[1..] + qs;
      TunnelFramesAppend(token, ps[1..], qs);
    }
  }

  /** sendSocketData on the client side of a tunnel: nothing for no data, else the chunks. */
  method SendSocketData(ws: WebSocket, token: bytes, data: Option<bytes>)
    requires |token| == 16
    modifies ws
    ensures data.None? || data == Some([]) ==> ws.sent == old(ws.sent)
    ensures data.Some? && data.value != [] ==>
              ws.sent == old(ws.sent) + TunnelFrames(token, Chunks(data.value))
  {
    hide FrameOf, TunnelFrames, Split, Head, Tail, Codec.BytesIO.Rest;
    if data.None? || data == Some([]) {
      return;
    }
    if |data.value| < LIMIT {
      SendTunnelPayload(ws, token, data.value);
    } else {
      var buf := new Codec.BytesIO(data.value);
      ghost var done: seq<bytes> := [];
      assert TunnelFrames(token, []) == [] by { NoFrames(token, token); }
      while true
        invariant buf.Valid() && fresh(buf)
        invariant Split(data.value) == done + Split(buf.Rest())
        invariant ws.sent == old(ws.sent) + TunnelFrames(token, done)
        decreases |buf.Rest()|
      {
        SplitStep(buf.Rest());
        var chunk := buf.Read(CHUNK);
        if chunk == [] {
          break;
        }
        SendTunnelPayload(ws, token, chunk);
        TunnelFramesAppend(token, done, [chunk]);
        done := done + [chunk];
      }
      assert done + [] == done;
    }
  }

  method SendTunnelPayload(ws: WebSocket, token: bytes, data: bytes)
    requires |token| == 16 && |data| < LIMIT
    modifies ws
    ensures ws.sent == old(ws.sent) + TunnelFrames(token, [data])
  {
    hide EncodeFrame;
    SocketDataFrame(token, data);
    var frame := Codec.ToFrame(SocketData(token, data));
    ws.Send(frame.value);
    assert [data][1..] == [];
  }
}
