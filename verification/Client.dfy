/** The client ends of tunnels as objects, and the agent's task that writes tunnel data to a socket. */
module Client {
  import opened Bytes
  import opened Wire
  import opened Tunnel
  import Chunker
  import Codec

  /** The client end of one tunnel. */
  class WSNetworkTCP {
    var inQ: seq<Item>
    var established: bool
    var lastError: bool

    constructor ()
      ensures inQ == [] && !established && !lastError
    {
      inQ, established, lastError := [], false, false;
    }

    method OnDataReceived(cmd: Message)
      modifies this
      ensures cmd.OK? || cmd.Err? ==> inQ == old(inQ) + [Ended]
      ensures cmd.SocketData? || cmd.ServerSocketData? || cmd.FileData? ==> inQ == old(inQ) + [Data(cmd.data)]
      ensures inQ == old(inQ) + ItemsOf(cmd)
      ensures established <==> old(established) || cmd.OK? || cmd.Err? || cmd.Continue?
      ensures lastError <==> old(lastError) || cmd.OK? || cmd.Err?
    {
      match cmd {
        case OK(_, _) =>
          lastError := true;
          inQ := inQ + [Ended];
          established := true;
        case Err(_, _, _) =>
          lastError := true;
          inQ := inQ + [Ended];
          established := true;
        case Continue(_, _) =>
          established := true;
        case SocketData(_, data) => inQ := inQ + [Data(data)];
        case ServerSocketData(_, _, data, _, _) => inQ := inQ + [Data(data)];
        case FileData(_, data, _) => inQ := inQ + [Data(data)];
        case _ =>
      }
    }

    /** __handle_out: data is sent until the None that ends the queue; false while it only waits for more. */
    method HandleOut(ws: Chunker.WebSocket, token: bytes, outQ: seq<Option<bytes>>) returns (ended: bool)
      requires |token| == 16 && ws as object != this
      modifies ws
      ensures ws.sent == old(ws.sent) + OutFrames(token, outQ) && (ended <==> None in outQ)
    {
      hide Chunker.TunnelFrames, Chunker.Chunks, OutFrames;
      ended := false;
      var i := 0;
      assert outQ[0..] == outQ;
      while i < |outQ|
        invariant 0 <= i <= |outQ| && !ended && None !in outQ[..i]
        invariant ws.sent + OutFrames(token, outQ[i..]) == old(ws.sent) + OutFrames(token, outQ)
      {
        OutFramesHead(token, outQ[i..]);
        assert outQ[i..][1..] == outQ[i + 1..];
        if outQ[i].None? {
          assert None in outQ;
          return true;
        }
        Chunker.SendSocketData(ws, token, outQ[i]);
        i := i + 1;
        assert outQ[..i] == outQ[..i - 1] + [outQ[i - 1]];
      }
      OutFramesHead(token, outQ[i..]);
      assert outQ[..i] == outQ;
    }
  }

  lemma OutFramesHead(token: bytes, outQ: seq<Option<bytes>>)
    ensures OutFrames(token, outQ)
         == if outQ == [] || outQ[0].None? then []
            else DataFrames(token, outQ[0].value) + OutFrames(token, outQ[1..])
  {
    hide DataFrames;
  }

  /** The frames of a client's queue of writes up to its end. */
  function OutFrames(token: bytes, outQ: seq<Option<bytes>>): seq<bytes> {
    if outQ == [] || outQ[0].None? then []
    else DataFrames(token, outQ[0].value) + OutFrames(token, outQ[1..])
  }

  /** One pass of onData on the queues of the registered tunnels. */
  function OnDataQueues(qs: map<bytes, seq<Item>>, f: bytes): map<bytes, seq<Item>> {
    match DecodeBytes(f)
    case None => qs
    case Some(m) => if m.token in qs then qs[m.token := qs[m.token] + ItemsOf(m)] else qs
  }

  /** The class below and the system of module Tunnel receive alike. */
  lemma ReceiveAgrees(s: System)
    requires s.wire != []
    ensures Receives(s).queues == OnDataQueues(s.queues, s.wire[0])
  {
    hide DecodeBytes;
  }

  class WSNETWSInterface {
    const ws: Chunker.WebSocket
    var dispatchTable: map<bytes, WSNetworkTCP>

    ghost predicate Valid()
      reads this
    {
      forall a, b :: a in dispatchTable && b in dispatchTable && a != b ==> dispatchTable[a] != dispatchTable[b]
    }

    ghost function View(): map<bytes, seq<Item>>
      reads this, dispatchTable.Values
    {
      map t | t in dispatchTable :: dispatchTable[t].inQ
    }

    constructor (ws: Chunker.WebSocket)
      ensures Valid() && dispatchTable == map[] && this.ws == ws
    {
      this.ws, dispatchTable := ws, map[];
    }

    /** onData: a registered tunnel gets the message, any other token is answered with OK. */
    method OnData(data: Option<bytes>) returns (reply: Option<Message>)
      requires Valid()
      modifies dispatchTable.Values
      ensures data.None? ==> View() == old(View()) && reply.None?
      ensures data.Some? ==> View() == OnDataQueues(old(View()), data.value)
      ensures data.Some? && DecodeBytes(data.value).None? ==> reply.None?
      ensures data.Some? && DecodeBytes(data.value).Some? ==>
                reply == if DecodeBytes(data.value).value.token in dispatchTable then None
                         else Some(OK(DecodeBytes(data.value).value.token, Some([])))
    {
      hide DecodeBytes, ItemsOf;
      if data.None? {
        return None;
      }
      var cmd := Codec.FromBytes(data.value);
      if cmd.None? {
        return None;
      }
      var m := cmd.value;
      if m.token in dispatchTable {
        dispatchTable[m.token].OnDataReceived(m);
        assert forall t :: t in dispatchTable && t != m.token ==> dispatchTable[t].inQ == old(dispatchTable[t].inQ);
        return None;
      }
      reply := Some(OK(m.token, Some([])));
    }

    /** registerConnection: the table has the tunnel before the CONNECT goes out under the token drawn for it. */
    method RegisterConnection(token: bytes, cmd: Message, tunnel: WSNetworkTCP)
      requires Valid() && token !in dispatchTable && tunnel !in dispatchTable.Values && cmd.Connect?
      modifies this, ws
      ensures Valid() && dispatchTable == old(dispatchTable)[token := tunnel]
      ensures ws.sent == old(ws.sent) +
                         Chunker.Encoded(Connect(token, cmd.protocol, cmd.ip, cmd.port, cmd.bind, cmd.bindtype))
    {
      hide EncodeFrame;
      dispatchTable := dispatchTable[token := tunnel];
      var frame := Codec.ToFrame(Connect(token, cmd.protocol, cmd.ip, cmd.port, cmd.bind, cmd.bindtype));
      if frame.Some? {
        ws.Send(frame.value);
      }
    }

    method DeregisterConnection(token: bytes)
      requires Valid()
      modifies this
      ensures Valid() && dispatchTable == old(dispatchTable) - {token}
    {
      dispatchTable := dispatchTable - {token};
    }

    /** terminate: every tunnel is told OK once, as if its connection had closed. */
    method Terminate()
      requires Valid()
      modifies dispatchTable.Values
      ensures View() == map t | t in dispatchTable :: old(View())[t] + [Ended]
    {
      var todo := dispatchTable.Keys;
      while todo != {}
        invariant todo <= dispatchTable.Keys
        invariant forall t :: t in dispatchTable ==>
                    dispatchTable[t].inQ == old(dispatchTable[t].inQ) + if t in todo then [] else [Ended]
        decreases |todo|
      {
        var t :| t in todo;
        todo := todo - {t};
        dispatchTable[t].OnDataReceived(OK(t, Some([])));
      }
    }
  }

  // ---- the other direction ----

  /** What __socket_data_in_handle writes for the messages of its queue: data up to the first OK. */
  function SocketBytes(ms: seq<Message>): bytes {
    if ms == [] || ms[0].OK? then []
    else (if ms[0].SocketData? then ms[0].data else []) + SocketBytes(ms[1..])
  }

  /** __socket_data_in_handle over the messages that are there; false while it waits for more. */
  method SocketDataIn(inQ: seq<Message>) returns (socket: bytes, ended: bool)
    ensures socket == SocketBytes(inQ)
    ensures ended <==> exists i :: 0 <= i < |inQ| && inQ[i].OK?
  {
    hide SocketBytes;
    socket := [];
    var i := 0;
    assert inQ[0..] == inQ;
    while i < |inQ|
      invariant 0 <= i <= |inQ| && socket + SocketBytes(inQ[i..]) == SocketBytes(inQ)
      invariant forall j :: 0 <= j < i ==> !inQ[j].OK?
    {
      SocketBytesHead(inQ[i..]);
      assert inQ[i..][1..] == inQ[i + 1..];
      if inQ[i].OK? {
        assert socket + [] == socket;
        return socket, true;
      } else if inQ[i].SocketData? {
        socket := socket + inQ[i].data;
      }
      i := i + 1;
    }
    SocketBytesHead([]);
    assert inQ[i..] == [] && socket + [] == socket;
    ended := false;
  }

  lemma SocketBytesHead(ms: seq<Message>)
    ensures SocketBytes(ms)
         == if ms == [] || ms[0].OK? then []
            else if ms[0].SocketData? then ms[0].data + SocketBytes(ms[1..])
            else SocketBytes(ms[1..])
  {}

  function Written(outQ: seq<Option<bytes>>): bytes {
    if outQ == [] || outQ[0].None? then [] else outQ[0].value + Written(outQ[1..])
  }

  function DataFrames(token: bytes, data: bytes): seq<bytes> {
    if data == [] then [] else Chunker.TunnelFrames(token, Chunker.Chunks(data))
  }

  // ---- the connection under TLS and plain asyncio ----

  /** What connection_handler_out sends: data up to the first empty write or None, and then OK. */
  function HandlerFrames(token: bytes, outQ: seq<Option<bytes>>): seq<bytes> {
    if outQ == [] then []
    else if outQ[0].None? || outQ[0].value == [] then [Chunker.FrameOf(OK(token, Some([])))]
    else DataFrames(token, outQ[0].value) + HandlerFrames(token, outQ[1..])
  }

  predicate Ends(outQ: seq<Option<bytes>>) {
    None in outQ || Some([]) in outQ
  }

  method ConnectionHandlerOut(ws: Chunker.WebSocket, token: bytes, outQ: seq<Option<bytes>>) returns (ended: bool)
    requires |token| == 16
    modifies ws
    ensures ws.sent == old(ws.sent) + HandlerFrames(token, outQ) && (ended <==> Ends(outQ))
  {
    hide Chunker.TunnelFrames, Chunker.Chunks, Chunker.FrameOf, EncodeFrame;
    ended := false;
    var i := 0;
    assert outQ[0..] == outQ;
    while i < |outQ|
      invariant 0 <= i <= |outQ| && !ended && !Ends(outQ[..i])
      invariant ws.sent + HandlerFrames(token, outQ[i..]) == old(ws.sent) + HandlerFrames(token, outQ)
    {
      assert outQ[i..][1..] == outQ[i + 1..];
      if outQ[i].None? || outQ[i].value == [] {
        assert outQ[i] in outQ;
        var ok := OK(token, Some([]));
        NoTextEncodes(ok);
        FrameOfEncoded(ok);
        var frame := Codec.ToFrame(ok);
        ws.Send(frame.value);
        return true;
      }
      Chunker.SendSocketData(ws, token, outQ[i]);
      i := i + 1;
      assert outQ[..i] == outQ[..i - 1] + [outQ[i - 1]];
    }
    assert outQ[..i] == outQ;
  }

  lemma FrameOfEncoded(m: Message)
    requires EncodeFrame(m).Some?
    ensures Chunker.FrameOf(m) == EncodeFrame(m).value
  {
    hide EncodeFrame;
  }

  function WrittenUntilEmpty(outQ: seq<Option<bytes>>): bytes {
    if outQ == [] || outQ[0].None? || outQ[0].value == [] then []
    else outQ[0].value + WrittenUntilEmpty(outQ[1..])
  }

  // ---- the tasks item by item ----

  /** What the task sends for an item; a connection under a handler also ends on empty data, and with OK. */
  function ItemFrames(handler: bool, token: bytes, item: Option<bytes>): seq<bytes> {
    if !IsLast(handler, item) then DataFrames(token, item.value)
    else if handler then [Chunker.FrameOf(OK(token, Some([])))]
    else []
  }

  predicate IsLast(handler: bool, item: Option<bytes>) {
    item.None? || (handler && item.value == [])
  }

  /** The frames of one queue, as both kinds of task send them. */
  function QueueFrames(handler: bool, token: bytes, outQ: seq<Option<bytes>>): seq<bytes> {
    if handler then HandlerFrames(token, outQ) else OutFrames(token, outQ)
  }

  lemma QueueFramesHead(handler: bool, token: bytes, outQ: seq<Option<bytes>>)
    requires outQ != []
    ensures QueueFrames(handler, token, outQ)
         == ItemFrames(handler, token, outQ[0])
            + if IsLast(handler, outQ[0]) then [] else QueueFrames(handler, token, outQ[1..])
  {
    hide DataFrames, Chunker.FrameOf;
  }
}
