/**
 The other direction of the tunnels: the client's sending tasks take turns on one websocket, beside any other
 traffic, and the agent queues what it decodes by token for the tasks that write to the sockets, while these
 run. The CONNECT tasks and their replies are those of module Tunnel.
 */
module TunnelWrite {
  import opened Bytes
  import opened Client
  import opened Wire
  import Chunker
  import Frames
  import Tunnel

  // ---- the system ----

  /**
   `tunnels` is the direction of module Tunnel. `wire` carries the client's frames; `inQs` has the queue of
   every writing task, `sockets` what was written to the sockets, `connected` the tokens whose queue was ever made.
   On the client `established` are the tunnels that have seen CONTINUE, `handlers` those under a connection
   handler, `ended` those whose sending task is over; `items` records what the sending tasks took. `foreign`
   are the tokens under which others have sent data, `disturbed` those whose writing task was ended other than
   by the OK of their own sending task.
   */
  datatype System = System(tunnels: Tunnel.System, wire: seq<bytes>, inQs: map<bytes, seq<Message>>,
                           sockets: map<bytes, bytes>, connected: set<bytes>, established: set<bytes>,
                           handlers: set<bytes>, ended: set<bytes>, items: map<bytes, seq<Option<bytes>>>,
                           foreign: set<bytes>, disturbed: set<bytes>)

  function Initial(handlers: set<bytes>): System {
    System(Tunnel.Initial(), [], map[], map[], {}, {}, handlers, {}, map[], {}, {})
  }

  datatype Step =
    | InTunnels(step: Tunnel.Step)
    | Put(token: bytes, item: Option<bytes>)
    | OtherFrame(m: Message)
    | AgentReceives
    | WriterTakes(token: bytes)

  function At<T>(m: map<bytes, seq<T>>, t: bytes): seq<T> {
    if t in m then m[t] else []
  }

  /** The connection is there: CONTINUE goes out, and before it the queue of the writing task is made. */
  predicate Opens(s: System, step: Tunnel.Step) {
    step.Opened? && step.token in s.tunnels.tasks && s.tunnels.tasks[step.token].task.Connecting?
  }

  /** The message the client receives next establishes a tunnel. */
  function Establishes(s: System, step: Tunnel.Step): set<bytes> {
    if step.Receive? && s.tunnels.wire != [] then
      match DecodeBytes(s.tunnels.wire[0])
      case Some(Continue(t, _)) => if t in s.tunnels.queues then {t} else {}
      case _ => {}
    else {}
  }

  /** A step of the tunnels; tokens are drawn fresh, and a writing task that fails or is cancelled is over. */
  function TunnelStep(s: System, step: Tunnel.Step): System {
    if step.Register? && step.token in s.foreign then s
    else
      var t := s.(tunnels := Tunnel.Exec(s.tunnels, step), established := s.established + Establishes(s, step));
      if Opens(s, step) then
        t.(inQs := s.inQs[step.token := []], sockets := s.sockets[step.token := []],
           connected := s.connected + {step.token})
      else if (step.WriterEnds? || step.WriterFails?) && step.token in s.inQs then
        t.(inQs := s.inQs - {step.token}, disturbed := s.disturbed + {step.token})
      else t
  }

  /** A sending task, begun when its tunnel was established, takes an item from its queue. */
  function Puts(s: System, t: bytes, item: Option<bytes>): System {
    if t !in s.established || t in s.ended then s
    else
      s.(wire := s.wire + ItemFrames(t in s.handlers, t, item), items := s.items[t := At(s.items, t) + [item]],
         ended := if IsLast(t in s.handlers, item) then s.ended + {t} else s.ended)
  }

  /** Anything else the client sends; data under the token of a tunnel comes from its sending task alone. */
  function SendsOther(s: System, m: Message): System {
    if |m.token| != 16 || EncodeFrame(m).None? || (m.SocketData? && m.token in s.tunnels.known) then s
    else
      s.(wire := s.wire + [EncodeFrame(m).value],
         foreign := if m.SocketData? then s.foreign + {m.token} else s.foreign,
         disturbed := if m.OK? then s.disturbed + {m.token} else s.disturbed)
  }

  /** process_incoming: a message for a writing task is queued; any other is not for the tunnels' sockets. */
  function Receives(s: System): System {
    if s.wire == [] then s
    else
      var t := s.(wire := s.wire[1..]);
      match DecodeBytes(s.wire[0])
      case None => t
      case Some(m) => if m.token in s.inQs then t.(inQs := s.inQs[m.token := s.inQs[m.token] + [m]]) else t
  }

  /** One pass of __socket_data_in_handle: data is written, OK ends the task. */
  function Takes(s: System, t: bytes): System {
    if t !in s.inQs || s.inQs[t] == [] || t !in s.sockets then s
    else
      var m := s.inQs[t][0];
      if m.OK? then s.(tunnels := Tunnel.Exec(s.tunnels, Tunnel.WriterEnds(t)), inQs := s.inQs - {t})
      else
        s.(inQs := s.inQs[t := s.inQs[t][1..]],
           sockets := if m.SocketData? then s.sockets[t := s.sockets[t] + m.data] else s.sockets)
  }

  function Exec(s: System, step: Step): System {
    match step
    case InTunnels(e) => TunnelStep(s, e)
    case Put(t, item) => Puts(s, t, item)
    case OtherFrame(m) => SendsOther(s, m)
    case AgentReceives => Receives(s)
    case WriterTakes(t) => Takes(s, t)
  }

  function Run(s: System, steps: seq<Step>): System
    decreases |steps|
  {
    if steps == [] then s else Run(Exec(s, steps[0]), steps[1..])
  }

  // ---- messages for a token ----

  function InboundOne(t: bytes, f: bytes): seq<Message> {
    match DecodeBytes(f)
    case None => []
    case Some(m) => if m.token == t then [m] else []
  }

  /** What the agent makes of a list of frames for one token. */
  function Inbound(t: bytes, wire: seq<bytes>): seq<Message> {
    if wire == [] then [] else InboundOne(t, wire[0]) + Inbound(t, wire[1..])
  }

  lemma InboundHead(t: bytes, wire: seq<bytes>)
    ensures Inbound(t, wire) == if wire == [] then [] else InboundOne(t, wire[0]) + Inbound(t, wire[1..])
  {
    hide InboundOne;
  }

  lemma {:induction false} InboundAppend(t: bytes, wire: seq<bytes>, fs: seq<bytes>)
    ensures Inbound(t, wire + fs) == Inbound(t, wire) + Inbound(t, fs)
  {
    hide Inbound, InboundOne;
    InboundHead(t, wire);
    if wire == [] {
      assert wire + fs == fs;
    } else {
      InboundHead(t, wire + fs);
      InboundAppend(t, wire[1..], fs);
      assert (wire + fs)[0] == wire[0] && (wire + fs)[1..] == wire[1..] + fs;
      var one, rest, more := InboundOne(t, wire[0]), Inbound(t, wire[1..]), Inbound(t, fs);
      assert one + (rest + more) == one + rest + more;
    }
  }

  /** All data of a list of messages. */
  function AllData(ms: seq<Message>): bytes {
    if ms == [] then [] else (if ms[0].SocketData? then ms[0].data else []) + AllData(ms[1..])
  }

  lemma AllDataHead(ms: seq<Message>)
    ensures AllData(ms)
         == if ms == [] then [] else (if ms[0].SocketData? then ms[0].data else []) + AllData(ms[1..])
  {}

  lemma {:induction false} AllDataAppend(ms: seq<Message>, ns: seq<Message>)
    ensures AllData(ms + ns) == AllData(ms) + AllData(ns)
  {
    hide AllData;
    AllDataHead(ms);
    if ms == [] {
      assert ms + ns == ns;
    } else {
      AllDataHead(ms + ns);
      AllDataAppend(ms[1..], ns);
      assert (ms + ns)[0] == ms[0] && (ms + ns)[1..] == ms[1..] + ns;
      var one := if ms[0].SocketData? then ms[0].data else [];
      assert one + (AllData(ms[1..]) + AllData(ns)) == one + AllData(ms[1..]) + AllData(ns);
    }
  }

  /** An OK is among the messages. */
  predicate Closes(ms: seq<Message>) {
    exists i :: 0 <= i < |ms| && ms[i].OK?
  }

  /** No data comes behind an OK. */
  predicate OkIsLast(ms: seq<Message>) {
    forall i, j :: 0 <= i < j < |ms| && ms[i].OK? ==> !ms[j].SocketData?
  }

  lemma DataDoesNotClose(ms: seq<Message>)
    requires forall m :: m in ms ==> m.SocketData?
    ensures !Closes(ms)
  {
    forall i | 0 <= i < |ms| ensures !ms[i].OK? {
      assert ms[i] in ms;
    }
  }

  lemma ClosesOne(m: Message)
    ensures Closes([m]) <==> m.OK?
  {
    assert [m][0] == m;
  }

  lemma ClosesAppend(ms: seq<Message>, ns: seq<Message>)
    ensures Closes(ms + ns) <==> Closes(ms) || Closes(ns)
  {
    var all := ms + ns;
    if i: int :| 0 <= i < |ms| && ms[i].OK? {
      assert all[i].OK?;
    }
    if i: int :| 0 <= i < |ns| && ns[i].OK? {
      assert all[|ms| + i].OK?;
    }
    if i: int :| 0 <= i < |all| && all[i].OK? {
      if i < |ms| {
        assert ms[i].OK?;
      } else {
        assert ns[i - |ms|].OK?;
      }
    }
  }

  /** Messages without data may follow an OK, and data may follow where there is none. */
  lemma OkStaysLast(ms: seq<Message>, ns: seq<Message>)
    requires OkIsLast(ms) && OkIsLast(ns)
    requires (forall m :: m in ns ==> !m.SocketData?) || !Closes(ms)
    ensures OkIsLast(ms + ns)
  {
    var all := ms + ns;
    forall i, j | 0 <= i < j < |all| && all[i].OK? ensures !all[j].SocketData? {
      if j < |ms| {
        assert ms[i].OK?;
      } else if i < |ms| {
        assert ms[i].OK? && all[j] == ns[j - |ms|] && ns[j - |ms|] in ns;
      } else {
        assert ns[i - |ms|].OK? && all[j] == ns[j - |ms|];
      }
    }
  }

  lemma OkBehindHead(ms: seq<Message>)
    requires ms != [] && OkIsLast(ms)
    ensures OkIsLast(ms[1..])
    ensures Closes(ms) <==> ms[0].OK? || Closes(ms[1..])
    ensures ms[0].OK? ==> AllData(ms[1..]) == []
  {
    assert ms == [ms[0]] + ms[1..];
    ClosesAppend([ms[0]], ms[1..]);
    ClosesOne(ms[0]);
    forall i, j | 0 <= i < j < |ms[1..]| && ms[1..][i].OK? ensures !ms[1..][j].SocketData? {
      assert ms[i + 1].OK? && ms[1..][j] == ms[j + 1];
    }
    if ms[0].OK? {
      forall m | m in ms[1..] ensures !m.SocketData? {
        var j :| 0 <= j < |ms[1..]| && ms[1..][j] == m;
        assert ms[j + 1] == m;
      }
      NoData(ms[1..]);
    }
  }

  lemma NoData(ms: seq<Message>)
    requires forall m :: m in ms ==> !m.SocketData?
    ensures AllData(ms) == []
  {
    if ms != [] {
      assert ms[0] in ms;
      NoData(ms[1..]);
    }
  }

  // ---- what a sending task puts on the wire ----

  function DataMessages(t: bytes, ps: seq<bytes>): seq<Message> {
    if ps == [] then [] else [SocketData(t, ps[0])] + DataMessages(t, ps[1..])
  }

  lemma {:induction false} DataMessagesCarry(t: bytes, ps: seq<bytes>)
    ensures AllData(DataMessages(t, ps)) == Concat(ps)
    ensures forall m :: m in DataMessages(t, ps) ==> m.SocketData?
  {
    if ps != [] {
      DataMessagesCarry(t, ps[1..]);
      AllDataHead(DataMessages(t, ps));
      assert DataMessages(t, ps)[1..] == DataMessages(t, ps[1..]);
    }
  }

  lemma DataFrameInbound(t: bytes, token: bytes, data: bytes)
    requires |token| == 16 && |data| < Chunker.LIMIT
    ensures InboundOne(t, Chunker.FrameOf(SocketData(token, data)))
         == if token == t then [SocketData(token, data)] else []
  {
    hide EncodeFrame, DecodeBytes;
    var m := SocketData(token, data);
    Chunker.SocketDataFrame(token, data);
    FrameOfEncoded(m);
    assert Frames.WellFormed(m);
    Frames.BytesRoundTrip(m);
  }

  lemma {:induction false} ChunksInbound(t: bytes, token: bytes, ps: seq<bytes>)
    requires |token| == 16 && forall p :: p in ps ==> |p| < Chunker.LIMIT
    ensures Inbound(t, Chunker.TunnelFrames(token, ps)) == if token == t then DataMessages(t, ps) else []
  {
    hide InboundOne, Chunker.FrameOf;
    if ps != [] {
      assert ps[0] in ps;
      forall p | p in ps[1..] ensures |p| < Chunker.LIMIT {
        assert p in ps;
      }
      DataFrameInbound(t, token, ps[0]);
      ChunksInbound(t, token, ps[1..]);
    }
  }

  lemma OkInbound(t: bytes, token: bytes)
    requires |token| == 16
    ensures Inbound(t, [Chunker.FrameOf(OK(token, Some([])))]) == if token == t then [OK(t, Some([]))] else []
  {
    hide EncodeFrame, DecodeBytes;
    var m := OK(token, Some([]));
    Tunnel.NoTextEncodes(m);
    FrameOfEncoded(m);
    Frames.BytesRoundTrip(m);
    InboundHead(t, [Chunker.FrameOf(m)]);
    InboundHead(t, []);
  }

  /** The data of an item. */
  function ItemData(item: Option<bytes>): bytes {
    if item.None? then [] else item.value
  }

  /** Chunked, framed and decoded, an item is its data for its own token, and OK when it ends a connection. */
  lemma ItemInbound(t: bytes, handler: bool, token: bytes, item: Option<bytes>)
    requires |token| == 16
    ensures var ms := Inbound(t, ItemFrames(handler, token, item));
            if token != t then ms == []
            else AllData(ms) == ItemData(item) && OkIsLast(ms) && (Closes(ms) <==> handler && IsLast(handler, item))
  {
    hide Chunker.TunnelFrames, Chunker.Chunks, Chunker.FrameOf, InboundOne, AllData, Closes;
    InboundHead(t, []);
    AllDataHead([]);
    DataDoesNotClose([]);
    if !IsLast(handler, item) {
      if item.value != [] {
        var ps := Chunker.Chunks(item.value);
        Chunker.ChunkArithmetic(item.value);
        ChunksInbound(t, token, ps);
        DataMessagesCarry(t, ps);
        DataDoesNotClose(DataMessages(t, ps));
        OkWithoutClose(DataMessages(t, ps));
      }
    } else if handler {
      OkInbound(t, token);
      ClosesOne(OK(t, Some([])));
      AllDataHead([OK(t, Some([]))]);
      assert [OK(t, Some([]))][1..] == [];
    }
  }

  /** A frame others send keeps its type and token for the agent. */
  lemma OtherInbound(t: bytes, m: Message)
    requires |m.token| == 16 && EncodeFrame(m).Some?
    ensures var ms := Inbound(t, [EncodeFrame(m).value]);
            && (m.token != t ==> ms == [])
            && (!m.SocketData? ==> AllData(ms) == [] && forall n :: n in ms ==> !n.SocketData?)
            && (!m.OK? ==> !Closes(ms))
  {
    hide EncodeFrame, DecodeBytes;
    Frames.TypeStays(m);
    InboundHead(t, [EncodeFrame(m).value]);
    InboundHead(t, []);
    if !m.SocketData? {
      NoData(Inbound(t, [EncodeFrame(m).value]));
    }
  }

  // ---- what the sending tasks took ----

  /** The data of the items up to the last one a task takes. */
  function WrittenOf(handler: bool, items: seq<Option<bytes>>): bytes {
    if handler then WrittenUntilEmpty(items) else Written(items)
  }

  lemma {:induction false} WrittenSnoc(handler: bool, items: seq<Option<bytes>>, item: Option<bytes>)
    requires forall i :: i in items ==> !IsLast(handler, i)
    ensures WrittenOf(handler, items + [item]) == WrittenOf(handler, items) + ItemData(item)
  {
    var all := items + [item];
    if items == [] {
      assert all[1..] == [];
    } else {
      assert items[0] in items && all[1..] == items[1..] + [item];
      WrittenSnoc(handler, items[1..], item);
    }
  }

  /** What the sending task of a token has taken. */
  function Sent(s: System, t: bytes): bytes {
    WrittenOf(t in s.handlers, At(s.items, t))
  }

  // ---- invariants ----

  function ContinueToken(f: bytes): set<bytes> {
    match DecodeBytes(f)
    case Some(Continue(t, _)) => {t}
    case _ => {}
  }

  /** A tunnel is established on the client only after its queue was made at the agent. */
  predicate Linked(s: System) {
    && Tunnel.AllKnown(s.tunnels)
    && s.established <= s.connected <= s.tunnels.tasks.Keys
    && s.inQs.Keys <= s.connected && s.sockets.Keys == s.connected
    && (forall t :: t in s.connected ==> !s.tunnels.tasks[t].task.Connecting?)
    && (forall t :: t in s.foreign ==> t !in s.tunnels.known)
    && (forall f :: f in s.tunnels.wire ==> ContinueToken(f) <= s.connected)
  }

  /** Nothing was sent for a tunnel that is not connected. */
  predicate Fresh(s: System, t: bytes) {
    && (t !in s.ended ==> forall i :: i in At(s.items, t) ==> !IsLast(t in s.handlers, i))
    && (t !in s.connected ==>
          && At(s.items, t) == [] && t !in s.ended
          && (t !in s.foreign ==> AllData(Inbound(t, s.wire)) == [])
          && (t !in s.disturbed ==> !Closes(Inbound(t, s.wire))))
  }

  /** While a writing task runs: written, queued and in flight are what was sent; afterwards a prefix is written. */
  predicate Kept(s: System, t: bytes) {
    t in s.connected && t in s.sockets ==>
      && s.sockets[t] <= Sent(s, t)
      && (t in s.inQs ==> s.sockets[t] + AllData(s.inQs[t] + Inbound(t, s.wire)) == Sent(s, t))
  }

  /** The sending task of a connection under a handler has sent its OK. */
  predicate Over(s: System, t: bytes) {
    t in s.handlers && t in s.ended
  }

  /** An undisturbed writing task is ended by that OK and by nothing else, and then everything is written. */
  predicate Calm(s: System, t: bytes) {
    t in s.connected && t in s.sockets && t !in s.disturbed ==>
      if t in s.inQs then
        var ms := s.inQs[t] + Inbound(t, s.wire);
        OkIsLast(ms) && (Closes(ms) <==> Over(s, t))
      else Over(s, t) && s.sockets[t] == Sent(s, t)
  }

  predicate Good(s: System, t: bytes) {
    Linked(s) && Fresh(s, t) && Kept(s, t) && Calm(s, t)
  }

  // ---- what the steps keep: the links between the parts ----

  /** What a step of the tunnels does to the wire: a frame goes, or one comes that is CONTINUE only when it opens. */
  predicate WireGrows(s: System, step: Tunnel.Step, f: bytes) {
    Tunnel.Exec(s.tunnels, step).wire == s.tunnels.wire + [f] &&
    (ContinueToken(f) == {} || (Opens(s, step) && ContinueToken(f) == {step.token}))
  }

  lemma ReplyContinues(m: Message)
    requires |m.token| == 16 && EncodeFrame(m).Some?
    ensures ContinueToken(EncodeFrame(m).value) == {} ||
            (m.Continue? && ContinueToken(EncodeFrame(m).value) == {m.token})
  {
    hide EncodeFrame, DecodeBytes;
    Frames.TypeStays(m);
  }

  lemma RepliesGrow(s: System, step: Tunnel.Step, c: Tunnel.Connection, m: Message)
    requires |m.token| == 16 && Tunnel.Exec(s.tunnels, step) == Tunnel.Replies(s.tunnels, m.token, c, m)
    requires m.Continue? ==> Opens(s, step) && step.token == m.token
    ensures var t := Tunnel.Exec(s.tunnels, step);
            t.wire == s.tunnels.wire || exists f :: WireGrows(s, step, f)
  {
    hide EncodeFrame, ContinueToken, Tunnel.Exec;
    if EncodeFrame(m).Some? {
      ReplyContinues(m);
      assert WireGrows(s, step, EncodeFrame(m).value);
    }
  }

  lemma TunnelWire(s: System, step: Tunnel.Step)
    requires Tunnel.AllKnown(s.tunnels)
    ensures var t := Tunnel.Exec(s.tunnels, step);
            || t.wire == s.tunnels.wire
            || (s.tunnels.wire != [] && t.wire == s.tunnels.wire[1..])
            || exists f :: WireGrows(s, step, f)
  {
    hide Tunnel.Replies, WireGrows, DecodeBytes, Tunnel.Reaction;
    if Tunnel.ByTask(step) && step.token in s.tunnels.tasks {
      var (d, reply) := Tunnel.Reaction(s.tunnels.tasks[step.token], step);
      if reply.Some? {
        ReactionOpens(s, step);
        RepliesGrow(s, step, d, reply.value);
      }
    }
  }

  /** CONTINUE is the reply of the step that opens a tunnel, and of no other. */
  lemma ReactionOpens(s: System, step: Tunnel.Step)
    requires Tunnel.ByTask(step) && step.token in s.tunnels.tasks
    ensures var reply := Tunnel.Reaction(s.tunnels.tasks[step.token], step).1;
            reply.Some? ==> reply.value.token == step.token && (reply.value.Continue? <==> Opens(s, step))
  {}

  /** No step makes a task connecting again, and the one that opens it ends that. */
  lemma ReactionConnects(c: Tunnel.Connection, step: Tunnel.Step)
    requires Tunnel.ByTask(step)
    ensures var d := Tunnel.Reaction(c, step).0;
            && (!c.task.Connecting? ==> !d.task.Connecting?) && (step.Opened? ==> !d.task.Connecting?)
  {}

  /** Tasks stay, and what is connected does not go back to connecting. */
  lemma TasksStay(s: Tunnel.System, step: Tunnel.Step, t: bytes)
    requires t in s.tasks
    ensures var u := Tunnel.Exec(s, step);
            && t in u.tasks
            && (!s.tasks[t].task.Connecting? ==> !u.tasks[t].task.Connecting?)
            && (step == Tunnel.Opened(t) ==> !u.tasks[t].task.Connecting?)
  {
    hide EncodeFrame, DecodeBytes, Tunnel.Reaction;
    if Tunnel.ByTask(step) && step.token in s.tasks {
      ReactionConnects(s.tasks[step.token], step);
    }
  }

  lemma KnownStays(s: Tunnel.System, step: Tunnel.Step)
    ensures Tunnel.Exec(s, step).known == s.known
         || (step.Register? && Tunnel.Exec(s, step).known == s.known + {step.token})
  {
    hide EncodeFrame, DecodeBytes;
  }

  lemma EstablishedIsConnected(s: System, step: Tunnel.Step)
    requires Linked(s)
    ensures Establishes(s, step) <= s.connected
  {
    hide DecodeBytes, Tunnel.AllKnown;
    if step.Receive? && s.tunnels.wire != [] {
      assert ContinueToken(s.tunnels.wire[0]) <= s.connected;
    }
  }

  lemma WireStaysLinked(s: System, step: Tunnel.Step)
    requires Linked(s)
    requires !(step.Register? && step.token in s.foreign)
    ensures var t := TunnelStep(s, step); forall f :: f in t.tunnels.wire ==> ContinueToken(f) <= t.connected
  {
    hide Tunnel.Exec, ContinueToken, Establishes;
    var u := Tunnel.Exec(s.tunnels, step);
    TunnelWire(s, step);
    forall f | f in u.wire ensures ContinueToken(f) <= TunnelStep(s, step).connected {
      if u.wire == s.tunnels.wire || (s.tunnels.wire != [] && u.wire == s.tunnels.wire[1..]) {
        assert f in s.tunnels.wire;
      } else {
        var g :| WireGrows(s, step, g);
        if f !in s.tunnels.wire {
          assert f == g;
        }
      }
    }
  }

  lemma TunnelKeepsLinks(s: System, step: Tunnel.Step)
    requires Linked(s)
    ensures Linked(TunnelStep(s, step))
  {
    hide Tunnel.Exec, Tunnel.AllKnown, ContinueToken, Establishes;
    if !(step.Register? && step.token in s.foreign) {
      var t := TunnelStep(s, step);
      Tunnel.StepKeepsKnown(s.tunnels, step);
      KnownStays(s.tunnels, step);
      EstablishedIsConnected(s, step);
      WireStaysLinked(s, step);
      forall a | a in t.connected
        ensures a in t.tunnels.tasks && !t.tunnels.tasks[a].task.Connecting?
      {
        TasksStay(s.tunnels, step, a);
      }
    }
  }

  lemma TakeKeepsLinks(s: System, t: bytes)
    requires Linked(s)
    ensures Linked(Takes(s, t))
  {
    hide Tunnel.Exec, Tunnel.AllKnown, ContinueToken;
    if t in s.inQs && s.inQs[t] != [] && t in s.sockets && s.inQs[t][0].OK? {
      var step := Tunnel.WriterEnds(t);
      Tunnel.StepKeepsKnown(s.tunnels, step);
      KnownStays(s.tunnels, step);
      SameWire(s.tunnels, t);
      forall a | a in s.connected
        ensures a in Takes(s, t).tunnels.tasks && !Takes(s, t).tunnels.tasks[a].task.Connecting?
      {
        TasksStay(s.tunnels, step, a);
      }
    }
  }

  lemma SameWire(s: Tunnel.System, t: bytes)
    ensures Tunnel.Exec(s, Tunnel.WriterEnds(t)).wire == s.wire
  {}

  lemma OtherKeepsLinks(s: System, step: Step)
    requires Linked(s) && !step.InTunnels? && !step.WriterTakes?
    ensures Linked(Exec(s, step))
  {
    hide Tunnel.AllKnown, ContinueToken, EncodeFrame, DecodeBytes, ItemFrames;
  }

  // ---- what the steps keep: one token ----

  lemma TunnelKeepsToken(s: System, step: Tunnel.Step, t: bytes)
    requires Good(s, t)
    ensures var u := TunnelStep(s, step); Fresh(u, t) && Kept(u, t) && Calm(u, t)
  {
    hide Tunnel.Exec, Tunnel.AllKnown, ContinueToken, Establishes;
    hide Inbound, AllData, WrittenOf, IsLast, OkIsLast, Closes;
    if Opens(s, step) && step.token == t {
      var ms := Inbound(t, s.wire);
      assert t !in s.connected && t in s.tunnels.known by { OpeningIsKnown(s, t); }
      assert [] + ms == ms;
      if t !in s.disturbed {
        OkWithoutClose(ms);
      }
      NothingWritten(t in s.handlers);
    }
  }

  lemma OpeningIsKnown(s: System, t: bytes)
    requires Linked(s) && t in s.tunnels.tasks && s.tunnels.tasks[t].task.Connecting?
    ensures t !in s.connected && t in s.tunnels.known
  {
    hide ContinueToken;
  }

  lemma OkWithoutClose(ms: seq<Message>)
    requires !Closes(ms)
    ensures OkIsLast(ms)
  {}

  lemma NothingWritten(handler: bool)
    ensures WrittenOf(handler, []) == []
  {}

  lemma Wide(s: System, u: bytes)
    requires Linked(s) && u in s.established
    ensures u in s.connected && |u| == 16
  {
    hide ContinueToken;
  }

  lemma PutKeepsToken(s: System, u: bytes, item: Option<bytes>, t: bytes)
    requires Good(s, t)
    ensures var v := Puts(s, u, item); Fresh(v, t) && Kept(v, t) && Calm(v, t)
  {
    hide Linked, Inbound, AllData, WrittenOf, IsLast, OkIsLast, Closes, ItemFrames;
    if u in s.established && u !in s.ended {
      var fs := ItemFrames(u in s.handlers, u, item);
      Wide(s, u);
      InboundAppend(t, s.wire, fs);
      ItemInbound(t, u in s.handlers, u, item);
      var ms := Inbound(t, fs);
      if u == t {
        WrittenSnoc(t in s.handlers, At(s.items, t), item);
        if t in s.inQs {
          InQueueIsKnown(s, t);
          var before := s.inQs[t] + Inbound(t, s.wire);
          assert s.inQs[t] + (Inbound(t, s.wire) + ms) == before + ms;
          AllDataAppend(before, ms);
          assert s.sockets[t] + (AllData(before) + AllData(ms)) == s.sockets[t] + AllData(before) + AllData(ms);
          ClosesAppend(before, ms);
          if t !in s.disturbed {
            OkStaysLast(before, ms);
          }
        }
      } else {
        assert Inbound(t, s.wire) + [] == Inbound(t, s.wire);
      }
    }
  }

  lemma OtherKeepsToken(s: System, m: Message, t: bytes)
    requires Good(s, t)
    ensures var v := SendsOther(s, m); Fresh(v, t) && Kept(v, t) && Calm(v, t)
  {
    hide EncodeFrame, Tunnel.AllKnown, ContinueToken, Inbound, AllData, WrittenOf, IsLast, OkIsLast, Closes;
    if SendsOther(s, m) != s {
      var f := EncodeFrame(m).value;
      var ms := Inbound(t, [f]);
      InboundAppend(t, s.wire, [f]);
      OtherInbound(t, m);
      if m.token != t {
        assert Inbound(t, s.wire) + [] == Inbound(t, s.wire);
      } else {
        AllDataAppend(Inbound(t, s.wire), ms);
        ClosesAppend(Inbound(t, s.wire), ms);
        if t in s.inQs {
          InQueueIsKnown(s, t);
          var before := s.inQs[t] + Inbound(t, s.wire);
          assert s.inQs[t] + (Inbound(t, s.wire) + ms) == before + ms;
          AllDataAppend(before, ms);
          ClosesAppend(before, ms);
          if t !in s.disturbed && !m.OK? {
            OkWithoutClose(ms);
            OkStaysLast(before, ms);
          }
        }
      }
    }
  }

  lemma InQueueIsKnown(s: System, t: bytes)
    requires Linked(s) && t in s.inQs
    ensures t in s.tunnels.known && t in s.connected && t in s.sockets
  {
    hide ContinueToken;
  }

  lemma ReceiveKeepsToken(s: System, t: bytes)
    requires Good(s, t)
    ensures var v := Receives(s); Fresh(v, t) && Kept(v, t) && Calm(v, t)
  {
    hide DecodeBytes, Linked, Inbound, AllData, WrittenOf, IsLast, OkIsLast, Closes;
    if s.wire != [] {
      var one, rest := InboundOne(t, s.wire[0]), Inbound(t, s.wire[1..]);
      InboundHead(t, s.wire);
      AllDataAppend(one, rest);
      ClosesAppend(one, rest);
      if t in s.inQs {
        assert s.inQs[t] + (one + rest) == s.inQs[t] + one + rest;
        assert s.inQs[t] + [] == s.inQs[t];
      }
    }
  }

  lemma TakeKeepsToken(s: System, u: bytes, t: bytes)
    requires Good(s, t)
    ensures var v := Takes(s, u); Fresh(v, t) && Kept(v, t) && Calm(v, t)
  {
    hide Tunnel.Exec, Linked, Inbound, AllData, WrittenOf, IsLast, OkIsLast, Closes;
    if u == t && t in s.inQs && s.inQs[t] != [] && t in s.sockets {
      InQueueIsKnown(s, t);
      var m, rest := s.inQs[t][0], s.inQs[t][1..];
      var ms := s.inQs[t] + Inbound(t, s.wire);
      assert ms[0] == m && ms[1..] == rest + Inbound(t, s.wire);
      AllDataHead(ms);
      if m.SocketData? {
        assert s.sockets[t] + (m.data + AllData(ms[1..])) == s.sockets[t] + m.data + AllData(ms[1..]);
      }
      if t !in s.disturbed {
        OkBehindHead(ms);
      }
    }
  }

  lemma StepKeeps(s: System, step: Step, t: bytes)
    requires Good(s, t)
    ensures Good(Exec(s, step), t)
  {
    hide Linked, Fresh, Kept, Calm, TunnelStep, Puts, SendsOther, Receives, Takes;
    match step
    case InTunnels(e) =>
      TunnelKeepsLinks(s, e);
      TunnelKeepsToken(s, e, t);
    case Put(u, item) =>
      OtherKeepsLinks(s, step);
      PutKeepsToken(s, u, item, t);
    case OtherFrame(m) =>
      OtherKeepsLinks(s, step);
      OtherKeepsToken(s, m, t);
    case AgentReceives =>
      OtherKeepsLinks(s, step);
      ReceiveKeepsToken(s, t);
    case WriterTakes(u) =>
      TakeKeepsLinks(s, u);
      TakeKeepsToken(s, u, t);
  }

  lemma {:induction false} RunKeeps(s: System, steps: seq<Step>, t: bytes)
    requires Good(s, t)
    ensures Good(Run(s, steps), t)
    decreases |steps|
  {
    hide Good, Exec;
    if steps == [] {
    } else {
      StepKeeps(s, steps[0], t);
      RunKeeps(Exec(s, steps[0]), steps[1..], t);
    }
  }

  lemma RunIsGood(handlers: set<bytes>, steps: seq<Step>, t: bytes)
    ensures Good(Run(Initial(handlers), steps), t)
  {
    hide Run;
    DataDoesNotClose([]);
    RunKeeps(Initial(handlers), steps, t);
  }

  // ---- theorems ----

  /**
   The tunnels' other direction, in every run, among any traffic of others and whatever ends the writing task:
   the socket of a tunnel holds a prefix of what its sending task has taken; while its writing task runs, what
   is written, queued and in flight is all of that, in order.
   */
  lemma TunnelWritePath(handlers: set<bytes>, steps: seq<Step>, t: bytes)
    ensures var s := Run(Initial(handlers), steps);
            t in s.sockets ==>
              && s.sockets[t] <= Sent(s, t)
              && (t in s.inQs ==> s.sockets[t] + AllData(s.inQs[t] + Inbound(t, s.wire)) == Sent(s, t))
  {
    hide Run, Inbound, AllData, WrittenOf;
    RunIsGood(handlers, steps, t);
  }

  /**
   A connection under a handler whose writing task nothing else ended, in every run: OK is queued or in flight,
   with no data behind it, exactly when the handler has ended; and when the writing task is over, the handler
   has ended and the socket holds all it has taken.
   */
  lemma HandlerDelivers(handlers: set<bytes>, steps: seq<Step>, t: bytes)
    ensures var s := Run(Initial(handlers), steps);
            t in s.sockets && t in s.handlers && t !in s.disturbed ==>
              if t in s.inQs then
                var ms := s.inQs[t] + Inbound(t, s.wire);
                OkIsLast(ms) && (Closes(ms) <==> t in s.ended)
              else t in s.ended && s.sockets[t] == Sent(s, t)
  {
    hide Run, Inbound, AllData, WrittenOf, OkIsLast, Closes;
    RunIsGood(handlers, steps, t);
  }

  /** The writing task on a queue, taken to the OK or to the end of what is there. */
  function TakeAll(s: System, t: bytes): System
    decreases |At(s.inQs, t)|
  {
    if t !in s.inQs || s.inQs[t] == [] || t !in s.sockets then s else TakeAll(Takes(s, t), t)
  }

  /** Its passes write what the loop of __socket_data_in_handle writes, and it ends on an OK as that does. */
  lemma {:induction false} WriterAgrees(s: System, t: bytes)
    requires t in s.inQs && t in s.sockets
    ensures var u := TakeAll(s, t);
            && t in u.sockets && u.sockets[t] == s.sockets[t] + SocketBytes(s.inQs[t])
            && (t !in u.inQs <==> Closes(s.inQs[t]))
    decreases |s.inQs[t]|
  {
    hide Tunnel.Exec, Closes, SocketBytes;
    var q := s.inQs[t];
    SocketBytesHead(q);
    if q == [] {
      DataDoesNotClose(q);
    } else {
      assert q == [q[0]] + q[1..];
      ClosesAppend([q[0]], q[1..]);
      ClosesOne(q[0]);
      if !q[0].OK? {
        WriterAgrees(Takes(s, t), t);
        if q[0].SocketData? {
          assert s.sockets[t] + (q[0].data + SocketBytes(q[1..])) == s.sockets[t] + q[0].data + SocketBytes(q[1..]);
        }
      }
    }
  }

  /** CONTINUE reaches the client only after the queue was made, so that nothing is sent in vain. */
  lemma EstablishedIsHeard(handlers: set<bytes>, steps: seq<Step>, t: bytes)
    ensures var s := Run(Initial(handlers), steps); t in s.established ==> t in s.connected
  {
    hide Run;
    RunIsGood(handlers, steps, t);
  }
}
