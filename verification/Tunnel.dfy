/**
 Client tunnels: the agent's CONNECT tasks, the one wire their replies share, and the client's dispatch by
 token into the queue of each tunnel. A step is what runs between two awaits.
 */
module Tunnel {
  import opened Bytes
  import opened Text
  import opened Wire
  import Chunker
  import Frames

  // ---- what a reply does to the client ----

  /** What onDataReceived puts into in_q: data, or the end marker with an error. */
  datatype Item = Data(payload: bytes) | Ended

  /** onDataReceived: CONTINUE is not queued, and a reply without data only logs an exception. */
  function ItemsOf(m: Message): seq<Item> {
    match m
    case OK(_, _) => [Ended]
    case Err(_, _, _) => [Ended]
    case SocketData(_, data) => [Data(data)]
    case ServerSocketData(_, _, data, _, _) => [Data(data)]
    case FileData(_, data, _) => [Data(data)]
    case _ => []
  }

  /** What a frame puts into the queue of a token: nothing when it does not decode or is for another. */
  function FrameItems(f: bytes, token: bytes): seq<Item> {
    match DecodeBytes(f)
    case None => []
    case Some(m) => if m.token == token then ItemsOf(m) else []
  }

  function WireItems(wire: seq<bytes>, token: bytes): seq<Item> {
    if wire == [] then [] else FrameItems(wire[0], token) + WireItems(wire[1..], token)
  }

  // ---- the system ----

  datatype Task = Connecting | Reading | AtEof | Failed

  /**
   One CONNECT on the agent: its main task, whether the task that writes to the socket runs (it may still
   do so while the main task is sending its last reply), the chunks read from the remote end, and the replies
   of all its tasks in order.
   */
  datatype Connection = Connection(task: Task, writing: bool, chunks: seq<bytes>, trace: seq<Message>)

  /**
   `sent` are the frames of all tasks, `wire` those of them that have not been received. `queues` holds the
   dispatch table with each tunnel's queue, `known` the tokens ever registered, `closings` how often the
   websocket closed while a tunnel was registered.
   */
  datatype System = System(tasks: map<bytes, Connection>, sent: seq<bytes>, wire: seq<bytes>,
                           queues: map<bytes, seq<Item>>, known: set<bytes>, closings: map<bytes, nat>)

  function Initial(): System {
    System(map[], [], [], map[], {}, map[])
  }

  datatype Step =
    | Register(token: bytes)
    | Start(token: bytes)
    | Opened(token: bytes)
    | ReadData(token: bytes, chunk: bytes)
    | ReadEof(token: bytes)
    | TaskFails(token: bytes, reason: Str, extra: Str)
    | WriterFails(token: bytes, reason: Str, extra: Str)
    | WriterEnds(token: bytes)
    | StrayError(token: bytes, reason: Str, extra: Str)
    | Receive
    | Deregister(token: bytes)
    | SocketCloses

  function Closings(s: System, token: bytes): nat {
    if token in s.closings then s.closings[token] else 0
  }

  /** A reply goes on the wire if it encodes; a reply that does not raises in the sender. */
  function Sends(s: System, m: Message): System {
    s.(sent := s.sent + Chunker.Encoded(m), wire := s.wire + Chunker.Encoded(m))
  }

  function Updates(s: System, token: bytes, c: Connection): System {
    s.(tasks := s.tasks[token := c])
  }

  /** A task moves on and sends a reply. */
  function Replies(s: System, token: bytes, c: Connection, m: Message): System {
    Sends(Updates(s, token, c.(trace := c.trace + [m])), m)
  }

  /** One pass of onData. */
  function Receives(s: System): System {
    if s.wire == [] then s
    else
      var t := s.(wire := s.wire[1..]);
      match DecodeBytes(s.wire[0])
      case None => t
      case Some(m) =>
        if m.token in s.queues then t.(queues := s.queues[m.token := s.queues[m.token] + ItemsOf(m)])
        else t
  }

  predicate ByTask(step: Step) {
    || step.Opened? || step.ReadData? || step.ReadEof? || step.TaskFails? || step.WriterFails? || step.WriterEnds?
    || step.StrayError?
  }

  /** What a step makes of its connection, and the reply it sends, if any. */
  function Reaction(c: Connection, step: Step): (Connection, Option<Message>)
    requires ByTask(step)
  {
    var token := step.token;
    match step
    case Opened(_) =>
      if !c.task.Connecting? then (c, None)
      else (c.(task := Reading, writing := true), Some(Continue(token, Some([]))))
    case ReadData(_, chunk) =>
      if !c.task.Reading? || !(1 <= |chunk| <= 65536) then (c, None)
      else (c.(chunks := c.chunks + [chunk]), Some(SocketData(token, chunk)))
    case ReadEof(_) =>
      if !c.task.Reading? then (c, None) else (c.(task := AtEof), Some(OK(token, Some([]))))
    case TaskFails(_, reason, extra) =>
      if c.task.AtEof? || c.task.Failed? then (c, None) else (c.(task := Failed), Some(Err(token, reason, extra)))
    case WriterFails(_, reason, extra) =>
      if !c.writing then (c, None) else (c.(writing := false), Some(Err(token, reason, extra)))
    case WriterEnds(_) => (c.(writing := false), None)
    case StrayError(_, reason, extra) => (c, Some(Err(token, reason, extra)))
  }

  function TaskStep(s: System, step: Step): System
    requires ByTask(step)
  {
    if step.token !in s.tasks then s
    else
      var (c, reply) := Reaction(s.tasks[step.token], step);
      match reply
      case None => Updates(s, step.token, c)
      case Some(m) => Replies(s, step.token, c, m)
  }

  function Exec(s: System, step: Step): System {
    match step
    case Register(token) =>
      if |token| != 16 || token in s.known then s
      else s.(queues := s.queues[token := []], known := s.known + {token})
    case Start(token) =>
      if token !in s.known || token in s.tasks then s
      else Updates(s, token, Connection(Connecting, false, [], []))
    case Receive => Receives(s)
    case Deregister(token) => s.(queues := s.queues - {token})
    case SocketCloses =>
      s.(queues := map t | t in s.queues :: s.queues[t] + [Ended],
         closings := map t | t in s.queues :: Closings(s, t) + 1)
    case _ => TaskStep(s, step)
  }

  function Run(s: System, steps: seq<Step>): System
    decreases |steps|
  {
    if steps == [] then s else Run(Exec(s, steps[0]), steps[1..])
  }

  // ---- the grammar of a trace ----

  /** The phase a trace leaves its task in; None once socket data is out of place. */
  datatype TracePhase = Before | Open | Closed

  function ScanOne(p: Option<TracePhase>, m: Message): Option<TracePhase> {
    match m
    case Continue(_, _) => if p == Some(Before) then Some(Open) else None
    case SocketData(_, _) => if p == Some(Open) then p else None
    case OK(_, _) => if p == Some(Open) then Some(Closed) else None
    case Err(_, _, _) => p
    case _ => None
  }

  function Scan(trace: seq<Message>): Option<TracePhase> {
    if trace == [] then Some(Before) else ScanOne(Scan(trace[..|trace| - 1]), trace[|trace| - 1])
  }

  predicate SaysContinue(ms: seq<Message>) {
    exists i :: 0 <= i < |ms| && ms[i].Continue?
  }

  predicate SaysOk(ms: seq<Message>) {
    exists i :: 0 <= i < |ms| && ms[i].OK?
  }

  predicate SaysErr(ms: seq<Message>) {
    exists i :: 0 <= i < |ms| && ms[i].Err?
  }

  lemma SaysSnoc(ms: seq<Message>, m: Message)
    ensures SaysContinue(ms + [m]) <==> SaysContinue(ms) || m.Continue?
    ensures SaysOk(ms + [m]) <==> SaysOk(ms) || m.OK?
    ensures SaysErr(ms + [m]) <==> SaysErr(ms) || m.Err?
  {
    var all := ms + [m];
    assert all[|ms|] == m;
    assert forall i :: 0 <= i < |ms| ==> all[i] == ms[i];
  }

  /** What a scan that succeeds means: data only after CONTINUE and never after OK. */
  lemma {:induction false} ScanMeans(trace: seq<Message>)
    requires Scan(trace).Some?
    ensures Scan(trace) == Some(Before) <==> !SaysContinue(trace)
    ensures Scan(trace) == Some(Closed) <==> SaysOk(trace)
    ensures forall i :: 0 <= i < |trace| && trace[i].SocketData? ==> SaysContinue(trace[..i]) && !SaysOk(trace[..i])
  {
    hide SaysContinue, SaysOk;
    if trace == [] {
      NothingSaid();
    } else {
      var t := trace[..|trace| - 1];
      ScanMeans(t);
      assert trace == t + [trace[|trace| - 1]];
      SaysSnoc(t, trace[|trace| - 1]);
      forall i | 0 <= i < |trace| && trace[i].SocketData? ensures SaysContinue(trace[..i]) && !SaysOk(trace[..i]) {
        if i < |t| {
          assert t[i] == trace[i] && t[..i] == trace[..i];
        } else {
          assert trace[..i] == t;
        }
      }
    }
  }

  lemma NothingSaid()
    ensures !SaysContinue([]) && !SaysOk([]) && !SaysErr([])
  {}

  // ---- what a trace amounts to ----

  function DataItems(chunks: seq<bytes>): seq<Item> {
    if chunks == [] then [] else DataItems(chunks[..|chunks| - 1]) + [Data(chunks[|chunks| - 1])]
  }

  /** The data replies of a trace. */
  function DataOf(trace: seq<Message>): seq<bytes> {
    if trace == [] then []
    else
      var m := trace[|trace| - 1];
      DataOf(trace[..|trace| - 1]) + if m.SocketData? then [m.data] else []
  }

  /** The frames of its replies, as far as they encode. */
  function TraceFrames(trace: seq<Message>): seq<bytes> {
    if trace == [] then [] else TraceFrames(trace[..|trace| - 1]) + Chunker.Encoded(trace[|trace| - 1])
  }

  /** What a reply puts into the queue of its token. */
  function MessageItems(m: Message): seq<Item> {
    match EncodeFrame(m)
    case None => []
    case Some(f) => FrameItems(f, m.token)
  }

  function TraceItems(trace: seq<Message>): seq<Item> {
    if trace == [] then [] else TraceItems(trace[..|trace| - 1]) + MessageItems(trace[|trace| - 1])
  }

  /** The frame of a message is there and decodes. */
  predicate Arrives(m: Message) {
    EncodeFrame(m).Some? && DecodeBytes(EncodeFrame(m).value).Some?
  }

  /** How many of the replies are OK or ERR, those aside whose frames are missing or broken. */
  function EndingReplies(trace: seq<Message>): nat {
    if trace == [] then 0
    else
      var m := trace[|trace| - 1];
      EndingReplies(trace[..|trace| - 1]) + if (m.OK? || m.Err?) && Arrives(m) then 1 else 0
  }

  lemma TraceSnoc(trace: seq<Message>, m: Message)
    ensures Scan(trace + [m]) == ScanOne(Scan(trace), m)
    ensures DataOf(trace + [m]) == if m.SocketData? then DataOf(trace) + [m.data] else DataOf(trace)
    ensures TraceFrames(trace + [m]) == TraceFrames(trace) + Chunker.Encoded(m)
    ensures TraceItems(trace + [m]) == TraceItems(trace) + MessageItems(m)
    ensures EndingReplies(trace + [m]) == EndingReplies(trace) + if (m.OK? || m.Err?) && Arrives(m) then 1 else 0
  {
    hide ScanOne, Chunker.Encoded, MessageItems, Arrives;
    var t := trace + [m];
    assert t[..|t| - 1] == trace;
  }

  // ---- invariants of one connection ----

  /** The replies a connection's tasks send. */
  predicate IsReply(m: Message, token: bytes) {
    && |token| == 16 && m.token == token
    && (m == Continue(token, Some([])) || m == OK(token, Some([])) || m.Err? ||
        (m.SocketData? && 1 <= |m.data| <= 65536))
  }

  /** The trace of a connection follows the grammar and has the chunks read as its data. */
  predicate TraceGood(c: Connection, token: bytes) {
    && Scan(c.trace).Some?
    && (c.task.Connecting? ==> Scan(c.trace) == Some(Before))
    && (c.task.Reading? ==> Scan(c.trace) == Some(Open))
    && (c.task.AtEof? <==> Scan(c.trace) == Some(Closed))
    && (c.task.Failed? ==> SaysErr(c.trace))
    && (forall m :: m in c.trace ==> IsReply(m, token))
    && DataOf(c.trace) == c.chunks
  }

  /** Without an error the replies amount to the chunks read and, after EOF, the end marker. */
  predicate Faithful(c: Connection) {
    !SaysErr(c.trace) ==> TraceItems(c.trace) == DataItems(c.chunks) + if c.task.AtEof? then [Ended] else []
  }

  predicate ConnectionGood(c: Connection, token: bytes) {
    TraceGood(c, token) && Faithful(c)
  }

  lemma {:induction false} WireItemsAppend(wire: seq<bytes>, f: bytes, token: bytes)
    ensures WireItems(wire + [f], token) == WireItems(wire, token) + FrameItems(f, token)
  {
    hide FrameItems;
    if wire == [] {
      assert WireItems([f][1..], token) == [];
      assert FrameItems(f, token) + [] == [] + FrameItems(f, token);
    } else {
      WireItemsAppend(wire[1..], f, token);
      assert (wire + [f])[1..] == wire[1..] + [f];
      assert FrameItems(wire[0], token) + (WireItems(wire[1..], token) + FrameItems(f, token))
          == FrameItems(wire[0], token) + WireItems(wire[1..], token) + FrameItems(f, token);
    }
  }

  /** A frame of one token is nothing to another, whatever becomes of its text. */
  lemma OtherToken(m: Message, token: bytes)
    requires |m.token| == 16 && EncodeFrame(m).Some? && m.token != token
    ensures FrameItems(EncodeFrame(m).value, token) == []
  {
    hide EncodeFrame, DecodeFrame;
    var f := EncodeFrame(m).value;
    var l, t, body := Frames.FrameParts(m);
    if DecodeFrame(f).Some? {
      Frames.TokenAgreement(f);
      assert Slice(f, 6, 22) == m.token;
    }
  }

  /** The error-free replies decode to what was sent. */
  lemma ReplyItems(m: Message)
    requires |m.token| == 16
    requires (m.SocketData? && |m.data| <= 65536) || m == Continue(m.token, Some([])) || m == OK(m.token, Some([]))
    ensures EncodeFrame(m).Some? && FrameItems(EncodeFrame(m).value, m.token) == ItemsOf(m)
  {
    hide EncodeFrame, DecodeBytes;
    if m.SocketData? {
      Chunker.SocketDataFrame(m.token, m.data);
    } else {
      NoTextEncodes(m);
    }
    assert Frames.WellFormed(m);
    Frames.BytesRoundTrip(m);
  }

  lemma NoTextEncodes(m: Message)
    requires |m.token| == 16 && (m == Continue(m.token, Some([])) || m == OK(m.token, Some([])))
    ensures EncodeFrame(m).Some?
  {
    hide BigEndian, Print, PrintText;
    WidthBounds();
    var p := NoText();
    Frames.PrintThen(Raw(16), Then(OptText, End), VBytes(m.token), Cons(VOpt(Some([])), Nil));
    Frames.PrintThen(OptText, End, VOpt(Some([])), Nil);
    Chunker.PrintNothing();
    assert Print(FormatOf(TypeOf(m)), FieldsOf(m)) == Some(m.token + (p + []));
  }

  lemma NoText() returns (p: bytes)
    ensures PrintText(Utf8, []) == Some(p) && |p| == 4
  {
    WidthBounds();
    p := PrintText(Utf8, []).value;
  }

  lemma DataItemsSnoc(chunks: seq<bytes>, chunk: bytes)
    ensures DataItems(chunks + [chunk]) == DataItems(chunks) + [Data(chunk)]
  {
    var cs := chunks + [chunk];
    assert cs[..|cs| - 1] == chunks;
  }

  /** What a step does to its connection keeps it good. */
  lemma ReactionGood(c: Connection, step: Step)
    requires ByTask(step) && |step.token| == 16 && ConnectionGood(c, step.token)
    ensures var (d, reply) := Reaction(c, step);
            match reply
            case None => ConnectionGood(d, step.token)
            case Some(m) => IsReply(m, step.token) && ConnectionGood(d.(trace := d.trace + [m]), step.token)
  {
    hide Faithful, TraceGood, Reaction, IsReply;
    ReactionTraced(c, step);
    if Reaction(c, step).1.Some? {
      ReactionFaithful(c, step);
    } else {
      SilentFaithful(c, step);
    }
  }

  lemma ReactionTraced(c: Connection, step: Step)
    requires ByTask(step) && |step.token| == 16 && TraceGood(c, step.token)
    ensures var (d, reply) := Reaction(c, step);
            match reply
            case None => TraceGood(d, step.token)
            case Some(m) => IsReply(m, step.token) && TraceGood(d.(trace := d.trace + [m]), step.token)
  {
    hide Scan, DataOf, SaysErr, TraceFrames, TraceItems, EndingReplies, Chunker.Encoded, MessageItems, Arrives;
    var (d, reply) := Reaction(c, step);
    if reply.Some? {
      TraceSnoc(c.trace, reply.value);
      SaysSnoc(c.trace, reply.value);
    }
  }

  lemma SilentFaithful(c: Connection, step: Step)
    requires ByTask(step) && Reaction(c, step).1.None? && Faithful(c)
    ensures Faithful(Reaction(c, step).0)
  {
    hide SaysErr, TraceItems, DataItems;
  }

  lemma ReactionFaithful(c: Connection, step: Step)
    requires ByTask(step) && |step.token| == 16 && Reaction(c, step).1.Some? && Faithful(c)
    ensures var (d, reply) := Reaction(c, step); Faithful(d.(trace := d.trace + [reply.value]))
  {
    hide SaysErr, SaysOk, SaysContinue, Scan, ScanOne, DataOf, TraceFrames, EndingReplies, Chunker.Encoded, Arrives;
    hide TraceItems, DataItems, MessageItems, IsReply;
    var (d, reply) := Reaction(c, step);
    var m := reply.value;
    TraceSnoc(c.trace, m);
    SaysSnoc(c.trace, m);
    if !m.Err? {
      ReactionReplies(c, step);
      ReplyIsItems(m);
      if m.SocketData? {
        DataItemsSnoc(c.chunks, m.data);
      }
    }
  }

  lemma ReactionReplies(c: Connection, step: Step)
    requires ByTask(step) && |step.token| == 16 && Reaction(c, step).1.Some?
    ensures IsReply(Reaction(c, step).1.value, step.token)
  {}

  lemma ReplyIsItems(m: Message)
    requires IsReply(m, m.token) && !m.Err?
    ensures MessageItems(m) == ItemsOf(m)
  {
    hide EncodeFrame, FrameItems;
    ReplyItems(m);
  }

  // ---- invariants of the whole ----

  /** Tokens in use have 16 bytes and are registered. */
  predicate AllKnown(s: System) {
    && (forall t :: t in s.tasks ==> |t| == 16 && t in s.known)
    && (forall t :: t in s.known ==> |t| == 16)
    && s.queues.Keys <= s.known && s.closings.Keys <= s.known
  }

  /** The replies of a token so far. */
  function TraceOf(s: System, token: bytes): seq<Message> {
    if token in s.tasks then s.tasks[token].trace else []
  }

  /** The frames a list has under a token, as the router tells them. */
  function Under(frames: seq<bytes>, token: bytes): seq<bytes> {
    if frames == [] then []
    else
      var f := frames[|frames| - 1];
      Under(frames[..|frames| - 1], token) + if Slice(f, 6, 22) == token then [f] else []
  }

  /** What is on the wire was sent, and under a token just the frames of its replies were. */
  predicate Recorded(s: System, token: bytes) {
    && |s.wire| <= |s.sent| && s.wire == s.sent[|s.sent| - |s.wire|..]
    && Under(s.sent, token) == TraceFrames(TraceOf(s, token))
  }

  /** While no websocket closed, the queue of a tunnel and what is in flight are what its replies amount to. */
  predicate Dispatched(s: System, token: bytes) {
    && (token in s.queues && Closings(s, token) == 0 ==>
          TraceItems(TraceOf(s, token)) == s.queues[token] + WireItems(s.wire, token))
    && (token !in s.known ==> WireItems(s.wire, token) == [])
  }

  function ItemBytes(items: seq<Item>): bytes {
    if items == [] then []
    else ItemBytes(items[..|items| - 1]) + (match items[|items| - 1] case Data(p) => p case Ended => [])
  }

  /** How many end markers there are. */
  function Ends(items: seq<Item>): nat {
    if items == [] then 0 else Ends(items[..|items| - 1]) + if items[|items| - 1].Ended? then 1 else 0
  }

  lemma ItemsLast(items: seq<Item>)
    requires items != []
    ensures var front, last := items[..|items| - 1], items[|items| - 1];
            && ItemBytes(items) == ItemBytes(front) + (if last.Data? then last.payload else [])
            && Ends(items) == Ends(front) + if last.Ended? then 1 else 0
  {}

  lemma {:induction false} ItemsAppend(xs: seq<Item>, ys: seq<Item>)
    ensures ItemBytes(xs + ys) == ItemBytes(xs) + ItemBytes(ys) && Ends(xs + ys) == Ends(xs) + Ends(ys)
    decreases |ys|
  {
    hide ItemBytes, Ends;
    if ys == [] {
      OneItem(Ended);
      assert xs + ys == xs;
    } else {
      var front, last := ys[..|ys| - 1], ys[|ys| - 1];
      ItemsAppend(xs, front);
      ItemsLast(ys);
      ItemsLast(xs + ys);
      assert (xs + ys)[..|xs + ys| - 1] == xs + front;
      var data := if last.Data? then last.payload else [];
      assert ItemBytes(xs) + (ItemBytes(front) + data) == ItemBytes(xs) + ItemBytes(front) + data;
    }
  }

  lemma OneItem(i: Item)
    ensures ItemBytes([i]) == (if i.Data? then i.payload else []) && Ends([i]) == if i.Ended? then 1 else 0
    ensures ItemBytes([]) == [] && Ends([]) == 0
  {
    assert [i][..0] == [];
  }

  /**
   Errors and closings or not: what a registered tunnel's queue and the wire hold are the bytes its task has
   read, and one end marker for every OK, every ERR and every close of the websocket.
   */
  predicate Counted(s: System, token: bytes) {
    token in s.queues ==>
      && ItemBytes(s.queues[token]) + ItemBytes(WireItems(s.wire, token)) == Concat(DataOf(TraceOf(s, token)))
      && Ends(s.queues[token]) + Ends(WireItems(s.wire, token))
         == EndingReplies(TraceOf(s, token)) + Closings(s, token)
  }

  predicate Good(s: System, token: bytes) {
    && (token in s.tasks ==> ConnectionGood(s.tasks[token], token))
    && Recorded(s, token) && Dispatched(s, token) && Counted(s, token)
  }

  // ---- what a reply keeps ----

  lemma FrameToken(m: Message)
    requires |m.token| == 16 && EncodeFrame(m).Some?
    ensures Slice(EncodeFrame(m).value, 6, 22) == m.token
  {
    hide EncodeFrame;
    var l, t, body := Frames.FrameParts(m);
  }

  lemma UnderSnoc(frames: seq<bytes>, m: Message, token: bytes)
    requires |m.token| == 16
    ensures Under(frames + Chunker.Encoded(m), token)
         == if m.token == token then Under(frames, token) + Chunker.Encoded(m) else Under(frames, token)
  {
    hide EncodeFrame, Slice;
    if EncodeFrame(m).Some? {
      FrameToken(m);
      var f := EncodeFrame(m).value;
      assert (frames + [f])[..|frames|] == frames;
    } else {
      assert frames + [] == frames;
    }
  }

  /** The items a reply puts on the wire for a token. */
  lemma WireSnoc(wire: seq<bytes>, m: Message, token: bytes)
    requires |m.token| == 16
    ensures WireItems(wire + Chunker.Encoded(m), token)
         == if m.token == token then WireItems(wire, token) + MessageItems(m) else WireItems(wire, token)
  {
    hide EncodeFrame, FrameItems, WireItems;
    if EncodeFrame(m).Some? {
      WireItemsAppend(wire, EncodeFrame(m).value, token);
      if m.token != token {
        OtherToken(m, token);
      }
    } else {
      assert wire + [] == wire;
    }
  }

  /** The data and the end markers of a reply, whatever becomes of the texts of an error. */
  lemma ReplyCounts(m: Message)
    requires IsReply(m, m.token)
    ensures ItemBytes(MessageItems(m)) == if m.SocketData? then m.data else []
    ensures Ends(MessageItems(m)) == if (m.OK? || m.Err?) && Arrives(m) then 1 else 0
  {
    hide EncodeFrame, DecodeBytes;
    OneItem(Ended);
    if m.Err? {
      if EncodeFrame(m).Some? {
        Frames.TypeStays(m);
      }
    } else {
      ReplyItems(m);
      if m.SocketData? {
        OneItem(Data(m.data));
      } else {
        Frames.BytesRoundTrip(m);
      }
    }
  }

  /** What a reply changes. */
  lemma ReplyEffect(s: System, t: bytes, c: Connection, m: Message)
    ensures var u := Replies(s, t, c, m);
            && u == s.(tasks := s.tasks[t := c.(trace := c.trace + [m])], sent := s.sent + Chunker.Encoded(m),
                       wire := s.wire + Chunker.Encoded(m))
            && TraceOf(u, t) == c.trace + [m]
            && forall token :: token != t ==> TraceOf(u, token) == TraceOf(s, token)
  {
    hide EncodeFrame;
  }

  lemma SuffixGrows(all: seq<bytes>, last: seq<bytes>, more: seq<bytes>)
    requires |last| <= |all| && last == all[|all| - |last|..]
    ensures last + more == (all + more)[|all + more| - |last + more|..]
  {}

  lemma ReplyKeepsRecord(s: System, t: bytes, c: Connection, m: Message, token: bytes)
    requires Recorded(s, token) && t in s.tasks && IsReply(m, t) && c.trace == s.tasks[t].trace
    ensures Recorded(Replies(s, t, c, m), token)
  {
    hide Chunker.Encoded, Under, TraceFrames, Replies, Scan, ScanOne, DataOf, TraceItems, EndingReplies, MessageItems;
    hide Arrives;
    ReplyEffect(s, t, c, m);
    UnderSnoc(s.sent, m, token);
    TraceSnoc(c.trace, m);
    SuffixGrows(s.sent, s.wire, Chunker.Encoded(m));
  }

  lemma ReplyKeepsDispatched(s: System, t: bytes, c: Connection, m: Message, token: bytes)
    requires Dispatched(s, token) && t in s.tasks && t in s.known && IsReply(m, t) && c.trace == s.tasks[t].trace
    ensures Dispatched(Replies(s, t, c, m), token)
  {
    hide Chunker.Encoded, WireItems, TraceItems, MessageItems, Replies, Scan, ScanOne, DataOf, TraceFrames;
    hide EndingReplies, Arrives;
    ReplyEffect(s, t, c, m);
    WireSnoc(s.wire, m, token);
    TraceSnoc(c.trace, m);
    if token in s.queues {
      assert s.queues[token] + (WireItems(s.wire, token) + MessageItems(m))
          == s.queues[token] + WireItems(s.wire, token) + MessageItems(m);
    }
  }

  /** Items that join those on the wire. */
  lemma SentItems(queue: seq<Item>, wire: seq<Item>, items: seq<Item>)
    ensures ItemBytes(queue) + ItemBytes(wire + items) == ItemBytes(queue) + ItemBytes(wire) + ItemBytes(items)
    ensures Ends(queue) + Ends(wire + items) == Ends(queue) + Ends(wire) + Ends(items)
  {
    hide ItemBytes, Ends;
    ItemsAppend(wire, items);
    assert ItemBytes(queue) + (ItemBytes(wire) + ItemBytes(items))
        == ItemBytes(queue) + ItemBytes(wire) + ItemBytes(items);
  }

  /** What a reply adds to the data and the endings of a trace. */
  lemma TraceCounts(trace: seq<Message>, m: Message)
    requires IsReply(m, m.token)
    ensures Concat(DataOf(trace + [m])) == Concat(DataOf(trace)) + ItemBytes(MessageItems(m))
    ensures EndingReplies(trace + [m]) == EndingReplies(trace) + Ends(MessageItems(m))
  {
    hide ItemBytes, Ends, MessageItems, Arrives, Concat, DataOf, EndingReplies, Scan, ScanOne, TraceItems, TraceFrames;
    hide Chunker.Encoded;
    TraceSnoc(trace, m);
    ReplyCounts(m);
    if m.SocketData? {
      ConcatSnoc(DataOf(trace), m.data);
    } else {
      assert Concat(DataOf(trace)) + [] == Concat(DataOf(trace));
    }
  }

  lemma ReplyKeepsCounts(s: System, t: bytes, c: Connection, m: Message, token: bytes)
    requires Counted(s, token) && t in s.tasks && IsReply(m, t) && c.trace == s.tasks[t].trace
    ensures Counted(Replies(s, t, c, m), token)
  {
    hide Chunker.Encoded, WireItems, MessageItems, Replies, ItemBytes, Ends, DataOf, EndingReplies, Concat;
    ReplyEffect(s, t, c, m);
    WireSnoc(s.wire, m, token);
    if t == token && token in s.queues {
      TraceCounts(c.trace, m);
      SentItems(s.queues[token], WireItems(s.wire, token), MessageItems(m));
    }
  }

  /** A reply adds its frame, its data and its end marker to what is in flight for its token, and nothing else. */
  lemma ReplyKeeps(s: System, t: bytes, c: Connection, m: Message, token: bytes)
    requires Good(s, token) && t in s.tasks && t in s.known && IsReply(m, t) && c.trace == s.tasks[t].trace
    requires ConnectionGood(c.(trace := c.trace + [m]), t)
    ensures Good(Replies(s, t, c, m), token)
  {
    hide ConnectionGood, Recorded, Dispatched, Counted, Replies;
    ReplyEffect(s, t, c, m);
    ReplyKeepsRecord(s, t, c, m, token);
    ReplyKeepsDispatched(s, t, c, m, token);
    ReplyKeepsCounts(s, t, c, m, token);
  }

  /** A step of a task that sends nothing. */
  lemma UpdateKeeps(s: System, t: bytes, c: Connection, token: bytes)
    requires Good(s, token) && t in s.tasks && c.trace == s.tasks[t].trace && ConnectionGood(c, t)
    ensures Good(Updates(s, t, c), token)
  {
    hide ConnectionGood, WireItems, ItemBytes, Ends, Concat, TraceItems, Under, TraceFrames, DataOf, EndingReplies;
    assert TraceOf(Updates(s, t, c), token) == TraceOf(s, token);
  }

  lemma ReactionKeepsTrace(c: Connection, step: Step)
    requires ByTask(step)
    ensures Reaction(c, step).0.trace == c.trace
  {}

  lemma TaskKeeps(s: System, step: Step, token: bytes)
    requires ByTask(step) && Good(s, token) && Good(s, step.token) && AllKnown(s)
    ensures Good(TaskStep(s, step), token)
  {
    hide ConnectionGood, Recorded, Dispatched, Counted, Replies, Updates, Reaction;
    if step.token in s.tasks {
      var c := s.tasks[step.token];
      var (d, reply) := Reaction(c, step);
      ReactionGood(c, step);
      ReactionKeepsTrace(c, step);
      match reply
      case None => UpdateKeeps(s, step.token, d, token);
      case Some(m) => ReplyKeeps(s, step.token, d, m, token);
    }
  }

  // ---- what the other steps keep ----

  lemma NothingReceived(s: System)
    requires s.wire == []
    ensures Receives(s) == s
  {}

  /** What one pass of onData does to the queue of a token. */
  lemma ReceiveEffect(s: System, token: bytes)
    requires s.wire != []
    ensures var u := Receives(s);
            && u == s.(wire := s.wire[1..], queues := u.queues)
            && (token in u.queues <==> token in s.queues)
            && (token in s.queues ==> u.queues[token] == s.queues[token] + FrameItems(s.wire[0], token))
            && WireItems(s.wire, token) == FrameItems(s.wire[0], token) + WireItems(u.wire, token)
  {
    hide DecodeBytes, ItemsOf;
    if token in s.queues {
      assert s.queues[token] + [] == s.queues[token];
    }
  }

  lemma ReceiveKeeps(s: System, token: bytes)
    requires Good(s, token)
    ensures Good(Receives(s), token)
  {
    hide ConnectionGood, Receives, FrameItems, WireItems, ItemBytes, Ends, Concat, TraceItems, DataOf, EndingReplies;
    hide Under, TraceFrames;
    if s.wire == [] {
      NothingReceived(s);
    } else {
      ReceiveEffect(s, token);
      assert TraceOf(Receives(s), token) == TraceOf(s, token);
      assert s.wire[1..] == s.sent[|s.sent| - |s.wire[1..]|..];
      if token in s.queues {
        ReceivedItems(s.queues[token], FrameItems(s.wire[0], token), WireItems(s.wire[1..], token));
      }
    }
  }

  /** Items that move from the wire into the queue. */
  lemma ReceivedItems(queue: seq<Item>, items: seq<Item>, rest: seq<Item>)
    ensures queue + items + rest == queue + (items + rest)
    ensures ItemBytes(queue + items) + ItemBytes(rest) == ItemBytes(queue) + ItemBytes(items + rest)
    ensures Ends(queue + items) + Ends(rest) == Ends(queue) + Ends(items + rest)
  {
    hide ItemBytes, Ends;
    ItemsAppend(queue, items);
    ItemsAppend(items, rest);
    assert ItemBytes(queue) + (ItemBytes(items) + ItemBytes(rest))
        == ItemBytes(queue) + ItemBytes(items) + ItemBytes(rest);
  }

  lemma NewConnection(token: bytes)
    ensures ConnectionGood(Connection(Connecting, false, [], []), token)
  {
    NothingSaid();
  }

  lemma RegisterKeeps(s: System, t: bytes, token: bytes)
    requires Good(s, token) && AllKnown(s) && t !in s.known
    ensures Good(s.(queues := s.queues[t := []], known := s.known + {t}), token)
  {
    hide ConnectionGood, WireItems, ItemBytes, Ends, Concat, TraceItems, Under, TraceFrames, DataOf, EndingReplies;
    hide AllKnown;
    if t == token {
      Unregistered(s, token);
      EmptyTrace();
      OneItem(Ended);
      assert [] + WireItems(s.wire, token) == WireItems(s.wire, token);
    }
  }

  lemma EmptyTrace()
    ensures TraceItems([]) == [] && DataOf([]) == [] && Concat([]) == [] && EndingReplies([]) == 0
    ensures TraceFrames([]) == []
  {}

  lemma Unregistered(s: System, token: bytes)
    requires AllKnown(s) && token !in s.known
    ensures TraceOf(s, token) == [] && Closings(s, token) == 0
  {}

  lemma StartKeeps(s: System, t: bytes, token: bytes)
    requires Good(s, token)
    ensures Good(Exec(s, Start(t)), token)
  {
    hide ConnectionGood, WireItems, ItemBytes, Ends, Concat, TraceItems, Under, TraceFrames, DataOf, EndingReplies;
    NewConnection(t);
    assert TraceOf(Exec(s, Start(t)), token) == TraceOf(s, token);
  }

  lemma LeavingKeeps(s: System, t: bytes, token: bytes)
    requires Good(s, token)
    ensures Good(Exec(s, Deregister(t)), token)
  {
    hide ConnectionGood, WireItems, ItemBytes, Ends, Concat, TraceItems, Under, TraceFrames, DataOf, EndingReplies;
  }

  lemma ClosingKeeps(s: System, token: bytes)
    requires Good(s, token)
    ensures Good(Exec(s, SocketCloses), token)
  {
    hide ConnectionGood, WireItems, ItemBytes, Ends, Concat, TraceItems, Under, TraceFrames, DataOf, EndingReplies;
    if token in s.queues {
      OneItem(Ended);
      ItemsAppend(s.queues[token], [Ended]);
    }
  }

  lemma StepKeepsKnown(s: System, step: Step)
    requires AllKnown(s)
    ensures AllKnown(Exec(s, step))
  {
    hide EncodeFrame, DecodeBytes, Reaction;
  }

  lemma StepKeeps(s: System, step: Step, token: bytes)
    requires AllKnown(s) && forall t :: Good(s, t)
    ensures AllKnown(Exec(s, step)) && Good(Exec(s, step), token)
  {
    hide Good, AllKnown, TaskStep, Receives;
    StepKeepsKnown(s, step);
    match step
    case Register(t) => if |t| == 16 && t !in s.known { RegisterKeeps(s, t, token); }
    case Start(t) => StartKeeps(s, t, token);
    case Receive => ReceiveKeeps(s, token);
    case Deregister(t) => LeavingKeeps(s, t, token);
    case SocketCloses => ClosingKeeps(s, token);
    case _ => TaskKeeps(s, step, token);
  }

  lemma {:induction false} RunKeeps(s: System, steps: seq<Step>, token: bytes)
    requires AllKnown(s) && forall t :: Good(s, t)
    ensures Good(Run(s, steps), token)
    decreases |steps|
  {
    hide Good, AllKnown, Exec;
    if steps == [] {
    } else {
      var next := Exec(s, steps[0]);
      StepKeepsKnown(s, steps[0]);
      forall t ensures Good(next, t) {
        StepKeeps(s, steps[0], t);
      }
      RunKeeps(next, steps[1..], token);
    }
  }

  lemma InitialIsGood(token: bytes)
    ensures Good(Initial(), token)
  {
    hide ConnectionGood;
    EmptyTrace();
    assert Under([], token) == [] && WireItems([], token) == [];
  }

  lemma RunIsGood(steps: seq<Step>, token: bytes)
    ensures Good(Run(Initial(), steps), token)
  {
    hide Run, Good;
    forall t ensures Good(Initial(), t) {
      InitialIsGood(t);
    }
    RunKeeps(Initial(), steps, token);
  }

  // ---- theorems ----

  /** In every run, no CONNECT task's replies contain socket data before CONTINUE or after OK. */
  lemma ReplyGrammar(steps: seq<Step>, token: bytes)
    ensures var s := Run(Initial(), steps);
            token in s.tasks ==>
              var trace := s.tasks[token].trace;
              forall i :: 0 <= i < |trace| && trace[i].SocketData? ==> SaysContinue(trace[..i]) && !SaysOk(trace[..i])
  {
    hide Run, Scan, SaysContinue, SaysOk, Recorded, Dispatched, Counted;
    RunIsGood(steps, token);
    var s := Run(Initial(), steps);
    if token in s.tasks {
      ScanMeans(s.tasks[token].trace);
    }
  }

  /**
   In every run, the frames sent under a token are those of its replies, in order and as far as they encode; the
   replies are CONTINUE, OK, ERR and data, with the chunks read as their data; OK is among them exactly when EOF
   was read, and ERR when the task failed. What has not been received are the last frames sent.
   */
  lemma FramesAreReplies(steps: seq<Step>, token: bytes)
    ensures var s := Run(Initial(), steps);
            && |s.wire| <= |s.sent| && s.wire == s.sent[|s.sent| - |s.wire|..]
            && (token !in s.tasks ==> Under(s.sent, token) == [])
            && (token in s.tasks ==>
                  var c := s.tasks[token];
                  && Under(s.sent, token) == TraceFrames(c.trace)
                  && DataOf(c.trace) == c.chunks
                  && (forall m :: m in c.trace ==>
                        && m.token == token
                        && (m == Continue(token, Some([])) || m == OK(token, Some([])) || m.Err? ||
                            (m.SocketData? && 1 <= |m.data| <= 65536)))
                  && (SaysOk(c.trace) <==> c.task.AtEof?) && (c.task.Failed? ==> SaysErr(c.trace)))
  {
    hide Run, Scan, Under, TraceFrames, DataOf, Dispatched, Counted, SaysOk, SaysErr;
    RunIsGood(steps, token);
    var s := Run(Initial(), steps);
    if token in s.tasks {
      ScanMeans(s.tasks[token].trace);
    } else {
      EmptyTrace();
    }
  }

  /** What a task does at its ends: EOF is answered with OK, a failure with ERR and its texts, and each ends it. */
  lemma TaskEnds(s: System, token: bytes, reason: Str, extra: Str)
    requires token in s.tasks && (s.tasks[token].task.Connecting? || s.tasks[token].task.Reading?)
    ensures var t := TaskStep(s, TaskFails(token, reason, extra));
            && t.sent == s.sent + Chunker.Encoded(Err(token, reason, extra))
            && token in t.tasks && t.tasks[token].task.Failed?
            && t.tasks[token].trace == s.tasks[token].trace + [Err(token, reason, extra)]
    ensures s.tasks[token].task.Reading? ==>
              var t := TaskStep(s, ReadEof(token));
              && t.sent == s.sent + Chunker.Encoded(OK(token, Some([])))
              && token in t.tasks && t.tasks[token].task.AtEof?
              && t.tasks[token].trace == s.tasks[token].trace + [OK(token, Some([]))]
  {
    hide Chunker.Encoded;
  }

  /** Each OK and each ERR received for a registered tunnel puts one end marker behind what is queued. */
  lemma EndingIsQueued(s: System, token: bytes)
    requires s.wire != [] && token in s.queues && DecodeBytes(s.wire[0]).Some?
    requires var m := DecodeBytes(s.wire[0]).value; m.token == token && (m.OK? || m.Err?)
    ensures Receives(s).queues == s.queues[token := s.queues[token] + [Ended]]
  {
    hide DecodeBytes;
  }

  /**
   In every run, errors included: the end markers in the queue of a registered tunnel and in flight for it are as
   many as the OK and ERR replies of its tasks that arrive and the times the websocket closed.
   */
  lemma EndMarkers(steps: seq<Step>, token: bytes)
    ensures var s := Run(Initial(), steps);
            token in s.queues ==>
              Ends(s.queues[token]) + Ends(WireItems(s.wire, token))
              == EndingReplies(TraceOf(s, token)) + Closings(s, token)
  {
    hide Run, Ends, WireItems, EndingReplies, ConnectionGood, Recorded, Dispatched;
    RunIsGood(steps, token);
  }

  lemma {:induction false} DataItemBytes(chunks: seq<bytes>)
    ensures ItemBytes(DataItems(chunks)) == Concat(chunks)
    ensures forall i :: i in DataItems(chunks) ==> i.Data?
  {
    if chunks == [] {
    } else {
      var cs, c := chunks[..|chunks| - 1], chunks[|chunks| - 1];
      DataItemBytes(cs);
      ConcatSnoc(cs, c);
      assert chunks == cs + [c];
      var items := DataItems(chunks);
      assert items[..|items| - 1] == DataItems(cs);
    }
  }

  /**
   In every run, errors or not: what the queue of a registered tunnel holds and what is in flight for it carry
   the bytes its task has read, in order and all of them. On a tunnel without an error whose websocket did not
   close they are just these chunks and, once EOF was read, the end marker and nothing more.
   */
  lemma TunnelDelivers(steps: seq<Step>, token: bytes)
    ensures var s := Run(Initial(), steps);
            token in s.tasks && token in s.queues ==>
              ItemBytes(s.queues[token]) + ItemBytes(WireItems(s.wire, token)) == Concat(s.tasks[token].chunks)
    ensures var s := Run(Initial(), steps);
            token in s.tasks && !SaysErr(s.tasks[token].trace) && token in s.queues && Closings(s, token) == 0 ==>
              var c := s.tasks[token];
              && s.queues[token] + WireItems(s.wire, token)
                 == DataItems(c.chunks) + (if c.task.AtEof? then [Ended] else [])
              && ItemBytes(DataItems(c.chunks)) == Concat(c.chunks)
              && (WireItems(s.wire, token) == [] && c.task.AtEof? ==>
                    && s.queues[token] != [] && s.queues[token][|s.queues[token]| - 1] == Ended
                    && ItemBytes(s.queues[token][..|s.queues[token]| - 1]) == Concat(c.chunks)
                    && Ended !in s.queues[token][..|s.queues[token]| - 1])
  {
    hide Run, WireItems, DataItems, ItemBytes, Scan, Ends, DataOf, EndingReplies, Recorded, SaysErr, TraceItems;
    RunIsGood(steps, token);
    var s := Run(Initial(), steps);
    if token in s.tasks && !SaysErr(s.tasks[token].trace) && token in s.queues && Closings(s, token) == 0 {
      var c := s.tasks[token];
      DataItemBytes(c.chunks);
      if WireItems(s.wire, token) == [] && c.task.AtEof? {
        assert s.queues[token] == s.queues[token] + WireItems(s.wire, token);
        assert s.queues[token][..|s.queues[token]| - 1] == DataItems(c.chunks);
      }
    }
  }
}
