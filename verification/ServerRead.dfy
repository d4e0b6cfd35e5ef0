/**
 The read side of a listening server: frames from the agent, dispatched by connection token to the
 queues of many readers, under any schedule of calls.
 */
module ServerRead {
  import opened Bytes
  import opened Reader
  import Chunker
  import Wire
  import Frames

  /** A connection's reader and the calls that wait for its lock, the holder first. */
  datatype Conn = Conn(reader: State, waiting: seq<Call>)

  /** A call that returned, what its reader had at hand when it did, and what it returned. */
  datatype Answer = Answer(call: Call, hand: bytes, data: bytes)

  /**
   `wire` is what the agent sent and the client has not received, `up` whether the receiving task still
   runs. The rest is recorded per connection token: in `sent` the bytes the agent sent, in `inbox` an item for
   every frame received and for every close of the server since the first one, in `taken` the items the calls
   took from the queue, in `returned` the bytes they returned, in `answers` every call that returned.
   */
  datatype System = System(wire: seq<bytes>, up: bool, conns: map<bytes, Conn>,
                           sent: map<bytes, bytes>, inbox: map<bytes, seq<Item>>, taken: map<bytes, seq<Item>>,
                           returned: map<bytes, bytes>, answers: map<bytes, seq<Answer>>)

  function Initial(): System {
    System([], true, map[], map[], map[], map[], map[], map[])
  }

  datatype Step =
    | AgentSends(m: Wire.Message)
    | Receive
    | StartCall(ct: bytes, c: Call)
    | ResumeCall(ct: bytes)
    | CancelCall(ct: bytes, i: nat)
    | CloseWriter(ct: bytes)
    | CloseServer

  function At<T>(m: map<bytes, seq<T>>, ct: bytes): seq<T> {
    if ct in m then m[ct] else []
  }

  // ---- dispatch ----

  /** handle_new_msg: an unknown token opens a connection, and its first payload is queued unless empty. */
  function Dispatch(conns: map<bytes, Conn>, ct: bytes, data: bytes): map<bytes, Conn> {
    if ct !in conns then
      conns[ct := Conn(State([], if data != [] then [Data(data)] else [], false), [])]
    else
      var k := conns[ct];
      conns[ct := k.(reader := k.reader.(queue := k.reader.queue + [Data(data)]))]
  }

  /** What a frame is to the receiving task: data, the end of the task, or nothing. */
  datatype Kind = ForConnection(ct: bytes, data: bytes) | Ending | Other

  /** OK, ERR and undecodable frames end the task. */
  function KindOf(f: bytes): Kind {
    match Wire.DecodeBytes(f)
    case Some(ServerSocketData(_, ct, data, _, _)) => ForConnection(ct, data)
    case Some(OK(_, _)) => Ending
    case Some(Err(_, _, _)) => Ending
    case Some(_) => Other
    case None => Ending
  }

  /** One pass of __handle_in. */
  function Receives(s: System): System {
    if !s.up || s.wire == [] then s
    else
      var t := s.(wire := s.wire[1..]);
      match KindOf(s.wire[0])
      case ForConnection(ct, data) =>
        t.(conns := Dispatch(s.conns, ct, data), inbox := s.inbox[ct := At(s.inbox, ct) + [Data(data)]])
      case Ending => t.(up := false)
      case Other => t
  }

  // ---- calls ----

  /** The buffer or, when that is empty, the first payload. */
  function AtHand(r: State): bytes {
    if r.buffer == [] && r.queue != [] && r.queue[0].Data? then r.queue[0].payload else r.buffer
  }

  /** What is missing at the front of a queue. */
  function Gone(before: seq<Item>, after: seq<Item>): seq<Item> {
    if |after| < |before| then before[..|before| - |after|] else []
  }

  /**
   An outcome of a call by the holder of the lock, or by one that is refused before it: the reader it leaves and
   the history of the connection.
   */
  function Finish(s: System, ct: bytes, r: State, c: Call, hand: bytes, o: Outcome, waiting: seq<Call>): System
    requires ct in s.conns
  {
    s.(conns := s.conns[ct := Conn(r, waiting)],
       taken := s.taken[ct := At(s.taken, ct) + Gone(s.conns[ct].reader.queue, r.queue)],
       returned := s.returned[ct := At(s.returned, ct) + Given(o)],
       answers := if o.Returned? then s.answers[ct := At(s.answers, ct) + [Answer(c, hand, o.data)]] else s.answers)
  }

  /** A call checks and then takes the lock; behind another call it waits for it. */
  function Starts(s: System, ct: bytes, c: Call): System {
    if ct !in s.conns then s
    else
      var k := s.conns[ct];
      if k.waiting != [] && !k.reader.closed && !(c.ReadExactly? && c.n < 1) then
        s.(conns := s.conns[ct := k.(waiting := k.waiting + [c])])
      else
        var (r, o) := Begin(k.reader, c);
        Finish(s, ct, r, c, if k.reader.closed then [] else AtHand(k.reader), o,
               if o.Blocked? then k.waiting + [c] else k.waiting)
  }

  function Resumes(s: System, ct: bytes): System {
    if ct !in s.conns || s.conns[ct].waiting == [] then s
    else
      var k := s.conns[ct];
      var (r, o) := Resume(k.reader, k.waiting[0]);
      Finish(s, ct, r, k.waiting[0], AtHand(k.reader), o, if o.Blocked? then k.waiting else k.waiting[1..])
  }

  function Exec(s: System, step: Step): System {
    match step
    case AgentSends(m) =>
      if !Frames.WellFormed(m) || Wire.EncodeFrame(m).None? then s
      else
        var t := s.(wire := s.wire + [Wire.EncodeFrame(m).value]);
        if m.ServerSocketData? then
          t.(sent := s.sent[m.connectiontoken := At(s.sent, m.connectiontoken) + m.data])
        else t
    case Receive => Receives(s)
    case StartCall(ct, c) => Starts(s, ct, c)
    case ResumeCall(ct) => Resumes(s, ct)
    case CancelCall(ct, i) =>
      if ct !in s.conns || i >= |s.conns[ct].waiting| then s
      else
        var k := s.conns[ct];
        s.(conns := s.conns[ct := k.(waiting := k.waiting[..i] + k.waiting[i + 1..])])
    case CloseWriter(ct) =>
      if ct !in s.conns then s
      else s.(conns := s.conns[ct := s.conns[ct].(reader := s.conns[ct].reader.(closed := true))])
    case CloseServer =>
      s.(conns := map ct | ct in s.conns :: Faulted(s.conns[ct]),
         inbox := map ct | ct in s.conns :: At(s.inbox, ct) + [Fault])
  }

  function Faulted(k: Conn): Conn {
    k.(reader := k.reader.(queue := k.reader.queue + [Fault]))
  }

  function Run(s: System, steps: seq<Step>): System
    decreases |steps|
  {
    if steps == [] then s else Run(Exec(s, steps[0]), steps[1..])
  }

  // ---- the invariant ----

  /** The payload a frame carries for a connection. */
  function PayloadFor(f: bytes, ct: bytes): bytes {
    match KindOf(f)
    case ForConnection(c, data) => if c == ct then data else []
    case _ => []
  }

  function InFlight(wire: seq<bytes>, ct: bytes): bytes {
    if wire == [] then [] else PayloadFor(wire[0], ct) + InFlight(wire[1..], ct)
  }

  function HeldBy(conns: map<bytes, Conn>, ct: bytes): bytes {
    if ct in conns then Held(conns[ct].reader) else []
  }

  /** Returned, then buffered and queued, then in flight: exactly what was sent, in order. */
  predicate Accounted(s: System, ct: bytes) {
    At(s.returned, ct) + HeldBy(s.conns, ct) + InFlight(s.wire, ct) == At(s.sent, ct)
  }

  /** All bytes that have arrived for a connection, in order. */
  function Arrived(s: System, ct: bytes): bytes {
    At(s.returned, ct) + HeldBy(s.conns, ct)
  }

  function Results(answers: seq<Answer>): (r: seq<bytes>)
    ensures |r| == |answers|
  {
    if answers == [] then [] else Results(answers[..|answers| - 1]) + [answers[|answers| - 1].data]
  }

  function Needs(answers: seq<Answer>): (r: seq<Need>)
    ensures |r| == |answers|
  {
    if answers == [] then []
    else Needs(answers[..|answers| - 1]) + [NeedOf(answers[|answers| - 1].call, answers[|answers| - 1].data)]
  }

  lemma AnswersSnoc(answers: seq<Answer>, a: Answer)
    ensures Results(answers + [a]) == Results(answers) + [a.data]
    ensures Needs(answers + [a]) == Needs(answers) + [NeedOf(a.call, a.data)]
  {
    assert (answers + [a])[..|answers|] == answers;
  }

  lemma {:induction false} AnswersAt(answers: seq<Answer>, i: nat)
    requires i < |answers|
    ensures Results(answers)[i] == answers[i].data && Needs(answers)[i] == NeedOf(answers[i].call, answers[i].data)
    ensures Results(answers)[..i] == Results(answers[..i])
    decreases |answers|
  {
    var n := |answers| - 1;
    if i < n {
      AnswersAt(answers[..n], i);
      assert answers[..n][..i] == answers[..i];
      assert Results(answers)[..i] == Results(answers[..n])[..i];
    } else {
      assert Results(answers)[..n] == Results(answers[..n]);
    }
  }

  /** The results of the completed calls are those on the plain stream of what has arrived. */
  predicate Flat(s: System, ct: bytes) {
    var answers := At(s.answers, ct);
    && Concat(Results(answers)) == At(s.returned, ct)
    && FlatResults(Arrived(s, ct), Needs(answers)) == Results(answers)
  }

  /** What a call that returned gave of what was at hand; of the others their results say it. */
  predicate Explained(a: Answer) {
    match a.call
    case Read(n) =>
      && (n == -1 ==> a.data == a.hand)
      && (n >= 0 ==> a.data == a.hand[..Min(n, |a.hand|)])
      && (n < -1 ==> a.data == a.hand[..if -n <= |a.hand| then |a.hand| + n else 0])
    case ReadExactly(n) => n >= 1
    case ReadUntil(_) => true
  }

  /** What was at hand for a call came next. */
  predicate InPlace(s: System, ct: bytes, i: nat)
    requires i < |At(s.answers, ct)|
  {
    Concat(Results(At(s.answers, ct)[..i])) + At(s.answers, ct)[i].hand <= Arrived(s, ct)
  }

  predicate Answered(s: System, ct: bytes) {
    forall i: nat :: i < |At(s.answers, ct)| ==> Explained(At(s.answers, ct)[i]) && InPlace(s, ct, i)
  }

  /** The items of a connection from its first frame on: only an empty first payload is not queued. */
  function Opened(items: seq<Item>): seq<Item> {
    if items != [] && items[0] == Data([]) then items[1..] else items
  }

  /** What was taken from the queue and what is in it are the items received. */
  predicate Queued(s: System, ct: bytes) {
    && (ct in s.conns <==> ct in s.inbox)
    && (ct !in s.conns ==> At(s.taken, ct) == [])
    && (ct in s.conns ==>
          s.inbox[ct] != [] && Opened(s.inbox[ct]) == At(s.taken, ct) + s.conns[ct].reader.queue)
  }

  predicate Consistent(s: System, ct: bytes) {
    Accounted(s, ct) && Flat(s, ct) && Answered(s, ct) && Queued(s, ct)
  }

  lemma {:induction false} InFlightAppend(wire: seq<bytes>, f: bytes, ct: bytes)
    ensures InFlight(wire + [f], ct) == InFlight(wire, ct) + PayloadFor(f, ct)
  {
    hide PayloadFor;
    if wire == [] {
      assert InFlight([f][1..], ct) == [];
      assert PayloadFor(f, ct) + [] == [] + PayloadFor(f, ct);
    } else {
      InFlightAppend(wire[1..], f, ct);
      assert (wire + [f])[1..] == wire[1..] + [f];
      assert PayloadFor(wire[0], ct) + (InFlight(wire[1..], ct) + PayloadFor(f, ct))
          == PayloadFor(wire[0], ct) + InFlight(wire[1..], ct) + PayloadFor(f, ct);
    }
  }

  lemma SentPayload(m: Wire.Message, ct: bytes)
    requires Frames.WellFormed(m) && Wire.EncodeFrame(m).Some?
    ensures PayloadFor(Wire.EncodeFrame(m).value, ct)
         == if m.ServerSocketData? && m.connectiontoken == ct then m.data else []
  {
    hide Wire.EncodeFrame, Wire.DecodeBytes, Frames.WellFormed;
    Frames.BytesRoundTrip(m);
  }

  /** Bytes that arrive change nothing of the results there are. */
  lemma ArrivalKeeps(s: System, t: System, data: bytes, ct: bytes)
    requires Flat(s, ct) && Answered(s, ct)
    requires At(t.returned, ct) == At(s.returned, ct) && At(t.answers, ct) == At(s.answers, ct)
    requires HeldBy(t.conns, ct) == HeldBy(s.conns, ct) + data
    ensures Flat(t, ct) && Answered(t, ct)
  {
    hide HeldBy, FlatResults, Concat, Results, Needs, Explained;
    assert Arrived(t, ct) == Arrived(s, ct) + data;
    FlatExtends(Arrived(s, ct), data, Needs(At(s.answers, ct)));
    forall i: nat | i < |At(t.answers, ct)| ensures Explained(At(t.answers, ct)[i]) && InPlace(t, ct, i) {
      assert InPlace(s, ct, i);
    }
  }

  /** A step that leaves the readers and their history alone. */
  lemma SameHistory(s: System, t: System, ct: bytes)
    requires Flat(s, ct) && Answered(s, ct)
    requires At(t.returned, ct) == At(s.returned, ct) && At(t.answers, ct) == At(s.answers, ct)
    requires HeldBy(t.conns, ct) == HeldBy(s.conns, ct)
    ensures Flat(t, ct) && Answered(t, ct)
  {
    hide HeldBy, Flat, Answered;
    assert HeldBy(s.conns, ct) + [] == HeldBy(s.conns, ct);
    ArrivalKeeps(s, t, [], ct);
  }

  lemma SameQueues(s: System, t: System, ct: bytes)
    requires Queued(s, ct) && t.conns == s.conns && t.inbox == s.inbox && t.taken == s.taken
    ensures Queued(t, ct)
  {}

  /** What the agent's sending changes. */
  lemma SendEffect(s: System, m: Wire.Message, ct: bytes)
    ensures var t := Exec(s, AgentSends(m));
            && t == s.(wire := t.wire, sent := t.sent)
            && (if Frames.WellFormed(m) && Wire.EncodeFrame(m).Some? then
                  && t.wire == s.wire + [Wire.EncodeFrame(m).value]
                  && At(t.sent, ct) == At(s.sent, ct) +
                       (if m.ServerSocketData? && m.connectiontoken == ct then m.data else [])
                else t == s)
  {
    hide Wire.EncodeFrame, Frames.WellFormed, Receives, Starts, Resumes, Faulted;
  }

  lemma SendKeeps(s: System, m: Wire.Message, ct: bytes)
    requires Consistent(s, ct)
    ensures Consistent(Exec(s, AgentSends(m)), ct)
  {
    hide Flat, Answered, Queued, Exec, Wire.EncodeFrame, Frames.WellFormed, PayloadFor, InFlight, HeldBy;
    var t := Exec(s, AgentSends(m));
    SendEffect(s, m, ct);
    SameHistory(s, t, ct);
    SameQueues(s, t, ct);
    if Frames.WellFormed(m) && Wire.EncodeFrame(m).Some? {
      SentPayload(m, ct);
      InFlightAppend(s.wire, Wire.EncodeFrame(m).value, ct);
    }
  }

  lemma QueueOne(data: bytes)
    ensures Payloads([Data(data)]) == data && Payloads([]) == []
  {
    assert Payloads([Data(data)]) == data + Payloads([Data(data)][1..]);
  }

  lemma DispatchHolds(conns: map<bytes, Conn>, c: bytes, data: bytes, ct: bytes)
    ensures HeldBy(Dispatch(conns, c, data), ct) == HeldBy(conns, ct) + if c == ct then data else []
  {
    hide Payloads;
    if c == ct {
      QueueOne(data);
      if ct in conns {
        var r := conns[ct].reader;
        PayloadsAppend(r.queue, [Data(data)]);
        assert r.buffer + (Payloads(r.queue) + data) == r.buffer + Payloads(r.queue) + data;
      }
    }
  }

  lemma ReceiveKeeps(s: System, ct: bytes)
    requires Consistent(s, ct)
    ensures Consistent(Receives(s), ct)
  {
    hide KindOf, HeldBy, Receives, PayloadFor, Flat, Answered, Queued, InFlight;
    if s.up && s.wire != [] {
      var t, data := Receives(s), PayloadFor(s.wire[0], ct);
      ReceiveHolds(s, ct);
      InFlightHead(s.wire, ct);
      assert HeldBy(s.conns, ct) + (data + InFlight(s.wire[1..], ct))
          == HeldBy(s.conns, ct) + data + InFlight(s.wire[1..], ct);
      ArrivalKeeps(s, t, data, ct);
      ReceiveQueues(s, ct);
    } else {
      NothingReceived(s);
    }
  }

  lemma NothingReceived(s: System)
    requires !s.up || s.wire == []
    ensures Receives(s) == s
  {}

  lemma InFlightHead(wire: seq<bytes>, ct: bytes)
    requires wire != []
    ensures InFlight(wire, ct) == PayloadFor(wire[0], ct) + InFlight(wire[1..], ct)
  {
    hide PayloadFor;
  }

  /** A frame received is held by the connection it is for. */
  lemma ReceiveHolds(s: System, ct: bytes)
    requires s.up && s.wire != []
    ensures var t := Receives(s);
            && HeldBy(t.conns, ct) == HeldBy(s.conns, ct) + PayloadFor(s.wire[0], ct)
            && t == s.(wire := s.wire[1..], up := t.up, conns := t.conns, inbox := t.inbox)
  {
    hide KindOf, HeldBy, Dispatch;
    match KindOf(s.wire[0])
    case ForConnection(c, data) => DispatchHolds(s.conns, c, data, ct);
    case _ =>
  }

  /** And it is queued, but for an empty first one. */
  lemma ReceiveQueues(s: System, ct: bytes)
    requires Queued(s, ct) && s.up && s.wire != []
    ensures Queued(Receives(s), ct)
  {
    hide KindOf, Opened;
    var kind := KindOf(s.wire[0]);
    if kind.ForConnection? && kind.ct == ct {
      OwnQueued(s, ct, kind.data);
    }
  }

  lemma OwnQueued(s: System, ct: bytes, data: bytes)
    requires Queued(s, ct)
    ensures Queued(s.(conns := Dispatch(s.conns, ct, data), inbox := s.inbox[ct := At(s.inbox, ct) + [Data(data)]]), ct)
  {
    hide Opened;
    var x := Data(data);
    if ct in s.conns {
      OpenedSnoc(s.inbox[ct], x);
      var taken, queue := At(s.taken, ct), s.conns[ct].reader.queue;
      assert taken + queue + [x] == taken + (queue + [x]);
    } else {
      OpenedOne(x);
      assert [] + [x] == [x];
    }
  }

  lemma OpenedOne(x: Item)
    ensures Opened([x]) == if x == Data([]) then [] else [x]
  {}

  lemma OpenedSnoc(items: seq<Item>, x: Item)
    requires items != []
    ensures Opened(items + [x]) == Opened(items) + [x]
  {
    assert (items + [x])[1..] == items[1..] + [x];
  }

  /** What a call did to its reader, as far as the history depends on it. */
  predicate Sound(was: State, now: State, c: Call, hand: bytes, o: Outcome) {
    && Given(o) + Held(now) == Held(was)
    && |now.queue| <= |was.queue| && now.queue == was.queue[|was.queue| - |now.queue|..]
    && (o.Returned? ==>
          var need := NeedOf(c, o.data);
          && Ready(need, Held(was)) && o.data == Held(was)[..Cut(need, Held(was))]
          && Explained(Answer(c, hand, o.data)) && hand <= Held(was))
  }

  lemma HandIsHeld(r: State)
    ensures AtHand(r) <= Held(r)
  {}

  lemma ResumeIsSound(r: State, c: Call)
    ensures var (t, o) := Resume(r, c); Sound(r, t, c, AtHand(r), o)
  {
    hide Resume, Held, Ready, Cut;
    CallConserves(r, c);
    CallTakesLeast(r, c);
    HandIsHeld(r);
    if Resume(r, c).1.Returned? {
      AnswerIsCut(r, c, Resume(r, c).1);
      ResumeExplains(r, c);
    }
  }

  lemma ResumeExplains(r: State, c: Call)
    requires Resume(r, c).1.Returned?
    ensures Explained(Answer(c, AtHand(r), Resume(r, c).1.data))
  {
    hide Await, AwaitSome;
    if c.Read? {
      if r.buffer == [] {
        ReadWaits(r, c.n);
      }
      ReadGives(r, c.n, AtHand(r));
    }
  }

  lemma BeginIsSound(r: State, c: Call)
    ensures var (t, o) := Begin(r, c); Sound(r, t, c, if r.closed then [] else AtHand(r), o)
  {
    hide Resume, Held;
    RefusedCalls(r, c);
    if r.closed {
      assert r.queue[0..] == r.queue;
      assert Given(Begin(r, c).1) + Held(r) == Held(r);
    } else {
      ResumeIsSound(r, c);
    }
  }

  lemma FinishKeeps(s: System, c: bytes, r: State, call: Call, hand: bytes, o: Outcome, waiting: seq<Call>, ct: bytes)
    requires Consistent(s, ct) && c in s.conns && Sound(s.conns[c].reader, r, call, hand, o)
    ensures Consistent(Finish(s, c, r, call, hand, o, waiting), ct)
  {
    hide Flat, Answered, Queued, Sound, Held, InFlight, Finish;
    var t := Finish(s, c, r, call, hand, o, waiting);
    FinishArrives(s, c, r, call, hand, o, waiting, ct);
    FinishIsFlat(s, c, r, call, hand, o, waiting, ct);
    FinishIsAnswered(s, c, r, call, hand, o, waiting, ct);
    FinishQueues(s, c, r, call, hand, o, waiting, ct);
  }

  /** A call moves bytes from what is held to what was returned. */
  lemma FinishArrives(s: System, c: bytes, r: State, call: Call, hand: bytes, o: Outcome,
                      waiting: seq<Call>, ct: bytes)
    requires c in s.conns && Sound(s.conns[c].reader, r, call, hand, o)
    ensures var t := Finish(s, c, r, call, hand, o, waiting);
            Arrived(t, ct) == Arrived(s, ct) && t.wire == s.wire && t.sent == s.sent
  {
    hide Held, Given, Ready, Cut, Explained;
    if c == ct {
      assert At(s.returned, ct) + Given(o) + Held(r) == At(s.returned, ct) + (Given(o) + Held(r));
    }
  }

  /** A result is recorded behind the others, cut off what they have left. */
  lemma FinishIsFlat(s: System, c: bytes, r: State, call: Call, hand: bytes, o: Outcome, waiting: seq<Call>, ct: bytes)
    requires Flat(s, ct) && c in s.conns && Sound(s.conns[c].reader, r, call, hand, o)
    ensures Flat(Finish(s, c, r, call, hand, o, waiting), ct)
  {
    hide Held, NeedOf, FlatResults, Ready, Cut, Concat, Explained, Results, Needs, Arrived;
    FinishArrives(s, c, r, call, hand, o, waiting, ct);
    if c == ct && o.Returned? {
      var answers, held := At(s.answers, ct), Held(s.conns[c].reader);
      HeldIsRest(s, ct);
      AnswersSnoc(answers, Answer(call, hand, o.data));
      FlatSnoc(Results(answers), held, Needs(answers), NeedOf(call, o.data));
      ConcatSnoc(Results(answers), o.data);
    }
  }

  lemma HeldIsRest(s: System, ct: bytes)
    requires ct in s.conns
    ensures Arrived(s, ct) == At(s.returned, ct) + Held(s.conns[ct].reader)
  {
    hide Held;
  }

  lemma FinishIsAnswered(s: System, c: bytes, r: State, call: Call, hand: bytes, o: Outcome,
                         waiting: seq<Call>, ct: bytes)
    requires Flat(s, ct) && Answered(s, ct) && c in s.conns && Sound(s.conns[c].reader, r, call, hand, o)
    ensures Answered(Finish(s, c, r, call, hand, o, waiting), ct)
  {
    hide Held, NeedOf, FlatResults, Ready, Cut, Concat, Explained, Results, Needs, Arrived;
    var t := Finish(s, c, r, call, hand, o, waiting);
    FinishArrives(s, c, r, call, hand, o, waiting, ct);
    var answers, all := At(s.answers, ct), At(t.answers, ct);
    forall i: nat | i < |all| ensures Explained(all[i]) && InPlace(t, ct, i) {
      if i < |answers| {
        assert InPlace(s, ct, i) && all[..i] == answers[..i];
      } else {
        HeldIsRest(s, ct);
        assert all[..i] == answers;
      }
    }
  }

  lemma FinishQueues(s: System, c: bytes, r: State, call: Call, hand: bytes, o: Outcome, waiting: seq<Call>, ct: bytes)
    requires Queued(s, ct) && c in s.conns && Sound(s.conns[c].reader, r, call, hand, o)
    ensures Queued(Finish(s, c, r, call, hand, o, waiting), ct)
  {
    hide Held, NeedOf, Ready, Cut, Explained, Opened;
    if c == ct {
      var was := s.conns[c].reader.queue;
      assert Gone(was, r.queue) + r.queue == was;
      assert At(s.taken, ct) + Gone(was, r.queue) + r.queue == At(s.taken, ct) + was;
    }
  }

  lemma StartKeeps(s: System, c: bytes, call: Call, ct: bytes)
    requires Consistent(s, ct)
    ensures Consistent(Starts(s, c, call), ct)
  {
    hide Begin, Finish, Consistent, Sound;
    if c in s.conns {
      var k := s.conns[c];
      if k.waiting != [] && !k.reader.closed && !(call.ReadExactly? && call.n < 1) {
        WaitingKeeps(s, c, k.waiting + [call], ct);
      } else {
        var (r, o) := Begin(k.reader, call);
        BeginIsSound(k.reader, call);
        FinishKeeps(s, c, r, call, if k.reader.closed then [] else AtHand(k.reader), o,
            if o.Blocked? then k.waiting + [call] else k.waiting, ct);
      }
    }
  }

  lemma ResumeKeeps(s: System, c: bytes, ct: bytes)
    requires Consistent(s, ct)
    ensures Consistent(Resumes(s, c), ct)
  {
    hide Resume, Finish, Consistent, Sound;
    if c in s.conns && s.conns[c].waiting != [] {
      var k := s.conns[c];
      var (r, o) := Resume(k.reader, k.waiting[0]);
      ResumeIsSound(k.reader, k.waiting[0]);
      FinishKeeps(s, c, r, k.waiting[0], AtHand(k.reader), o, if o.Blocked? then k.waiting else k.waiting[1..], ct);
    }
  }

  /** Who waits for the lock is no matter. */
  lemma WaitingKeeps(s: System, c: bytes, waiting: seq<Call>, ct: bytes)
    requires Consistent(s, ct) && c in s.conns
    ensures Consistent(s.(conns := s.conns[c := s.conns[c].(waiting := waiting)]), ct)
  {
    hide Held, InFlight, Flat, Answered, Opened;
    SameHistory(s, s.(conns := s.conns[c := s.conns[c].(waiting := waiting)]), ct);
  }

  lemma FaultHoldsNothing(k: Conn)
    ensures Held(Faulted(k).reader) == Held(k.reader)
  {
    PayloadsAppend(k.reader.queue, [Fault]);
    assert Payloads([Fault]) == [] + Payloads([Fault][1..]);
  }

  /** What the close of the server changes: every queue gets a fault. */
  lemma CloseServerEffect(s: System, ct: bytes)
    ensures var t := Exec(s, CloseServer);
            && t == s.(conns := t.conns, inbox := t.inbox)
            && (ct in t.conns <==> ct in s.conns) && (ct in t.inbox <==> ct in s.conns)
            && (ct in s.conns ==>
                  t.conns[ct] == Faulted(s.conns[ct]) && t.inbox[ct] == At(s.inbox, ct) + [Fault])
  {
    hide Receives, Starts, Resumes, Faulted;
  }

  lemma CloseServerKeeps(s: System, ct: bytes)
    requires Consistent(s, ct)
    ensures Consistent(Exec(s, CloseServer), ct)
  {
    hide InFlight, Held, Flat, Answered, Opened, Exec;
    var t := Exec(s, CloseServer);
    CloseServerEffect(s, ct);
    if ct in s.conns {
      FaultHoldsNothing(s.conns[ct]);
      OpenedSnoc(s.inbox[ct], Fault);
      var taken, queue := At(s.taken, ct), s.conns[ct].reader.queue;
      assert taken + queue + [Fault] == taken + (queue + [Fault]);
    }
    SameHistory(s, t, ct);
  }

  /** What the close of a writer changes: its reader is closed. */
  lemma CloseEffect(s: System, c: bytes, ct: bytes)
    ensures var t := Exec(s, CloseWriter(c));
            && t == s.(conns := t.conns) && HeldBy(t.conns, ct) == HeldBy(s.conns, ct)
            && (ct in t.conns <==> ct in s.conns)
            && (ct in s.conns ==> t.conns[ct].reader.queue == s.conns[ct].reader.queue)
            && (ct in s.conns && c == ct ==> t.conns[ct].reader.closed)
            && (ct in s.conns && c != ct ==> t.conns[ct] == s.conns[ct])
  {
    hide Held, Receives, Starts, Resumes, Faulted;
    if c in s.conns {
      ClosingHolds(s.conns[c].reader);
    }
  }

  lemma ClosingHolds(r: State)
    ensures Held(r.(closed := true)) == Held(r)
  {}

  lemma CloseKeeps(s: System, c: bytes, ct: bytes)
    requires Consistent(s, ct)
    ensures Consistent(Exec(s, CloseWriter(c)), ct)
  {
    hide InFlight, Flat, Answered, Opened, Exec, HeldBy;
    CloseEffect(s, c, ct);
    SameHistory(s, Exec(s, CloseWriter(c)), ct);
  }

  lemma StepKeeps(s: System, step: Step, ct: bytes)
    requires Consistent(s, ct)
    ensures Consistent(Exec(s, step), ct)
  {
    hide Consistent, Receives, Starts, Resumes;
    match step
    case AgentSends(m) => SendKeeps(s, m, ct);
    case Receive => ReceiveKeeps(s, ct);
    case StartCall(c, call) => StartKeeps(s, c, call, ct);
    case ResumeCall(c) => ResumeKeeps(s, c, ct);
    case CancelCall(c, i) =>
      if c in s.conns && i < |s.conns[c].waiting| {
        WaitingKeeps(s, c, s.conns[c].waiting[..i] + s.conns[c].waiting[i + 1..], ct);
      }
    case CloseWriter(c) => CloseKeeps(s, c, ct);
    case CloseServer => CloseServerKeeps(s, ct);
  }

  lemma {:induction false} RunKeeps(s: System, steps: seq<Step>, ct: bytes)
    requires Consistent(s, ct)
    ensures Consistent(Run(s, steps), ct)
    decreases |steps|
  {
    hide Consistent, Exec;
    if steps == [] {
    } else {
      StepKeeps(s, steps[0], ct);
      RunKeeps(Exec(s, steps[0]), steps[1..], ct);
    }
  }

  lemma RunIsGood(steps: seq<Step>, ct: bytes)
    ensures Consistent(Run(Initial(), steps), ct)
  {
    hide Run;
    RunKeeps(Initial(), steps, ct);
  }

  // ---- theorems ----

  /**
   In every reachable state and for every connection: what its calls returned, what its reader holds and
   what is in flight for it are the payloads the agent sent for it, in order, and nothing else.
   */
  lemma ReadSideConservation(steps: seq<Step>, ct: bytes)
    ensures var s := Run(Initial(), steps);
            && At(s.returned, ct) + HeldBy(s.conns, ct) + InFlight(s.wire, ct) == At(s.sent, ct)
            && At(s.returned, ct) <= At(s.sent, ct)
  {
    hide Run, Flat, Answered;
    RunIsGood(steps, ct);
  }

  /**
   In every run, whatever arrives between and during calls and however often they are suspended, refused
   or given up: the results of the calls a connection has completed are those of the same calls on the
   plain stream of the bytes that have arrived, and on that of all the bytes the agent has sent.
   */
  lemma ResultsAreFlat(steps: seq<Step>, ct: bytes)
    ensures var s := Run(Initial(), steps);
            var answers := At(s.answers, ct);
            && Concat(Results(answers)) == At(s.returned, ct)
            && Results(answers) == FlatResults(Arrived(s, ct), Needs(answers))
            && Results(answers) == FlatResults(At(s.sent, ct), Needs(answers))
  {
    hide Run, FlatResults, InFlight, HeldBy, Answered, Results, Needs;
    RunIsGood(steps, ct);
    var s := Run(Initial(), steps);
    FlatExtends(Arrived(s, ct), InFlight(s.wire, ct), Needs(At(s.answers, ct)));
  }

  /**
   In every run a completed readuntil, suspended before or not, returned exactly through the first occurrence
   of its separator in what the calls before it had left of the agent's bytes.
   */
  lemma UntilResults(steps: seq<Step>, ct: bytes, i: nat)
    requires var s := Run(Initial(), steps); i < |At(s.answers, ct)| && At(s.answers, ct)[i].call.ReadUntil?
    ensures var s := Run(Initial(), steps);
            var a, before := At(s.answers, ct)[i], Concat(Results(At(s.answers, ct)[..i]));
            && before <= At(s.sent, ct)
            && var left, sep := At(s.sent, ct)[|before|..], a.call.sep;
               && a.data <= left && OccursAt(left, sep, |a.data| - |sep|)
               && forall j :: 0 <= j < |a.data| - |sep| ==> !OccursAt(left, sep, j)
  {
    hide Run, FlatResults, OccursAt, Results, Needs, Concat;
    ResultsAreFlat(steps, ct);
    var s := Run(Initial(), steps);
    AnswersAt(At(s.answers, ct), i);
    FlatResultsMean(At(s.sent, ct), Needs(At(s.answers, ct)), i);
    FlatUntilIsFirst(At(s.sent, ct), Needs(At(s.answers, ct)), i);
  }

  /** In every run a completed readexactly returned the next n bytes of what the agent sent. */
  lemma ExactlyResults(steps: seq<Step>, ct: bytes, i: nat)
    requires var s := Run(Initial(), steps); i < |At(s.answers, ct)| && At(s.answers, ct)[i].call.ReadExactly?
    ensures var s := Run(Initial(), steps);
            var a, before := At(s.answers, ct)[i], Concat(Results(At(s.answers, ct)[..i]));
            |a.data| == a.call.n && before + a.data <= At(s.sent, ct)
  {
    hide Run, FlatResults, Results, Needs, Concat, InFlight, HeldBy;
    ResultsAreFlat(steps, ct);
    RunIsGood(steps, ct);
    var s := Run(Initial(), steps);
    assert Explained(At(s.answers, ct)[i]);
    AnswersAt(At(s.answers, ct), i);
    FlatResultsMean(At(s.sent, ct), Needs(At(s.answers, ct)), i);
  }

  /**
   In every run a completed read, suspended before or not, gave of what was at hand, which is what the agent
   sent next: all of it for -1, up to n bytes for n from 0 up, and all but the last -n bytes below -1.
   */
  lemma ReadResults(steps: seq<Step>, ct: bytes, i: nat)
    requires var s := Run(Initial(), steps); i < |At(s.answers, ct)| && At(s.answers, ct)[i].call.Read?
    ensures var s := Run(Initial(), steps);
            var a, before := At(s.answers, ct)[i], Concat(Results(At(s.answers, ct)[..i]));
            var n := a.call.n;
            && before + a.hand <= At(s.sent, ct)
            && (n == -1 ==> a.data == a.hand)
            && (n >= 0 ==> a.data == if n <= |a.hand| then a.hand[..n] else a.hand)
            && (n < -1 ==> a.data == if -n <= |a.hand| then a.hand[..|a.hand| + n] else [])
  {
    hide Run, Flat, Results, Concat, InFlight, HeldBy;
    RunIsGood(steps, ct);
    var s := Run(Initial(), steps);
    assert Explained(At(s.answers, ct)[i]) && InPlace(s, ct, i);
  }

  /** A read, begun or resumed, completes as soon as there is something at hand, and is on record with all of it. */
  lemma ReadCompletes(s: System, ct: bytes, n: int, b: bytes)
    requires ct in s.conns
    requires var r := s.conns[ct].reader;
             (r.buffer == b && b != []) || (r.buffer == [] && r.queue != [] && r.queue[0] == Data(b))
    ensures var k := s.conns[ct];
            var t, u := Starts(s, ct, Read(n)), Resumes(s, ct);
            && (!k.reader.closed && k.waiting == [] ==> t.conns[ct].waiting == [] && Gave(s, t, ct, Read(n), b))
            && (k.waiting != [] && k.waiting[0] == Read(n) ==>
                  u.conns[ct].waiting == k.waiting[1..] && Gave(s, u, ct, Read(n), b))
  {
    hide Resume, Begin, Gave, Finish;
    var k := s.conns[ct];
    ReadGives(k.reader, n, b);
    RefusedCalls(k.reader, Read(n));
    assert AtHand(k.reader) == b;
    var (r, o) := Resume(k.reader, Read(n));
    FinishGave(s, ct, r, Read(n), b, o, []);
    if k.waiting != [] {
      FinishGave(s, ct, r, Read(n), b, o, k.waiting[1..]);
    }
  }

  /** One more answer of a connection is on record, to a call that had `hand` at hand. */
  predicate Gave(s: System, t: System, ct: bytes, c: Call, hand: bytes) {
    var answers := At(t.answers, ct);
    && |answers| == |At(s.answers, ct)| + 1 && At(s.answers, ct) <= answers
    && answers[|answers| - 1].call == c && answers[|answers| - 1].hand == hand
  }

  lemma FinishGave(s: System, ct: bytes, r: State, c: Call, hand: bytes, o: Outcome, waiting: seq<Call>)
    requires ct in s.conns && o.Returned?
    ensures var t := Finish(s, ct, r, c, hand, o, waiting);
            Gave(s, t, ct, c, hand) && ct in t.conns && t.conns[ct].waiting == waiting
  {}

  /** A call on an open reader waits behind those that wait, and the one that goes on is the first of them. */
  lemma LockIsFair(s: System, ct: bytes, c: Call)
    requires ct in s.conns && s.conns[ct].waiting != [] && !s.conns[ct].reader.closed
    requires c.ReadExactly? ==> c.n >= 1
    ensures var k := s.conns[ct];
            var t := Resumes(s, ct);
            && Starts(s, ct, c) == s.(conns := s.conns[ct := Conn(k.reader, k.waiting + [c])])
            && (t.conns[ct].waiting == k.waiting || t.conns[ct].waiting == k.waiting[1..])
            && (t.answers == s.answers || Gave(s, t, ct, k.waiting[0], AtHand(k.reader)))
  {
    hide Resume;
  }

  /**
   In every run the items a connection's calls took and those in its queue are, in order, one for every frame
   received for it and one fault for every close of the server, from its first frame on; empty payloads are
   among them, save that of the first frame.
   */
  lemma OneItemPerFrame(steps: seq<Step>, ct: bytes)
    ensures var s := Run(Initial(), steps);
            && (ct in s.conns <==> ct in s.inbox)
            && (ct in s.conns ==>
                  var all := s.inbox[ct];
                  && all != []
                  && At(s.taken, ct) + s.conns[ct].reader.queue == if all[0] == Data([]) then all[1..] else all)
  {
    hide Run, Flat, Answered;
    RunIsGood(steps, ct);
  }

  /** A frame with data for a connection is on record and in its queue, and an OK, ERR or broken frame ends the task. */
  lemma ReceivedMeans(s: System, ct: bytes)
    requires s.up && s.wire != []
    ensures var t := Receives(s);
            match Wire.DecodeBytes(s.wire[0])
            case Some(ServerSocketData(_, c, data, _, _)) =>
              && t.up && At(t.inbox, c) == At(s.inbox, c) + [Data(data)]
              && (c != ct ==> At(t.inbox, ct) == At(s.inbox, ct))
            case Some(OK(_, _)) => t == s.(wire := s.wire[1..], up := false)
            case Some(Err(_, _, _)) => t == s.(wire := s.wire[1..], up := false)
            case Some(_) => t == s.(wire := s.wire[1..])
            case None => t == s.(wire := s.wire[1..], up := false)
  {
    hide Wire.DecodeBytes;
  }

  /** The end of the peer's data reaches a read that waits: an empty payload resumes it with no bytes. */
  lemma EmptyPayloadWakes(s: System, ct: bytes, token: bytes, ip: Wire.Address, port: int)
    requires s.up && s.wire != [] && ct in s.conns
    requires Wire.DecodeBytes(s.wire[0]) == Some(Wire.ServerSocketData(token, ct, [], ip, port))
    requires var k := s.conns[ct]; k.waiting != [] && k.waiting[0].Read?
    requires s.conns[ct].reader.buffer == [] && s.conns[ct].reader.queue == []
    ensures var k := s.conns[ct];
            var t := Exec(Exec(s, Receive), ResumeCall(ct));
            && ct in t.conns && t.conns[ct] == Conn(k.reader, k.waiting[1..])
            && At(t.answers, ct) == At(s.answers, ct) + [Answer(k.waiting[0], [], [])]
            && At(t.returned, ct) == At(s.returned, ct)
  {
    hide Wire.DecodeBytes, Resume;
    var k := s.conns[ct];
    var u := Exec(s, Receive);
    assert u.conns[ct].reader == State([], [Data([])], k.reader.closed);
    ReadGives(u.conns[ct].reader, k.waiting[0].n, []);
  }

  /**
   Two runs in which a connection completes the same calls on the same bytes give the same results, however
   the bytes were cut into messages, sent beside others and waited for.
   */
  lemma ChopIndependence(steps: seq<Step>, others: seq<Step>, ct: bytes)
    requires var s, t := Run(Initial(), steps), Run(Initial(), others);
             At(s.sent, ct) == At(t.sent, ct) && Needs(At(s.answers, ct)) == Needs(At(t.answers, ct))
    ensures Results(At(Run(Initial(), steps).answers, ct)) == Results(At(Run(Initial(), others).answers, ct))
  {
    hide Run, FlatResults, Results, Needs;
    ResultsAreFlat(steps, ct);
    ResultsAreFlat(others, ct);
  }

  /**
   A call that waits completes exactly when what has arrived and was not returned meets its need; then
   it returns what the need cuts off.
   */
  lemma WaitingCallIsFlat(s: System, ct: bytes)
    requires ct in s.conns && s.conns[ct].waiting != [] && !Faulty(s.conns[ct].reader.queue)
    requires var c := s.conns[ct].waiting[0]; c.ReadUntil? || (c.ReadExactly? && c.n >= 1)
    ensures var c := s.conns[ct].waiting[0];
            var need := if c.ReadUntil? then Through(c.sep) else AtLeast(c.n);
            var held := HeldBy(s.conns, ct);
            var t := Resumes(s, ct);
            if Ready(need, held) then
              && Results(At(t.answers, ct)) == Results(At(s.answers, ct)) + [held[..Cut(need, held)]]
              && Needs(At(t.answers, ct)) == Needs(At(s.answers, ct)) + [need]
              && t.conns[ct].waiting == s.conns[ct].waiting[1..]
            else At(t.answers, ct) == At(s.answers, ct) && t.conns[ct].waiting == s.conns[ct].waiting
  {
    hide Await, Ready, Cut, Payloads, Reader.Good, Results, Needs;
    var k := s.conns[ct];
    var c := k.waiting[0];
    var need := if c.ReadUntil? then Through(c.sep) else AtLeast(c.n);
    SoundStream(k.reader.queue);
    AwaitIsFlat(k.reader, need);
    var held := HeldBy(s.conns, ct);
    if Ready(need, held) {
      AnswersSnoc(At(s.answers, ct), Answer(c, AtHand(k.reader), held[..Cut(need, held)]));
    }
  }

  // ---- the classes ----

  /** What handle_new_msg does to the queues alone. */
  function DispatchQueue(qs: map<bytes, seq<Item>>, ct: bytes, data: bytes): map<bytes, seq<Item>> {
    if ct !in qs then qs[ct := if data != [] then [Data(data)] else []]
    else qs[ct := qs[ct] + [Data(data)]]
  }

  function Queues(conns: map<bytes, Conn>): map<bytes, seq<Item>> {
    map ct | ct in conns :: conns[ct].reader.queue
  }

  /** The class below and the system above dispatch alike. */
  lemma DispatchAgrees(conns: map<bytes, Conn>, ct: bytes, data: bytes)
    ensures Queues(Dispatch(conns, ct, data)) == DispatchQueue(Queues(conns), ct, data)
  {}

  /** WSNetworkServerTCPServer: the queue and the writer of every connection that was ever opened. */
  class TCPServer {
    const ws: Chunker.WebSocket
    const token: bytes
    var connections: map<bytes, Queue>
    var writers: map<bytes, Chunker.ServerWriter>

    ghost predicate Valid()
      reads this
    {
      && (forall a, b :: a in connections && b in connections && a != b ==> connections[a] != connections[b])
      && (forall c :: c in connections <==> c in writers)
    }

    ghost function View(): map<bytes, seq<Item>>
      reads this, connections.Values
    {
      map ct | ct in connections :: connections[ct].items
    }

    constructor (ws: Chunker.WebSocket, token: bytes)
      ensures Valid() && connections == map[] && writers == map[] && this.ws == ws && this.token == token
    {
      this.ws, this.token, connections, writers := ws, token, map[], map[];
    }

    /**
     handle_new_connection: a fresh queue, and a reader on it and a writer that share a fresh event; both go
     to the client's callback.
     */
    method HandleNewConnection(ct: bytes) returns (reader: ServerReader, writer: Chunker.ServerWriter)
      requires Valid() && ct !in connections
      modifies this
      ensures Valid() && fresh(reader) && fresh(reader.inQueue) && reader.View() == State([], [], false)
      ensures fresh(writer) && writer.ws == ws && writer.token == token && writer.connectiontoken == ct
      ensures fresh(reader.closedEvent) && writer.closedEvent == reader.closedEvent
      ensures connections == old(connections)[ct := reader.inQueue]
      ensures writers == old(writers)[ct := writer]
    {
      var q := new Queue();
      var e := new Event();
      reader := new ServerReader(q, e);
      writer := new Chunker.ServerWriter(ws, token, ct, e);
      connections := connections[ct := q];
      writers := writers[ct := writer];
    }

    /** The first message of a connection; its data may be empty, as in an announcement. */
    method OpenWith(ct: bytes, data: bytes)
      requires Valid() && ct !in connections
      modifies this
      ensures Valid() && ct in connections && fresh(connections[ct])
      ensures connections[ct].items == if data != [] then [Data(data)] else []
      ensures connections == old(connections)[ct := connections[ct]]
      ensures ct in writers && writers == old(writers)[ct := writers[ct]]
    {
      var reader, _ := HandleNewConnection(ct);
      if data != [] {
        reader.inQueue.Put(Data(data));
      }
    }

    method HandleNewMsg(ct: bytes, data: bytes)
      requires Valid()
      modifies this, connections.Values
      ensures Valid()
      ensures View() == DispatchQueue(old(View()), ct, data)
      ensures ct in connections
      ensures connections[ct].items
           == if ct in old(connections) then old(connections[ct].items) + [Data(data)]
              else if data == [] then [] else [Data(data)]
      ensures forall c :: c in old(connections) ==> c in connections && connections[c] == old(connections)[c]
      ensures forall c :: c in old(connections) && c != ct ==> connections[c].items == old(connections[c].items)
      ensures forall c :: c in old(writers) ==> c in writers && writers[c] == old(writers)[c]
    {
      if ct !in connections {
        OpenWith(ct, data);
      } else {
        connections[ct].Put(Data(data));
        assert forall c :: c in connections && c != ct ==> connections[c].items == old(connections[c].items);
      }
    }
  }
}
