/**
 The TLS record splitter of a client connection: payloads of any size in, whole records out, with the
 remainder carried from the handshake into the data phase.
 */
module Tls {
  import opened Bytes
  import opened Reader

  // ---- records ----

  /** The length in the header of a record, section 6.2.1 of RFC 5246 and section 5.1 of RFC 8446. */
  function BodyLength(b: bytes): nat
    requires |b| >= 5
  {
    FromBigEndian(b[3..5])
  }

  /** The first record of the buffer is all there. */
  predicate Whole(b: bytes) {
    |b| >= 5 && |b| >= BodyLength(b) + 5
  }

  predicate IsRecord(r: bytes) {
    |r| >= 5 && |r| == BodyLength(r) + 5
  }

  /** A record has a header of five bytes, the last two of which say how many follow it. */
  lemma RecordMeans(b: bytes)
    ensures IsRecord(b) <==> |b| >= 5 && |b| == 5 + 256 * b[3] as nat + b[4] as nat
    ensures Whole(b) <==> |b| >= 5 && |b| >= 5 + 256 * b[3] as nat + b[4] as nat
  {
    if |b| >= 5 {
      assert b[3..5] == [b[3], b[4]];
      assert [b[3], b[4]][..1] == [b[3]] && [b[3]][..0] == [];
      assert FromBigEndian([b[3]]) == b[3] as nat;
    }
  }

  predicate AreRecords(rs: seq<bytes>) {
    forall r :: r in rs ==> IsRecord(r)
  }

  /** The record decomposition of a stream and the part behind it that is no whole record. */
  function Records(s: bytes): (seq<bytes>, bytes)
    decreases |s|
  {
    if Whole(s) then
      var n := BodyLength(s) + 5;
      var (rs, rest) := Records(s[n..]);
      ([s[..n]] + rs, rest)
    else ([], s)
  }

  lemma FirstRecord(r: bytes, rest: bytes)
    requires IsRecord(r)
    ensures Whole(r + rest) && BodyLength(r + rest) + 5 == |r|
    ensures (r + rest)[..|r|] == r && (r + rest)[|r|..] == rest
  {
    assert (r + rest)[3..5] == r[3..5];
  }

  /** Any way to cut a stream into records and a tail follows its decomposition, so there is only one. */
  lemma {:induction false} RecordsUnique(rs: seq<bytes>, tail: bytes)
    requires AreRecords(rs)
    ensures rs <= Records(Concat(rs) + tail).0
    ensures !Whole(tail) ==> Records(Concat(rs) + tail) == (rs, tail)
  {
    if rs == [] {
      assert Concat(rs) + tail == tail;
    } else {
      assert rs[0] in rs;
      var s := Concat(rs[1..]) + tail;
      assert Concat(rs) + tail == rs[0] + s;
      FirstRecord(rs[0], s);
      RecordsUnique(rs[1..], tail);
      assert rs == [rs[0]] + rs[1..];
    }
  }

  lemma CutIsRecord(b: bytes)
    requires Whole(b)
    ensures IsRecord(b[..BodyLength(b) + 5])
    ensures b == b[..BodyLength(b) + 5] + b[BodyLength(b) + 5..]
  {
    assert b[..BodyLength(b) + 5][3..5] == b[3..5];
  }

  // ---- the record loop of the data phase ----

  /** One pass of `while len(buffer) > 5`: a whole record is cut off, a partial one stays as it is. */
  function Pass(b: bytes): bytes {
    if |b| > 5 && Whole(b) then b[BodyLength(b) + 5..] else b
  }

  function Passes(b: bytes, k: nat): bytes
    decreases k
  {
    if k == 0 then b else Passes(Pass(b), k - 1)
  }

  /** The loop reaches its exit condition after some number of passes. */
  ghost predicate Terminates(b: bytes) {
    exists k: nat :: |Passes(b, k)| <= 5
  }

  /** What the loop writes and leaves when whole records are removed while more than 5 bytes are left. */
  function Drain(b: bytes): (seq<bytes>, bytes)
    decreases |b|
  {
    if |b| > 5 && Whole(b) then
      var n := BodyLength(b) + 5;
      var (ws, rest) := Drain(b[n..]);
      ([b[..n]] + ws, rest)
    else ([], b)
  }

  /** Every pass that cuts a record shortens the buffer; any other pass changes nothing, for ever. */
  lemma {:induction false} StuckForEver(b: bytes, k: nat)
    requires |b| > 5 && !Whole(b)
    ensures Passes(b, k) == b
    decreases k
  {
    if k > 0 {
      StuckForEver(b, k - 1);
    }
  }

  lemma {:induction false} DrainPasses(b: bytes)
    ensures Passes(b, |Drain(b).0|) == Drain(b).1
    decreases |b|
  {
    if |b| > 5 && Whole(b) {
      DrainPasses(Pass(b));
    }
  }

  lemma {:induction false} PassesDrain(b: bytes, k: nat)
    requires |Passes(b, k)| <= 5
    ensures |Drain(b).1| <= 5
    decreases k
  {
    if |b| > 5 {
      if Whole(b) {
        if k > 0 {
          PassesDrain(Pass(b), k - 1);
        }
      } else {
        StuckForEver(b, k);
      }
    }
  }

  /** The loop leaves what is no whole record, save that an empty record of 5 bytes stays behind as well. */
  lemma DrainIsRecords(b: bytes)
    ensures var (ws, rest) := Drain(b);
            if Whole(rest) then |rest| == 5 && Records(b) == (ws + [rest], []) else Records(b) == (ws, rest)
  {
    hide Records, AreRecords;
    var (ws, rest) := Drain(b);
    DrainCuts(b);
    if Whole(rest) {
      ConcatSnoc(ws, rest);
      OneMore(ws, rest);
      RecordsUnique(ws + [rest], []);
      assert Concat(ws + [rest]) + [] == b;
    } else {
      RecordsUnique(ws, rest);
    }
  }

  lemma OneMore(ws: seq<bytes>, r: bytes)
    requires AreRecords(ws) && Whole(r) && |r| <= 5
    ensures AreRecords(ws + [r])
  {}

  /**
   The record loop terminates exactly on buffers whose record decomposition leaves at most 5 bytes, which are
   those it drains to at most 5 bytes.
   */
  lemma TerminatesExactly(b: bytes)
    ensures Terminates(b) <==> |Records(b).1| <= 5
    ensures Terminates(b) <==> |Drain(b).1| <= 5
  {
    hide Records, Drain;
    DrainIsRecords(b);
    DrainPasses(b);
    if Terminates(b) {
      var k: nat :| |Passes(b, k)| <= 5;
      PassesDrain(b, k);
    }
  }

  /** Six bytes of a record of ten: the loop never ends. */
  lemma PartialRecordSpins()
    ensures !Terminates([22, 3, 3, 0, 10, 1])
  {
    var b: bytes := [22, 3, 3, 0, 10, 1];
    assert b[3..5] == [0, 10];
    assert [0, 10][..1] == [0] && FromBigEndian([0]) == 0 by { assert [0 as byte][..0] == []; }
    assert FromBigEndian(b[3..5]) == 256 * FromBigEndian([0]) + 10;
    TerminatesExactly(b);
  }

  lemma {:induction false} DrainCuts(b: bytes)
    ensures var (ws, rest) := Drain(b); Concat(ws) + rest == b && AreRecords(ws)
    ensures |Drain(b).1| <= 5 || !Whole(Drain(b).1)
    decreases |b|
  {
    hide IsRecord, BodyLength;
    if |b| > 5 && Whole(b) {
      var n := BodyLength(b) + 5;
      CutIsRecord(b);
      DrainCuts(b[n..]);
      var (ws, rest) := Drain(b[n..]);
      assert b[..n] + Concat(ws) + rest == b[..n] + (Concat(ws) + rest);
      assert Drain(b).0[1..] == ws;
    }
  }

  // ---- handshake and data phase as one machine ----

  /**
   Where the connection is between two awaits, with the bytes it carries: about to call the engine,
   waiting in the first or the second __ssl_recv_one of a pass, waiting for data, ended by an exception,
   or in a record loop that does not end.
   */
  datatype Phase =
    | Handshake(carry: bytes)
    | FirstRecv(carry: bytes)
    | SecondRecv(carry: bytes)
    | DataPhase(carry: bytes)
    | Spinning(carry: bytes)
    | Broken

  /** `tlsIn` lists the writes to tls_in_buff, `received` all payload bytes, `lost` says a fault dropped bytes. */
  datatype Machine = Machine(phase: Phase, tlsIn: seq<bytes>, received: bytes, lost: bool)

  /** An answer of the TLS engine, a message from the queue, or any exception or disconnect. */
  datatype Event = Engine(done: bool) | Message(item: Item) | Abort

  /** What __ssl_recv_one does with more than 5 bytes: a whole record, or none and everything as rest. */
  function Takes(b: bytes): (bytes, bytes) {
    if Whole(b) then (b[..BodyLength(b) + 5], b[BodyLength(b) + 5..]) else ([], b)
  }

  function EngineStep(m: Machine, done: bool): Machine {
    if !m.phase.Handshake? then m
    else
      var rest := m.phase.carry;
      if done then m.(phase := DataPhase(rest))
      else if rest == [] then m.(phase := SecondRecv([]))
      else if |rest| > 5 && Whole(rest) then
        var (hello, r) := Takes(rest);
        m.(phase := Handshake(r), tlsIn := m.tlsIn + [hello])
      else m.(phase := FirstRecv(rest))
  }

  function FaultStep(m: Machine): Machine {
    match m.phase
    case FirstRecv(_) => m.(phase := SecondRecv([]), lost := true)
    case SecondRecv(_) => m.(phase := Broken)
    case DataPhase(_) => m.(phase := Broken)
    case _ => m
  }

  function DataStep(m: Machine, p: bytes): Machine {
    var n := m.(received := m.received + p);
    match m.phase
    case FirstRecv(carry) =>
      var b := carry + p;
      if |b| <= 5 then n.(phase := FirstRecv(b))
      else
        var (hello, r) := Takes(b);
        if hello != [] then n.(phase := Handshake(r), tlsIn := m.tlsIn + [hello]) else n.(phase := SecondRecv(r))
    case SecondRecv(carry) =>
      var b := carry + p;
      if |b| <= 5 then n.(phase := SecondRecv(b))
      else
        var (hello, r) := Takes(b);
        if hello != [] then n.(phase := Handshake(r), tlsIn := m.tlsIn + [hello]) else n.(phase := Broken)
    case DataPhase(carry) =>
      var b := carry + p;
      if |b| < 5 then n.(phase := DataPhase(b))
      else
        var (ws, r) := Drain(b);
        n.(phase := if |r| <= 5 then DataPhase(r) else Spinning(r), tlsIn := m.tlsIn + ws)
    case _ => m
  }

  function Exec(m: Machine, e: Event): Machine {
    match e
    case Engine(done) => EngineStep(m, done)
    case Message(Fault) => FaultStep(m)
    case Message(Data(p)) => DataStep(m, p)
    case Abort => m.(phase := Broken)
  }

  function Run(m: Machine, es: seq<Event>): Machine
    decreases |es|
  {
    if es == [] then m else Run(Exec(m, es[0]), es[1..])
  }

  function Start(): Machine {
    Machine(Handshake([]), [], [], false)
  }

  /** Nothing was dropped by an exception. */
  predicate Clean(m: Machine) {
    !m.lost && !m.phase.Broken?
  }

  /** Written records and carried bytes are all bytes received. */
  predicate Conserves(m: Machine) {
    Clean(m) ==> AreRecords(m.tlsIn) && Concat(m.tlsIn) + m.phase.carry == m.received
  }

  lemma WriteOne(ws: seq<bytes>, b: bytes, all: bytes)
    requires AreRecords(ws) && Whole(b) && Concat(ws) + b == all
    ensures AreRecords(ws + [Takes(b).0]) && Concat(ws + [Takes(b).0]) + Takes(b).1 == all && Takes(b).0 != []
  {
    var (r, rest) := Takes(b);
    CutIsRecord(b);
    ConcatSnoc(ws, r);
    assert Concat(ws) + r + rest == Concat(ws) + (r + rest);
  }

  lemma StepConserves(m: Machine, e: Event)
    requires Conserves(m)
    ensures Conserves(Exec(m, e))
  {
    hide Whole, Drain, AreRecords, Concat;
    if Clean(m) {
      match e
      case Engine(done) =>
        if m.phase.Handshake? && Whole(m.phase.carry) {
          WriteOne(m.tlsIn, m.phase.carry, m.received);
        }
      case Message(Fault) =>
      case Abort =>
      case Message(Data(p)) =>
        DataConserves(m, p);
    }
  }

  lemma DataConserves(m: Machine, p: bytes)
    requires Conserves(m) && Clean(m)
    ensures Conserves(DataStep(m, p))
  {
    hide Whole, Drain, AreRecords, Concat;
    if m.phase.FirstRecv? || m.phase.SecondRecv? || m.phase.DataPhase? {
      var b := m.phase.carry + p;
      assert Concat(m.tlsIn) + b == m.received + p;
      if Whole(b) {
        WriteOne(m.tlsIn, b, m.received + p);
      }
      if m.phase.DataPhase? {
        var (ws, r) := Drain(b);
        DrainCuts(b);
        WriteAll(m.tlsIn, ws);
        assert Concat(m.tlsIn) + Concat(ws) + r == Concat(m.tlsIn) + (Concat(ws) + r);
      }
    }
  }

  lemma WriteAll(ws: seq<bytes>, more: seq<bytes>)
    requires AreRecords(ws) && AreRecords(more)
    ensures AreRecords(ws + more) && Concat(ws + more) == Concat(ws) + Concat(more)
  {
    ConcatAppend(ws, more);
  }

  lemma {:induction false} RunConserves(m: Machine, es: seq<Event>)
    requires Conserves(m)
    ensures Conserves(Run(m, es))
    decreases |es|
  {
    hide Conserves, Exec;
    if es == [] {
    } else {
      StepConserves(m, es[0]);
      RunConserves(Exec(m, es[0]), es[1..]);
    }
  }

  /**
   Across handshake and data phase, whatever the payload boundaries and the engine's answers: the bytes
   written followed by the bytes carried are the bytes received, every write is one whole record, and the
   writes are a prefix of the stream's only record decomposition.
   */
  lemma SplitterIsFaithful(es: seq<Event>)
    ensures var m := Run(Start(), es);
            Clean(m) ==>
              && Concat(m.tlsIn) + m.phase.carry == m.received
              && AreRecords(m.tlsIn)
              && m.tlsIn <= Records(m.received).0
  {
    hide Run, Records, AreRecords;
    assert AreRecords([]) by { NoRecords(); }
    assert Concat([]) + [] == [];
    RunConserves(Start(), es);
    var m := Run(Start(), es);
    if Clean(m) {
      RecordsUnique(m.tlsIn, m.phase.carry);
    }
  }

  lemma NoRecords()
    ensures AreRecords([])
  {}

  // ---- what the handshake does with an answer or a message ----

  /**
   An answer of the engine: success takes what is carried into the data phase; else a whole record that is
   carried goes to the engine, a partial one waits in the first receive, and without any the second waits.
   */
  lemma AnswerMeans(m: Machine, done: bool)
    requires m.phase.Handshake?
    ensures var carry, n := m.phase.carry, Exec(m, Engine(done));
            && n.received == m.received && n.lost == m.lost
            && (done ==> n.phase == DataPhase(carry) && n.tlsIn == m.tlsIn)
            && (!done && carry == [] ==> n.phase == SecondRecv([]) && n.tlsIn == m.tlsIn)
            && (!done && |carry| > 5 && Whole(carry) ==> Wrote(m, n, carry))
            && (!done && carry != [] && !(|carry| > 5 && Whole(carry)) ==>
                  n.phase == FirstRecv(carry) && n.tlsIn == m.tlsIn)
  {
    hide Whole;
    if Whole(m.phase.carry) {
      CutIsRecord(m.phase.carry);
    }
  }

  /** The first record of b went to the engine, and the next pass begins with what follows it. */
  predicate Wrote(m: Machine, n: Machine, b: bytes) {
    && n.phase.Handshake? && |n.tlsIn| == |m.tlsIn| + 1
    && n.tlsIn == m.tlsIn + [n.tlsIn[|m.tlsIn|]]
    && IsRecord(n.tlsIn[|m.tlsIn|]) && n.tlsIn[|m.tlsIn|] + n.phase.carry == b
  }

  /**
   A message for a receive: up to 5 bytes wait for more; a whole record goes to the engine; a partial one and an
   exception in the first receive lead to the second, which keeps the bytes of the one and has none after the other.
   */
  lemma ReceiveMeans(m: Machine, p: bytes)
    requires m.phase.FirstRecv? || m.phase.SecondRecv?
    ensures var b, n := m.phase.carry + p, Exec(m, Message(Data(p)));
            && n.received == m.received + p && n.lost == m.lost
            && (|b| <= 5 ==> n.phase == m.phase.(carry := b) && n.tlsIn == m.tlsIn)
            && (|b| > 5 && Whole(b) ==> Wrote(m, n, b))
            && (|b| > 5 && !Whole(b) && m.phase.FirstRecv? ==> n.phase == SecondRecv(b) && n.tlsIn == m.tlsIn)
    ensures m.phase.FirstRecv? ==>
              Exec(m, Message(Fault)) == Machine(SecondRecv([]), m.tlsIn, m.received, true)
  {
    hide Whole;
    var b := m.phase.carry + p;
    if Whole(b) {
      CutIsRecord(b);
    }
  }

  /** The events that end a connection: any exception but one in the first receive, and a second partial record. */
  predicate Breaks(m: Machine, e: Event) {
    match e
    case Engine(_) => false
    case Abort => true
    case Message(Fault) => m.phase.SecondRecv? || m.phase.DataPhase?
    case Message(Data(p)) => m.phase.SecondRecv? && |m.phase.carry + p| > 5 && !Whole(m.phase.carry + p)
  }

  lemma StepBreaksExactly(m: Machine, e: Event)
    ensures Exec(m, e).phase.Broken? <==> m.phase.Broken? || Breaks(m, e)
  {
    hide Whole, Drain;
    if e.Message? && e.item.Data? && (m.phase.FirstRecv? || m.phase.SecondRecv?) {
      ReceiveMeans(m, e.item.payload);
    } else if e.Engine? && m.phase.Handshake? {
      AnswerMeans(m, e.done);
    }
  }

  /** A run has ended in an exception if and only if one of its events is such an end where it comes. */
  lemma {:induction false} BreaksExactly(m: Machine, es: seq<Event>)
    ensures Run(m, es).phase.Broken? <==>
              m.phase.Broken? || exists i :: 0 <= i < |es| && Breaks(Run(m, es[..i]), es[i])
    decreases |es|
  {
    hide Exec, Breaks;
    if es != [] {
      var n, rest := Exec(m, es[0]), es[1..];
      StepBreaksExactly(m, es[0]);
      BreaksExactly(n, rest);
      assert Run(m, es[..0]) == m;
      forall i | 0 <= i < |rest| ensures Run(m, es[..i + 1]) == Run(n, rest[..i]) {
        assert es[..i + 1][0] == es[0] && es[..i + 1][1..] == rest[..i];
      }
      if Breaks(m, es[0]) {
        assert Breaks(Run(m, es[..0]), es[0]);
      }
      if i: int :| 0 <= i < |es| && Breaks(Run(m, es[..i]), es[i]) {
        if i > 0 {
          assert Run(m, es[..i - 1 + 1]) == Run(n, rest[..i - 1]) && es[i] == rest[i - 1];
        }
      }
      if j: int :| 0 <= j < |rest| && Breaks(Run(n, rest[..j]), rest[j]) {
        assert Breaks(Run(m, es[..j + 1]), es[j + 1]);
      }
    }
  }

  /** In every run whose handshake succeeds the data phase begins with just the bytes not given to the engine. */
  lemma HandshakeHandsOver(es: seq<Event>)
    ensures var m := Run(Start(), es);
            var n := Exec(m, Engine(true));
            m.phase.Handshake? && !m.lost ==>
              n.phase.DataPhase? && n.tlsIn == m.tlsIn && Concat(n.tlsIn) + n.phase.carry == n.received
  {
    hide Run, Records, AreRecords;
    var m := Run(Start(), es);
    assert AreRecords([]) by { NoRecords(); }
    assert Concat([]) + [] == [];
    RunConserves(Start(), es);
    if m.phase.Handshake? {
      AnswerMeans(m, true);
    }
  }

  /** How many times in a run the engine asked for more. */
  function Asked(m: Machine, es: seq<Event>): nat
    decreases |es|
  {
    if es == [] then 0
    else (if m.phase.Handshake? && es[0] == Engine(false) then 1 else 0) + Asked(Exec(m, es[0]), es[1..])
  }

  predicate InHandshake(m: Machine) {
    m.phase.Handshake? || m.phase.FirstRecv? || m.phase.SecondRecv?
  }

  /** Records written, and the one a pass is waiting for. */
  function Answered(m: Machine): nat {
    |m.tlsIn| + if m.phase.Handshake? then 0 else 1
  }

  /** As long as a handshake goes on, the engine has got one record for every time it asked, or waits for it. */
  lemma {:induction false} OneRecordPerPass(m: Machine, es: seq<Event>)
    requires InHandshake(Run(m, es))
    ensures InHandshake(m) && Answered(Run(m, es)) == Answered(m) + Asked(m, es)
    decreases |es|
  {
    hide Exec;
    if es != [] {
      OneRecordPerPass(Exec(m, es[0]), es[1..]);
      StepAnswers(m, es[0]);
    }
  }

  lemma StepAnswers(m: Machine, e: Event)
    requires InHandshake(Exec(m, e))
    ensures InHandshake(m)
    ensures Answered(Exec(m, e)) == Answered(m) + if m.phase.Handshake? && e == Engine(false) then 1 else 0
  {
    hide Whole, Drain, IsRecord;
    if e.Message? && e.item.Data? && (m.phase.FirstRecv? || m.phase.SecondRecv?) {
      ReceiveMeans(m, e.item.payload);
      StepBreaksExactly(m, e);
    } else if e.Engine? && m.phase.Handshake? {
      AnswerMeans(m, e.done);
    }
  }

  /**
   After a message of the data phase everything whole has been written, save an empty record of 5 bytes, which
   is then all that is carried.
   */
  lemma DataPhaseKeepsUp(m: Machine, p: bytes)
    requires Conserves(m) && Clean(m) && m.phase.DataPhase?
    ensures var n := DataStep(m, p);
            && Conserves(n)
            && Records(n.received)
               == if Whole(n.phase.carry) && |n.phase.carry| == 5 then (n.tlsIn + [n.phase.carry], [])
                  else (n.tlsIn, n.phase.carry)
  {
    hide Drain, AreRecords, Concat, Records;
    DataConserves(m, p);
    var n := DataStep(m, p);
    var carry := n.phase.carry;
    DrainCuts(m.phase.carry + p);
    if Whole(carry) {
      OneMore(n.tlsIn, carry);
      ConcatSnoc(n.tlsIn, carry);
      RecordsUnique(n.tlsIn + [carry], []);
      assert Concat(n.tlsIn + [carry]) + [] == n.received;
    } else {
      RecordsUnique(n.tlsIn, carry);
    }
  }

  /** A message of the data phase makes the connection spin if and only if it leaves a partial record too long. */
  lemma SpinsExactly(m: Machine, p: bytes)
    requires m.phase.DataPhase?
    ensures DataStep(m, p).phase.Spinning? <==> |Records(m.phase.carry + p).1| > 5
  {
    hide Drain, Records;
    var b := m.phase.carry + p;
    DrainIsRecords(b);
    if |b| < 5 {
      Short(b);
    }
  }

  lemma Short(b: bytes)
    requires |b| < 5
    ensures Records(b) == ([], b)
  {}

  /** The handshake ends and six bytes of a longer record arrive: the connection spins. */
  lemma ConnectionSpins()
    ensures Run(Start(), [Engine(true), Message(Data([22, 3, 3, 0, 10, 1]))]).phase.Spinning?
  {
    hide Records, Drain, DataStep;
    var e, f := Engine(true), Message(Data([22, 3, 3, 0, 10, 1]));
    var m := Exec(Start(), e);
    assert m.phase == DataPhase([]);
    PartialRecordSpins();
    assert [] + [22, 3, 3, 0, 10, 1] == [22, 3, 3, 0, 10, 1];
    TerminatesExactly([22, 3, 3, 0, 10, 1]);
    SpinsExactly(m, [22, 3, 3, 0, 10, 1]);
    assert [e, f][1..] == [f] && [f][1..] == [];
    assert Run(Exec(m, f), []) == Exec(m, f);
  }

  // ---- the source's loops ----

  /** __ssl_recv_one: a result, an exception it swallowed, or suspended on an empty queue. */
  datatype Recv = Got(record: bytes, rest: bytes) | Lost | Waits(buffer: bytes)

  /** Its loop over the queue, and the payload bytes it took. */
  function RecvLoop(b: bytes, items: seq<Item>, taken: bytes): (Recv, seq<Item>, bytes)
    decreases |items|
  {
    if items == [] then (Waits(b), [], taken)
    else
      match items[0]
      case Fault => (Lost, items[1..], taken)
      case Data(p) =>
        if |b + p| > 5 then (Got(Takes(b + p).0, Takes(b + p).1), items[1..], taken + p)
        else RecvLoop(b + p, items[1..], taken + p)
  }

  function RecvOne(b: bytes, items: seq<Item>, taken: bytes): (Recv, seq<Item>, bytes) {
    if |b| > 5 && Whole(b) then (Got(Takes(b).0, Takes(b).1), items, taken) else RecvLoop(b, items, taken)
  }

  /** The machine driven by the engine's answers and the queued messages until one of them is missing. */
  function Drive(m: Machine, engine: seq<bool>, items: seq<Item>): (Machine, seq<Item>)
    decreases |engine| + |items|
  {
    match m.phase
    case Handshake(_) => if engine == [] then (m, items) else Drive(EngineStep(m, engine[0]), engine[1..], items)
    case FirstRecv(_) => if items == [] then (m, items) else Drive(Exec(m, Message(items[0])), engine, items[1..])
    case SecondRecv(_) => if items == [] then (m, items) else Drive(Exec(m, Message(items[0])), engine, items[1..])
    case _ => (m, items)
  }

  function AfterFirst(m: Machine, o: Recv, taken: bytes): Machine {
    match o
    case Got(h, r) =>
      if h != [] then m.(phase := Handshake(r), tlsIn := m.tlsIn + [h], received := taken)
      else m.(phase := SecondRecv(r), received := taken)
    case Lost => m.(phase := SecondRecv([]), lost := true, received := taken)
    case Waits(b) => m.(phase := FirstRecv(b), received := taken)
  }

  function AfterSecond(m: Machine, o: Recv, taken: bytes): Machine {
    match o
    case Got(h, r) =>
      if h != [] then m.(phase := Handshake(r), tlsIn := m.tlsIn + [h], received := taken)
      else m.(phase := Broken, received := taken)
    case Lost => m.(phase := Broken, received := taken)
    case Waits(b) => m.(phase := SecondRecv(b), received := taken)
  }

  /** The machine in a receiving phase does what the loop of __ssl_recv_one does in one go. */
  lemma {:induction false} FirstIsLoop(m: Machine, b: bytes, engine: seq<bool>, items: seq<Item>)
    requires m.phase == FirstRecv(b)
    ensures var (o, left, taken) := RecvLoop(b, items, m.received);
            Drive(m, engine, items) == Drive(AfterFirst(m, o, taken), engine, left)
    decreases |items|
  {
    hide Takes;
    var (o, left, taken) := RecvLoop(b, items, m.received);
    if items == [] {
      assert AfterFirst(m, o, taken) == m;
    } else if items[0].Fault? || |b + items[0].payload| > 5 {
      assert Exec(m, Message(items[0])) == AfterFirst(m, o, taken);
    } else {
      FirstIsLoop(Exec(m, Message(items[0])), b + items[0].payload, engine, items[1..]);
    }
  }

  lemma {:induction false} SecondIsLoop(m: Machine, b: bytes, engine: seq<bool>, items: seq<Item>)
    requires m.phase == SecondRecv(b)
    ensures var (o, left, taken) := RecvLoop(b, items, m.received);
            Drive(m, engine, items) == Drive(AfterSecond(m, o, taken), engine, left)
    decreases |items|
  {
    hide Takes;
    var (o, left, taken) := RecvLoop(b, items, m.received);
    if items == [] {
      assert AfterSecond(m, o, taken) == m;
    } else if items[0].Fault? || |b + items[0].payload| > 5 {
      assert Exec(m, Message(items[0])) == AfterSecond(m, o, taken);
    } else {
      SecondIsLoop(Exec(m, Message(items[0])), b + items[0].payload, engine, items[1..]);
    }
  }

  /** A rest without a record is never a whole one, and a call waits on an empty queue only. */
  lemma RestIsPartial(b: bytes, items: seq<Item>, taken: bytes)
    ensures var (o, left, t) := RecvOne(b, items, taken);
            && (o.Got? && o.record == [] ==> |o.rest| > 5 && !Whole(o.rest))
            && (o.Waits? ==> left == [])
    decreases |items|
  {
    if !(|b| > 5 && Whole(b)) && items != [] && items[0].Data? && |b + items[0].payload| <= 5 {
      RestIsPartial(b + items[0].payload, items[1..], taken + items[0].payload);
    }
  }

  /** WSNETConnection: the queue of messages and the writes to tls_in_buff. */
  class TlsConnection {
    const inQueue: Queue
    var tlsIn: seq<bytes>
    ghost var received: bytes
    ghost var lost: bool

    constructor (q: Queue)
      ensures inQueue == q && tlsIn == [] && received == [] && !lost
    {
      inQueue, tlsIn, received, lost := q, [], [], false;
    }

    ghost function At(phase: Phase): Machine
      reads this
    {
      Machine(phase, tlsIn, received, lost)
    }

    method SslRecvOne(remaining: bytes) returns (o: Recv)
      modifies inQueue, this`received
      ensures (o, inQueue.items, received) == RecvOne(remaining, old(inQueue.items), old(received))
    {
      var buffer := remaining;
      if |buffer| > 5 {
        if Whole(buffer) {
          var n := BodyLength(buffer) + 5;
          return Got(buffer[..n], buffer[n..]);
        }
      }
      while inQueue.items != []
        invariant RecvLoop(buffer, inQueue.items, received) == RecvLoop(remaining, old(inQueue.items), old(received))
        decreases |inQueue.items|
      {
        var item := inQueue.items[0];
        inQueue.items := inQueue.items[1..];
        if item.Fault? {
          return Lost;
        }
        buffer := buffer + item.payload;
        received := received + item.payload;
        if |buffer| > 5 {
          var final: bytes := [];
          if Whole(buffer) {
            final := final + buffer[..BodyLength(buffer) + 5];
          }
          assert final == Takes(buffer).0;
          return Got(final, buffer[|final|..]);
        }
      }
      return Waits(buffer);
    }

    /** do_handshake, told the engine's answers in turn: where it ended or is suspended. */
    method DoHandshake(engine: seq<bool>) returns (phase: Phase)
      modifies inQueue, this
      ensures (At(phase), inQueue.items) == Drive(old(At(Handshake([]))), engine, old(inQueue.items))
    {
      hide Takes, RecvLoop, RecvOne;
      var rest: bytes := [];
      var i := 0;
      while i < |engine|
        invariant 0 <= i <= |engine|
        invariant Drive(At(Handshake(rest)), engine[i..], inQueue.items)
               == Drive(old(At(Handshake([]))), engine, old(inQueue.items))
      {
        var done := engine[i];
        i := i + 1;
        assert engine[i - 1..][1..] == engine[i..];
        if done {
          return DataPhase(rest);
        }
        if rest != [] {
          FirstCall(At(Handshake(rest)), rest, engine[i..], inQueue.items);
          RestIsPartial(rest, inQueue.items, received);
          var o := SslRecvOne(rest);
          match o {
            case Waits(b) =>
              return FirstRecv(b);
            case Got(hello, r) =>
              rest := r;
              if hello != [] {
                tlsIn := tlsIn + [hello];
                continue;
              }
            case Lost =>
              rest := [];
              lost := true;
          }
        }
        SecondCall(At(SecondRecv(rest)), rest, engine[i..], inQueue.items);
        RestIsPartial(rest, inQueue.items, received);
        var o := SslRecvOne(rest);
        match o {
          case Waits(b) =>
            return SecondRecv(b);
          case Lost =>
            return Broken;
          case Got(hello, r) =>
            rest := r;
            if hello == [] {
              return Broken;
            }
            tlsIn := tlsIn + [hello];
        }
      }
      return Handshake(rest);
    }

    /** The record loop; `spins` when a pass over more than 5 bytes cuts nothing, which repeats for ever. */
    method RecordLoop(initial: bytes) returns (buffer: bytes, spins: bool)
      modifies this`tlsIn
      ensures tlsIn == old(tlsIn) + Drain(initial).0 && buffer == Drain(initial).1
      ensures spins <==> !Terminates(initial)
    {
      TerminatesExactly(initial);
      buffer := initial;
      while |buffer| > 5
        invariant tlsIn + Drain(buffer).0 == old(tlsIn) + Drain(initial).0 && Drain(buffer).1 == Drain(initial).1
        decreases |buffer|
      {
        var recordLen := BodyLength(buffer);
        if |buffer| >= recordLen + 5 {
          tlsIn := tlsIn + [buffer[..recordLen + 5]];
          buffer := buffer[recordLen + 5..];
        } else {
          return buffer, true;
        }
      }
      spins := false;
    }

    /** connection_handler_in_ssl over the messages that are there, carrying what the handshake left. */
    method HandlerInSsl(remaining: bytes) returns (phase: Phase)
      modifies inQueue, this
      ensures (At(phase), inQueue.items) == Feed(old(At(DataPhase(remaining))), old(inQueue.items))
    {
      hide Drain;
      var buffer := remaining;
      while inQueue.items != []
        invariant Feed(At(DataPhase(buffer)), inQueue.items) == Feed(old(At(DataPhase(remaining))), old(inQueue.items))
        decreases |inQueue.items|
      {
        var item := inQueue.items[0];
        inQueue.items := inQueue.items[1..];
        if item.Fault? {
          return Broken;
        }
        buffer := buffer + item.payload;
        received := received + item.payload;
        if |buffer| < 5 {
          continue;
        }
        TerminatesExactly(buffer);
        var spins: bool;
        buffer, spins := RecordLoop(buffer);
        if spins {
          return Spinning(buffer);
        }
      }
      return DataPhase(buffer);
    }
  }

  /** The data phase fed with messages until there are none or it is over. */
  function Feed(m: Machine, items: seq<Item>): (Machine, seq<Item>)
    decreases |items|
  {
    if !m.phase.DataPhase? || items == [] then (m, items) else Feed(Exec(m, Message(items[0])), items[1..])
  }

  lemma FirstCall(m: Machine, rest: bytes, engine: seq<bool>, items: seq<Item>)
    requires m.phase == Handshake(rest) && rest != []
    ensures var (o, left, taken) := RecvOne(rest, items, m.received);
            Drive(EngineStep(m, false), engine, items) == Drive(AfterFirst(m, o, taken), engine, left)
  {
    if |rest| > 5 && Whole(rest) {
      assert Takes(rest).0 != [];
    } else {
      FirstIsLoop(m.(phase := FirstRecv(rest)), rest, engine, items);
    }
  }

  lemma SecondCall(m: Machine, b: bytes, engine: seq<bool>, items: seq<Item>)
    requires m.phase == SecondRecv(b) && !(|b| > 5 && Whole(b))
    ensures var (o, left, taken) := RecvOne(b, items, m.received);
            Drive(m, engine, items) == Drive(AfterSecond(m, o, taken), engine, left)
  {
    SecondIsLoop(m, b, engine, items);
  }

  function MessagesOf(es: seq<Event>): seq<Item> {
    if es == [] then [] else (if es[0].Message? then [es[0].item] else []) + MessagesOf(es[1..])
  }

  function AnswersOf(es: seq<Event>): seq<bool> {
    if es == [] then [] else (if es[0].Engine? then [es[0].done] else []) + AnswersOf(es[1..])
  }

  lemma RunHead(m: Machine, e: Event, es: seq<Event>)
    ensures Run(m, [e] + es) == Run(Exec(m, e), es)
    ensures MessagesOf([e] + es) == (if e.Message? then [e.item] else []) + MessagesOf(es)
    ensures AnswersOf([e] + es) == (if e.Engine? then [e.done] else []) + AnswersOf(es)
  {
    hide Exec;
    assert ([e] + es)[1..] == es;
  }

  /**
   The handshake loop is a run: it takes answers and messages in the order they come, each where its phase asks
   for one, and stops only when that one is missing or the handshake is over.
   */
  lemma {:induction false} DriveIsRun(m: Machine, engine: seq<bool>, items: seq<Item>) returns (es: seq<Event>)
    ensures var (n, left) := Drive(m, engine, items);
            && Run(m, es) == n && MessagesOf(es) + left == items && AnswersOf(es) <= engine
            && (n.phase.Handshake? ==> AnswersOf(es) == engine)
            && (n.phase.FirstRecv? || n.phase.SecondRecv? ==> left == [])
    decreases |engine| + |items|
  {
    hide EngineStep, FaultStep, DataStep, Exec;
    es := [];
    if m.phase.Handshake? && engine != [] {
      AnswerIsStep(m, engine[0]);
      es := DriveIsRun(EngineStep(m, engine[0]), engine[1..], items);
      RunHead(m, Engine(engine[0]), es);
      es := [Engine(engine[0])] + es;
    } else if (m.phase.FirstRecv? || m.phase.SecondRecv?) && items != [] {
      es := DriveIsRun(Exec(m, Message(items[0])), engine, items[1..]);
      RunHead(m, Message(items[0]), es);
      es := [Message(items[0])] + es;
    }
  }

  lemma AnswerIsStep(m: Machine, done: bool)
    ensures Exec(m, Engine(done)) == EngineStep(m, done)
  {}

  /** So is the data phase: it takes the messages in order until there are none or it is over. */
  lemma {:induction false} FeedIsRun(m: Machine, items: seq<Item>) returns (es: seq<Event>)
    ensures var (n, left) := Feed(m, items);
            && Run(m, es) == n && MessagesOf(es) + left == items && AnswersOf(es) == []
            && (n.phase.DataPhase? ==> left == [])
    decreases |items|
  {
    hide FaultStep, DataStep, Exec;
    es := [];
    if m.phase.DataPhase? && items != [] {
      es := FeedIsRun(Exec(m, Message(items[0])), items[1..]);
      RunHead(m, Message(items[0]), es);
      es := [Message(items[0])] + es;
    }
  }

  /** A handshake driven to its first missing input, and a data phase fed with messages, keep the bytes. */
  lemma {:induction false} DriveConserves(m: Machine, engine: seq<bool>, items: seq<Item>)
    requires Conserves(m)
    ensures Conserves(Drive(m, engine, items).0)
    decreases |engine| + |items|
  {
    hide Conserves, EngineStep, FaultStep, DataStep;
    match m.phase
    case Handshake(_) =>
      if engine != [] {
        StepConserves(m, Engine(engine[0]));
        DriveConserves(EngineStep(m, engine[0]), engine[1..], items);
      }
    case FirstRecv(_) =>
      if items != [] {
        StepConserves(m, Message(items[0]));
        DriveConserves(Exec(m, Message(items[0])), engine, items[1..]);
      }
    case SecondRecv(_) =>
      if items != [] {
        StepConserves(m, Message(items[0]));
        DriveConserves(Exec(m, Message(items[0])), engine, items[1..]);
      }
    case _ =>
  }

  lemma {:induction false} FeedConserves(m: Machine, items: seq<Item>)
    requires Conserves(m)
    ensures Conserves(Feed(m, items).0)
    decreases |items|
  {
    hide Conserves, FaultStep, DataStep;
    if m.phase.DataPhase? && items != [] {
      StepConserves(m, Message(items[0]));
      FeedConserves(Exec(m, Message(items[0])), items[1..]);
    }
  }
}
