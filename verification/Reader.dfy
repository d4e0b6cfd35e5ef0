/**
 The buffered reader of an accepted connection: a queue of payloads behind read, readexactly and
 readuntil. A call that finds its queue empty is suspended; it is Blocked, and resumed later.
 */
module Reader {
  import opened Bytes

  // ---- bytes.find ----

  predicate OccursAt(b: bytes, sep: bytes, i: int) {
    0 <= i <= |b| - |sep| && b[i..i + |sep|] == sep
  }

  function FindFrom(b: bytes, sep: bytes, i: nat): int
    decreases |b| - i
  {
    if i + |sep| > |b| then -1
    else if OccursAt(b, sep, i) then i
    else FindFrom(b, sep, i + 1)
  }

  /** b.find(sep) */
  function Find(b: bytes, sep: bytes): int {
    FindFrom(b, sep, 0)
  }

  lemma {:induction false} FindFromIsFirst(b: bytes, sep: bytes, i: nat)
    ensures var r := FindFrom(b, sep, i);
            if r == -1 then forall j :: i <= j ==> !OccursAt(b, sep, j)
            else i <= r && OccursAt(b, sep, r) && forall j :: i <= j < r ==> !OccursAt(b, sep, j)
    decreases |b| - i
  {
    if i + |sep| <= |b| && !OccursAt(b, sep, i) {
      FindFromIsFirst(b, sep, i + 1);
    }
  }

  /** More bytes behind the first occurrence do not move it. */
  lemma FindPrefix(b: bytes, more: bytes, sep: bytes)
    requires Find(b, sep) != -1
    ensures Find(b + more, sep) == Find(b, sep)
  {
    FindFromIsFirst(b, sep, 0);
    FindFromIsFirst(b + more, sep, 0);
    var r, q := Find(b, sep), Find(b + more, sep);
    assert (b + more)[r..r + |sep|] == b[r..r + |sep|];
    assert OccursAt(b + more, sep, r);
    if q < r {
      assert (b + more)[q..q + |sep|] == b[q..q + |sep|];
      assert OccursAt(b, sep, q);
    }
  }

  // ---- state and calls ----

  /** What in_queue carries: a message with data, or the fault a closing server puts there. */
  datatype Item = Data(payload: bytes) | Fault

  datatype State = State(buffer: bytes, queue: seq<Item>, closed: bool)

  datatype Call = Read(n: int) | ReadExactly(n: int) | ReadUntil(sep: bytes)

  datatype Outcome = Returned(data: bytes) | Raised | Blocked

  /** What readexactly and readuntil wait for. */
  datatype Need = AtLeast(n: nat) | Through(sep: bytes)

  predicate Ready(need: Need, b: bytes) {
    match need
    case AtLeast(n) => n <= |b|
    case Through(sep) => Find(b, sep) != -1
  }

  /** How much of a ready buffer the call returns. */
  function Cut(need: Need, b: bytes): (n: nat)
    requires Ready(need, b)
    ensures n <= |b|
  {
    match need
    case AtLeast(n) => n
    case Through(sep) => FindFromIsFirst(b, sep, 0); Find(b, sep) + |sep|
  }

  lemma ReadyPrefix(need: Need, b: bytes, more: bytes)
    requires Ready(need, b)
    ensures Ready(need, b + more) && Cut(need, b + more) == Cut(need, b)
  {
    if need.Through? {
      FindPrefix(b, more, need.sep);
    }
  }

  datatype Progress = Done | Failed | Waiting

  /** The loop around __read_one: take payloads until the need is met. */
  function Fill(s: State, need: Need): (r: (State, Progress))
    ensures r.1.Done? ==> Ready(need, r.0.buffer)
    decreases |s.queue|
  {
    if Ready(need, s.buffer) then (s, Done)
    else if s.queue == [] then (s, Waiting)
    else if s.queue[0].Fault? then (s.(queue := s.queue[1..], closed := true), Failed)
    else Fill(s.(buffer := s.buffer + s.queue[0].payload, queue := s.queue[1..]), need)
  }

  /** The waiting part of readexactly and readuntil, from its first pass or from where it was suspended. */
  function Await(s: State, need: Need): (State, Outcome) {
    var (t, p) := Fill(s, need);
    match p
    case Done => (t.(buffer := t.buffer[Cut(need, t.buffer)..]), Returned(t.buffer[..Cut(need, t.buffer)]))
    case Failed => (t, Raised)
    case Waiting => (t, Blocked)
  }

  /** buffer[:n] with Python's meaning of a negative n; -1 stands for everything. */
  function SomeCut(n: int, b: bytes): (k: nat)
    ensures k <= |b|
  {
    if n == -1 || n >= |b| then |b|
    else if n >= 0 then n
    else if |b| + n >= 0 then |b| + n
    else 0
  }

  /** The waiting part of read: at most one item is taken, and only by an empty buffer. */
  function AwaitSome(s: State, n: int): (State, Outcome) {
    if s.buffer != [] then
      (s.(buffer := s.buffer[SomeCut(n, s.buffer)..]), Returned(s.buffer[..SomeCut(n, s.buffer)]))
    else if s.queue == [] then (s, Blocked)
    else if s.queue[0].Fault? then (s.(queue := s.queue[1..], closed := true), Raised)
    else
      var b := s.queue[0].payload;
      (State(b[SomeCut(n, b)..], s.queue[1..], s.closed), Returned(b[..SomeCut(n, b)]))
  }

  /** A suspended call goes on: the checks at its beginning are behind it. */
  function Resume(s: State, c: Call): (State, Outcome) {
    match c
    case Read(n) => AwaitSome(s, n)
    case ReadExactly(n) => if n < 1 then (s.(closed := true), Raised) else Await(s, AtLeast(n))
    case ReadUntil(sep) => Await(s, Through(sep))
  }

  function Begin(s: State, c: Call): (State, Outcome) {
    if s.closed then (s, if c.Read? then Returned([]) else Raised) else Resume(s, c)
  }

  // ---- conservation ----

  function Payloads(q: seq<Item>): bytes {
    if q == [] then []
    else (if q[0].Data? then q[0].payload else []) + Payloads(q[1..])
  }

  lemma {:induction false} PayloadsAppend(q: seq<Item>, r: seq<Item>)
    ensures Payloads(q + r) == Payloads(q) + Payloads(r)
  {
    if q == [] {
      assert q + r == r;
    } else {
      assert (q + r)[1..] == q[1..] + r;
      PayloadsAppend(q[1..], r);
    }
  }

  /** Everything received and not returned yet. */
  function Held(s: State): bytes {
    s.buffer + Payloads(s.queue)
  }

  function Given(o: Outcome): bytes {
    if o.Returned? then o.data else []
  }

  lemma {:induction false} FillKeeps(s: State, need: Need)
    ensures Held(Fill(s, need).0) == Held(s)
    decreases |s.queue|
  {
    if Ready(need, s.buffer) || s.queue == [] || s.queue[0].Fault? {
    } else {
      var t := s.(buffer := s.buffer + s.queue[0].payload, queue := s.queue[1..]);
      assert Held(t) == Held(s);
      FillKeeps(t, need);
    }
  }

  lemma AwaitKeeps(s: State, need: Need)
    ensures Given(Await(s, need).1) + Held(Await(s, need).0) == Held(s)
  {
    hide Fill, Payloads, Ready;
    FillKeeps(s, need);
    var t := Fill(s, need).0;
    if Fill(s, need).1.Done? {
      var k := Cut(need, t.buffer);
      assert t.buffer == t.buffer[..k] + t.buffer[k..];
    }
  }

  lemma AwaitSomeKeeps(s: State, n: int)
    ensures Given(AwaitSome(s, n).1) + Held(AwaitSome(s, n).0) == Held(s)
  {
    if s.buffer == [] && s.queue != [] && s.queue[0].Data? {
      var b := s.queue[0].payload;
      assert b == b[..SomeCut(n, b)] + b[SomeCut(n, b)..];
    } else {
      assert s.buffer == s.buffer[..SomeCut(n, s.buffer)] + s.buffer[SomeCut(n, s.buffer)..];
    }
  }

  /** No call loses, repeats or reorders a byte, whether it returns, raises or is suspended. */
  lemma CallConserves(s: State, c: Call)
    ensures Given(Begin(s, c).1) + Held(Begin(s, c).0) == Held(s)
    ensures Given(Resume(s, c).1) + Held(Resume(s, c).0) == Held(s)
  {
    hide Await, AwaitSome, Payloads;
    match c
    case Read(n) => AwaitSomeKeeps(s, n);
    case ReadExactly(n) => if n >= 1 { AwaitKeeps(s, AtLeast(n)); }
    case ReadUntil(sep) => AwaitKeeps(s, Through(sep));
  }

  // ---- chopping does not matter ----

  /** The bytes the connection will deliver before its first fault. */
  function Stream(s: State): bytes {
    s.buffer + Good(s.queue)
  }

  function Good(q: seq<Item>): bytes {
    if q == [] || q[0].Fault? then [] else q[0].payload + Good(q[1..])
  }

  predicate Faulty(q: seq<Item>) {
    q != [] && (q[0].Fault? || Faulty(q[1..]))
  }

  /** What is queued behind the first fault. */
  function BehindFault(q: seq<Item>): seq<Item> {
    if q == [] then [] else if q[0].Fault? then q[1..] else BehindFault(q[1..])
  }

  /**
   A waiting call completes exactly when the stream itself meets its need, and then it returns what
   the need cuts off the stream. Otherwise everything in front of a fault is in the buffer, and the call raises
   and closes the reader there, or stays suspended.
   */
  lemma {:induction false} AwaitIsFlat(s: State, need: Need)
    ensures var (t, o) := Await(s, need);
            if Ready(need, Stream(s)) then
              && o == Returned(Stream(s)[..Cut(need, Stream(s))])
              && Stream(t) == Stream(s)[Cut(need, Stream(s))..]
              && t.closed == s.closed
            else if Faulty(s.queue) then o == Raised && t == State(Stream(s), BehindFault(s.queue), true)
            else o == Blocked && t == State(Stream(s), [], s.closed)
    decreases |s.queue|
  {
    if Ready(need, s.buffer) {
      ReadyPrefix(need, s.buffer, Good(s.queue));
    } else if s.queue == [] {
      assert Stream(s) == s.buffer;
    } else if s.queue[0].Fault? {
      assert Stream(s) == s.buffer;
    } else {
      var t := s.(buffer := s.buffer + s.queue[0].payload, queue := s.queue[1..]);
      assert Stream(t) == Stream(s);
      AwaitIsFlat(t, need);
    }
  }

  // ---- what each call does, without the loops ----

  /** A closed reader gives nothing to read and refuses the other calls; readexactly below 1 closes it. */
  lemma RefusedCalls(s: State, c: Call)
    ensures s.closed ==> Begin(s, c) == (s, if c.Read? then Returned([]) else Raised)
    ensures !s.closed && c.ReadExactly? && c.n < 1 ==> Begin(s, c) == (State(s.buffer, s.queue, true), Raised)
    ensures !s.closed ==> Begin(s, c) == Resume(s, c)
  {}

  /**
   read, begun on an open reader or resumed, with b at hand, which is the buffer or, when that is empty, the
   first payload: -1 gives all of b; n from 0 up gives the first n bytes, as far as there are any, and the rest
   stays; below -1 the last -n bytes stay, as far as there are any.
   */
  lemma ReadGives(s: State, n: int, b: bytes)
    requires (s.buffer == b && b != []) || (s.buffer == [] && s.queue != [] && s.queue[0] == Data(b))
    ensures var (t, o) := Resume(s, Read(n));
            && (n == -1 ==> o == Returned(b) && t.buffer == [])
            && (n >= 0 ==> o == Returned(b[..Min(n, |b|)]) && t.buffer == b[Min(n, |b|)..])
            && (n < -1 && -n <= |b| ==> o == Returned(b[..|b| + n]) && t.buffer == b[|b| + n..])
            && (n < -1 && -n > |b| ==> o == Returned([]) && t.buffer == b)
            && t.queue == (if s.buffer == [] then s.queue[1..] else s.queue) && t.closed == s.closed
  {}

  /** With nothing at hand read is suspended, or raises at a fault and closes the reader. */
  lemma ReadWaits(s: State, n: int)
    requires s.buffer == []
    ensures s.queue == [] ==> Resume(s, Read(n)) == (s, Blocked)
    ensures s.queue != [] && s.queue[0].Fault? ==> Resume(s, Read(n)) == (State([], s.queue[1..], true), Raised)
  {}

  /** readexactly returns the first n bytes of the stream as soon as it has that many. */
  lemma ExactlyGives(s: State, n: int)
    requires n >= 1
    ensures var (t, o) := Resume(s, ReadExactly(n));
            if |Stream(s)| >= n then
              o == Returned(Stream(s)[..n]) && Stream(t) == Stream(s)[n..] && t.closed == s.closed
            else if Faulty(s.queue) then o == Raised && t == State(Stream(s), BehindFault(s.queue), true)
            else o == Blocked && t == State(Stream(s), [], s.closed)
  {
    hide Await, Good;
    AwaitIsFlat(s, AtLeast(n));
  }

  /** A call closes the reader if and only if it raises. */
  lemma RaisingCloses(s: State, c: Call)
    ensures Resume(s, c).0.closed <==> s.closed || Resume(s, c).1.Raised?
    ensures Begin(s, c).0.closed <==> s.closed || Begin(s, c).1.Raised?
  {
    hide Await, Good, Ready, Cut;
    match c
    case Read(_) =>
    case ReadExactly(n) => if n >= 1 { AwaitIsFlat(s, AtLeast(n)); }
    case ReadUntil(sep) => AwaitIsFlat(s, Through(sep));
  }

  /** The loop takes items from the front, and none once the need is met. */
  lemma {:induction false} FillTakesLeast(s: State, need: Need)
    ensures var (t, p) := Fill(s, need);
            var k := |s.queue| - |t.queue|;
            && 0 <= k <= |s.queue| && t.queue == s.queue[k..]
            && (p.Done? && k > 0 ==> !Ready(need, s.buffer + Payloads(s.queue[..k - 1])))
    decreases |s.queue|
  {
    hide Ready;
    if Ready(need, s.buffer) || s.queue == [] || s.queue[0].Fault? {
    } else {
      var t := s.(buffer := s.buffer + s.queue[0].payload, queue := s.queue[1..]);
      FillTakesLeast(t, need);
      var k := |t.queue| - |Fill(t, need).0.queue|;
      if k == 0 {
        assert s.buffer + Payloads(s.queue[..0]) == s.buffer;
      } else {
        assert s.queue[..k][1..] == t.queue[..k - 1];
        assert s.buffer + (s.queue[0].payload + Payloads(t.queue[..k - 1])) == t.buffer + Payloads(t.queue[..k - 1]);
      }
    }
  }

  /** A call takes items from the front of the queue; one that returns takes none it does not need. */
  lemma CallTakesLeast(s: State, c: Call)
    ensures var (t, o) := Resume(s, c);
            var k := |s.queue| - |t.queue|;
            && 0 <= k <= |s.queue| && t.queue == s.queue[k..]
            && (o.Returned? && k > 0 ==>
                  var before := s.buffer + Payloads(s.queue[..k - 1]);
                  match c
                  case Read(_) => before == [] && k == 1
                  case ReadExactly(n) => |before| < n
                  case ReadUntil(sep) => forall j :: 0 <= j ==> !OccursAt(before, sep, j))
  {
    hide Fill, FindFrom, OccursAt;
    match c
    case Read(_) => NoPayloads();
    case ReadExactly(n) => if n >= 1 { FillTakesLeast(s, AtLeast(n)); }
    case ReadUntil(sep) =>
      FillTakesLeast(s, Through(sep));
      var k := |s.queue| - |Fill(s, Through(sep)).0.queue|;
      if k > 0 {
        FindFromIsFirst(s.buffer + Payloads(s.queue[..k - 1]), sep, 0);
      }
  }

  lemma NoPayloads()
    ensures Payloads([]) == []
  {}

  // ---- what completed calls add up to ----

  /** What a completed call asked of the stream; a read asked for what it got. */
  function NeedOf(c: Call, data: bytes): Need {
    match c
    case Read(_) => AtLeast(|data|)
    case ReadExactly(n) => AtLeast(if n < 1 then 0 else n)
    case ReadUntil(sep) => Through(sep)
  }

  /** The results of calls on a plain byte stream, up to the first one the stream does not meet. */
  function FlatResults(stream: bytes, needs: seq<Need>): seq<bytes>
    decreases |needs|
  {
    if needs == [] || !Ready(needs[0], stream) then []
    else
      var k := Cut(needs[0], stream);
      [stream[..k]] + FlatResults(stream[k..], needs[1..])
  }

  /** More bytes behind the stream do not change the results of calls it has met. */
  lemma {:induction false} FlatExtends(stream: bytes, more: bytes, needs: seq<Need>)
    requires |FlatResults(stream, needs)| == |needs|
    ensures FlatResults(stream + more, needs) == FlatResults(stream, needs)
    decreases |needs|
  {
    hide Ready, Cut;
    if needs != [] {
      ReadyPrefix(needs[0], stream, more);
      var k := Cut(needs[0], stream);
      assert (stream + more)[..k] == stream[..k] && (stream + more)[k..] == stream[k..] + more;
      FlatExtends(stream[k..], more, needs[1..]);
    }
  }

  /** One more call cuts its result off what the calls before it have left. */
  lemma {:induction false} FlatSnoc(rs: seq<bytes>, left: bytes, needs: seq<Need>, need: Need)
    requires FlatResults(Concat(rs) + left, needs) == rs && |rs| == |needs| && Ready(need, left)
    ensures FlatResults(Concat(rs) + left, needs + [need]) == rs + [left[..Cut(need, left)]]
    decreases |needs|
  {
    hide Ready, Cut;
    var stream := Concat(rs) + left;
    if needs == [] {
      assert stream == left && [need][1..] == [];
      assert FlatResults(left[Cut(need, left)..], []) == [];
    } else {
      var k := Cut(needs[0], stream);
      assert rs[0] == stream[..k] && rs[1..] == FlatResults(stream[k..], needs[1..]);
      assert stream == rs[0] + (Concat(rs[1..]) + left);
      assert stream[k..] == Concat(rs[1..]) + left;
      FlatSnoc(rs[1..], left, needs[1..], need);
      assert (needs + [need])[1..] == needs[1..] + [need];
    }
  }

  /** Every result is what its need cuts off the stream behind the results before it. */
  lemma {:induction false} FlatResultsMean(stream: bytes, needs: seq<Need>, i: nat)
    requires i < |FlatResults(stream, needs)|
    ensures var rs := FlatResults(stream, needs);
            && i < |needs| && |Concat(rs[..i])| <= |stream|
            && Concat(rs[..i]) == stream[..|Concat(rs[..i])|]
            && var left := stream[|Concat(rs[..i])|..];
               Ready(needs[i], left) && rs[i] == left[..Cut(needs[i], left)]
    decreases |needs|
  {
    hide Ready, Cut;
    var rs := FlatResults(stream, needs);
    if i > 0 {
      var k := Cut(needs[0], stream);
      FlatResultsMean(stream[k..], needs[1..], i - 1);
      assert rs[1..][..i - 1] == rs[..i][1..];
    }
  }

  /** What a waiting call returns is what its need cuts off everything held. */
  lemma AwaitIsCut(s: State, need: Need)
    requires Await(s, need).1.Returned?
    ensures Ready(need, Held(s)) && Await(s, need).1.data == Held(s)[..Cut(need, Held(s))]
  {
    hide Fill, Payloads, Ready, Cut;
    FillKeeps(s, need);
    var t := Fill(s, need).0;
    ReadyPrefix(need, t.buffer, Payloads(t.queue));
  }

  /** The same for every call that returns, whether at once or resumed after any number of arrivals. */
  lemma AnswerIsCut(s: State, c: Call, o: Outcome)
    requires (o == Begin(s, c).1 || o == Resume(s, c).1) && o.Returned?
    ensures var need := NeedOf(c, o.data); Ready(need, Held(s)) && o.data == Held(s)[..Cut(need, Held(s))]
  {
    hide Await, AwaitSome, Payloads, Fill, Find;
    match c
    case Read(n) => AwaitSomeKeeps(s, n);
    case ReadExactly(n) => if n >= 1 { AwaitIsCut(s, AtLeast(n)); }
    case ReadUntil(sep) => AwaitIsCut(s, Through(sep));
  }

  /** Without a fault in the queue the stream is everything held. */
  lemma {:induction false} SoundStream(q: seq<Item>)
    requires !Faulty(q)
    ensures Good(q) == Payloads(q)
  {
    if q != [] {
      SoundStream(q[1..]);
    }
  }

  /** Among the results on a stream, a readuntil goes through the first occurrence in what was left then. */
  lemma FlatUntilIsFirst(stream: bytes, needs: seq<Need>, i: nat)
    requires i < |FlatResults(stream, needs)| && i < |needs| && needs[i].Through?
    ensures var rs := FlatResults(stream, needs);
            var sep := needs[i].sep;
            && |Concat(rs[..i])| <= |stream|
            && var left := stream[|Concat(rs[..i])|..];
               && rs[i] <= left && OccursAt(left, sep, |rs[i]| - |sep|)
               && forall j :: 0 <= j < |rs[i]| - |sep| ==> !OccursAt(left, sep, j)
  {
    hide FindFrom, FlatResults;
    FlatResultsMean(stream, needs, i);
    var left := stream[|Concat(FlatResults(stream, needs)[..i])|..];
    FindFromIsFirst(left, needs[i].sep, 0);
  }

  /**
   readuntil returns through the first occurrence of the separator in what remains of the stream, whether
   it finds it at once or was suspended before.
   */
  lemma UntilIsFirst(s: State, sep: bytes)
    ensures var (t, o) := Resume(s, ReadUntil(sep));
            && (o.Returned? <==> exists i :: OccursAt(Stream(s), sep, i))
            && (o.Returned? ==>
                  var i := |o.data| - |sep|;
                  && o.data + Stream(t) == Stream(s)
                  && OccursAt(Stream(s), sep, i)
                  && forall j :: 0 <= j < i ==> !OccursAt(Stream(s), sep, j))
    ensures !s.closed ==> Begin(s, ReadUntil(sep)) == Resume(s, ReadUntil(sep))
  {
    hide Await, FindFrom;
    AwaitIsFlat(s, Through(sep));
    FindFromIsFirst(Stream(s), sep, 0);
  }

  // ---- the class ----

  class Queue {
    var items: seq<Item>

    constructor ()
      ensures items == []
    {
      items := [];
    }

    method Put(i: Item)
      modifies this
      ensures items == old(items) + [i]
    {
      items := items + [i];
    }
  }

  /** asyncio.Event */
  class Event {
    var isSet: bool

    constructor ()
      ensures !isSet
    {
      isSet := false;
    }
  }

  /** WSNetworkServerTCPReader */
  class ServerReader {
    const inQueue: Queue
    const closedEvent: Event
    var buffer: bytes

    ghost function View(): State
      reads this, inQueue, closedEvent
    {
      State(buffer, inQueue.items, closedEvent.isSet)
    }

    constructor (q: Queue, e: Event)
      ensures inQueue == q && closedEvent == e && View() == State([], q.items, e.isSet)
    {
      inQueue, closedEvent, buffer := q, e, [];
    }

    /** __read_one on a queue that has an item: false when the item is a fault. */
    method ReadOne() returns (ok: bool)
      requires inQueue.items != []
      modifies this, inQueue, closedEvent
      ensures inQueue.items == old(inQueue.items)[1..]
      ensures ok == old(inQueue.items)[0].Data?
      ensures ok ==> buffer == old(buffer) + old(inQueue.items)[0].payload
      ensures ok ==> closedEvent.isSet == old(closedEvent.isSet)
      ensures !ok ==> buffer == old(buffer) && closedEvent.isSet
    {
      var item := inQueue.items[0];
      inQueue.items := inQueue.items[1..];
      match item {
        case Data(payload) =>
          if payload != [] {
            buffer := buffer + payload;
          }
          ok := true;
        case Fault =>
          closedEvent.isSet := true;
          ok := false;
      }
    }

    /** read: the check, then the waiting part. */
    method ReadSome(n: int) returns (o: Outcome)
      modifies this, inQueue, closedEvent
      ensures (View(), o) == Begin(old(View()), Read(n))
    {
      if closedEvent.isSet {
        return Returned([]);
      }
      o := ResumeSome(n);
    }

    method ResumeSome(n: int) returns (o: Outcome)
      modifies this, inQueue, closedEvent
      ensures (View(), o) == Resume(old(View()), Read(n))
    {
      if |buffer| == 0 {
        if inQueue.items == [] {
          return Blocked;
        }
        var ok := ReadOne();
        if !ok {
          return Raised;
        }
        assert buffer == old(inQueue.items)[0].payload;
      }
      var k := SomeCut(n, buffer);
      o := Returned(buffer[..k]);
      buffer := buffer[k..];
    }

    /** readexactly: the checks, then the waiting part. */
    method Exactly(n: int) returns (o: Outcome)
      modifies this, inQueue, closedEvent
      ensures (View(), o) == Begin(old(View()), ReadExactly(n))
    {
      if closedEvent.isSet {
        return Raised;
      }
      if n < 1 {
        closedEvent.isSet := true;
        return Raised;
      }
      o := ResumeExactly(n);
    }

    method ResumeExactly(n: int) returns (o: Outcome)
      requires n >= 1
      modifies this, inQueue, closedEvent
      ensures (View(), o) == Resume(old(View()), ReadExactly(n))
    {
      while |buffer| < n
        invariant Fill(View(), AtLeast(n)) == Fill(old(View()), AtLeast(n))
        decreases |inQueue.items|
      {
        if inQueue.items == [] {
          return Blocked;
        }
        var ok := ReadOne();
        if !ok {
          return Raised;
        }
      }
      o := Returned(buffer[..n]);
      buffer := buffer[n..];
    }

    /** readuntil: the check, then the waiting part. */
    method Until(sep: bytes) returns (o: Outcome)
      modifies this, inQueue, closedEvent
      ensures (View(), o) == Begin(old(View()), ReadUntil(sep))
    {
      if closedEvent.isSet {
        return Raised;
      }
      o := ResumeUntil(sep);
    }

    method ResumeUntil(sep: bytes) returns (o: Outcome)
      modifies this, inQueue, closedEvent
      ensures (View(), o) == Resume(old(View()), ReadUntil(sep))
    {
      while Find(buffer, sep) == -1
        invariant Fill(View(), Through(sep)) == Fill(old(View()), Through(sep))
        decreases |inQueue.items|
      {
        if inQueue.items == [] {
          return Blocked;
        }
        var ok := ReadOne();
        if !ok {
          return Raised;
        }
      }
      FindFromIsFirst(buffer, sep, 0);
      var end := Find(buffer, sep) + |sep|;
      o := Returned(buffer[..end]);
      buffer := buffer[end..];
    }
  }
}
