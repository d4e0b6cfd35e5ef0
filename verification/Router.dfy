/**
 The router: agents on one side, operators on the other, two data queues, one live signal queue and three
 registries. A step is what runs between two awaits; putting into an unbounded queue does not suspend.
 */
module Router {
  import opened Bytes
  import opened Text
  import opened Wire
  import Frames

  datatype DataItem = DataItem(agent: bytes, token: bytes, frame: bytes)
  datatype Command = Command(agent: bytes, frame: bytes)
  /** What an agent announced: a modelled message, or one of another type. */
  datatype Info = Known(m: Message) | Foreign

  datatype Signal = AgentIn(agent: bytes, info: Info) | AgentOut(agent: bytes)

  /** A frame on its way to an operator, taken from the queue and not sent yet. */
  datatype Sending = Sending(item: DataItem, op: nat)

  /**
   `clients` are the connected agents, `agents` the listed ones, `operators` the registered operators (one that
   could not be notified is not among them and may still send), `lookup` the operator of every agent id
   followed by token. `dataQ` carries frames to operators, `cmdQ` commands to agents, `sigQ` arrivals and
   departures; `sending` is the data frame being sent.
   */
  datatype Core = Core(clients: set<bytes>, agents: map<bytes, Info>, operators: set<nat>, lookup: map<bytes, nat>,
                       dataQ: seq<DataItem>, cmdQ: seq<Command>, sigQ: seq<Signal>, sending: Option<Sending>)

  const ZEROS: bytes := [0, 0, 0, 0, 0, 0, 0, 0, 0, 0, 0, 0, 0, 0, 0, 0]

  datatype Step =
    | AgentConnects(agent: bytes)
    | AgentSends(agent: bytes, data: bytes, other: bool)
    | AgentLeaves(agent: bytes)
    | OperatorConnects(op: nat)
    | OperatorSends(op: nat, data: bytes, other: bool)
    | OperatorLeaves(op: nat)
    | TakeData
    | DataSent(ok: bool)
    | TakeCommand(ok: bool)
    | TakeSignal

  // ---- what each task does between two awaits ----

  /** CMD.from_bytes; `other` says that the bytes are a message of a type that is not modelled. */
  function Understood(data: bytes, other: bool): Option<Info> {
    match DecodeBytes(data)
    case Some(m) => Some(Known(m))
    case None => if other then Some(Foreign) else None
  }

  /** The handler of an agent ends: it is forgotten and its departure signalled, once. */
  function Leaves(c: Core, a: bytes): Core {
    if a !in c.clients then c else c.(clients := c.clients - {a}, sigQ := c.sigQ + [AgentOut(a)])
  }

  /** A frame from an agent: with the zero token it announces the agent, else it is data for operators. */
  function FromAgent(c: Core, a: bytes, data: bytes, other: bool): Core {
    var token := Slice(data, 6, 22);
    if a !in c.clients then c
    else if token == ZEROS then
      match Understood(data, other)
      case None => Leaves(c, a)
      case Some(reply) => c.(sigQ := c.sigQ + [AgentIn(a, reply)])
    else c.(dataQ := c.dataQ + [DataItem(a, token, data)])
  }

  /** The data frame received, if it is one. */
  function Received(c: Core, a: bytes, data: bytes): seq<DataItem> {
    if a in c.clients && Slice(data, 6, 22) != ZEROS then [DataItem(a, Slice(data, 6, 22), data)] else []
  }

  /** A frame that announces its agent. */
  predicate Announces(c: Core, a: bytes, data: bytes, other: bool) {
    a in c.clients && Slice(data, 6, 22) == ZEROS && Understood(data, other).Some?
  }

  /** What a frame tells of its agent: an announcement, or a departure when that cannot be read. */
  function Told(c: Core, a: bytes, data: bytes, other: bool): seq<Signal> {
    if a !in c.clients || Slice(data, 6, 22) != ZEROS then []
    else
      match DecodeBytes(data)
      case Some(m) => [AgentIn(a, Known(m))]
      case None => if other then [AgentIn(a, Foreign)] else [AgentOut(a)]
  }

  /** A frame from an operator is routed when it names a listed agent. */
  predicate Routes(c: Core, data: bytes) {
    && !AsksRouter(data)
    && Slice(data, 4, 20) in c.agents
  }

  function FromOperator(c: Core, op: nat, data: bytes, other: bool): Core {
    var agentid, agentdata, token := Slice(data, 4, 20), Tail(data, 20), Slice(data, 26, 42);
    if token == ZEROS && agentid == ZEROS then
      if Understood(agentdata, other).None? then c.(operators := c.operators - {op}) else c
    else if agentid !in c.agents then c
    else c.(lookup := c.lookup[agentid + token := op], cmdQ := c.cmdQ + [Command(agentid, agentdata)])
  }

  function TakesData(c: Core): Core {
    if c.sending.Some? || c.dataQ == [] then c
    else
      var item := c.dataQ[0];
      var tid := item.agent + item.token;
      c.(dataQ := c.dataQ[1..], sending := if tid in c.lookup then Some(Sending(item, c.lookup[tid])) else None)
  }

  /** When sending failed the entry is dropped, whoever it names by now. */
  function SentData(c: Core, ok: bool): Core {
    if c.sending.None? then c
    else
      var item := c.sending.value.item;
      c.(sending := None, lookup := if ok then c.lookup else c.lookup - {item.agent + item.token})
  }

  function TakesCommand(c: Core): Core {
    if c.cmdQ == [] then c else c.(cmdQ := c.cmdQ[1..])
  }

  function TakesSignal(c: Core): Core {
    if c.sigQ == [] then c
    else
      var d := c.(sigQ := c.sigQ[1..]);
      match c.sigQ[0]
      case AgentIn(a, info) => d.(agents := c.agents[a := info])
      case AgentOut(a) => d.(agents := c.agents - {a})
  }

  // ---- runs with their history ----

  /** An operator's frame that was routed: who addressed whom with which token, and the frame as it came. */
  datatype Addressing = Addressing(op: nat, agent: bytes, token: bytes, raw: bytes)

  /** A data frame sent to an operator; `at` counts the addressings made before it was looked up. */
  datatype Delivery = Delivery(item: DataItem, op: nat, at: nat)

  datatype Attempt = Attempt(delivery: Delivery, ok: bool)

  /**
   `used` are the agent ids ever handed out, `announced` those whose agent announced itself. `fromAgents`
   lists the data frames received from agents, `taken` those the queue task took, `ats` how many addressings
   there were then and `marks` how many at the last failed send of the same agent and token. `attempts` are
   the sends that ended, `delivered` the good ones; `failedAt` is, by agent id followed by token, how many
   addressings there were at the last failed send. `addressed` lists the routed operator frames, `commands`
   those the command task took, `forwarded` those an agent got, `unsent` the agents one of whose sends failed.
   `signalled` lists the announcements agents made and their departures, `handled` the signals that were taken.
   */
  datatype System = System(core: Core, used: set<bytes>, announced: set<bytes>,
                           fromAgents: seq<DataItem>, taken: seq<DataItem>, ats: seq<nat>, marks: seq<nat>,
                           attempts: seq<Attempt>, delivered: seq<Delivery>, failedAt: map<bytes, nat>,
                           addressed: seq<Addressing>, commands: seq<Command>, forwarded: seq<Command>,
                           unsent: set<bytes>, signalled: seq<Signal>, handled: seq<Signal>)

  function Initial(): System {
    System(Core({}, map[], {}, map[], [], [], [], None), {}, {}, [], [], [], [], [], [], map[], [], [], [], {}, [], [])
  }

  /** How many addressings there were at the last failed send of an agent id followed by a token. */
  function Mark(s: System, tid: bytes): nat {
    if tid in s.failedAt then s.failedAt[tid] else 0
  }

  function LastAt(s: System): nat {
    if s.ats == [] then 0 else s.ats[|s.ats| - 1]
  }

  function Exec(s: System, step: Step): System {
    var c := s.core;
    match step
    case AgentConnects(a) =>
      if |a| != 16 || a in s.used then s else s.(core := c.(clients := c.clients + {a}), used := s.used + {a})
    case AgentSends(a, data, other) =>
      s.(core := FromAgent(c, a, data, other), fromAgents := s.fromAgents + Received(c, a, data),
         announced := if Announces(c, a, data, other) then s.announced + {a} else s.announced,
         signalled := s.signalled + Told(c, a, data, other))
    case AgentLeaves(a) =>
      s.(core := Leaves(c, a), signalled := if a in c.clients then s.signalled + [AgentOut(a)] else s.signalled)
    case OperatorConnects(op) => s.(core := c.(operators := c.operators + {op}))
    case OperatorSends(op, data, other) =>
      var x := Addressing(op, Slice(data, 4, 20), Slice(data, 26, 42), data);
      s.(core := FromOperator(c, op, data, other),
         addressed := if Routes(c, data) then s.addressed + [x] else s.addressed)
    case OperatorLeaves(op) => s.(core := c.(operators := c.operators - {op}))
    case TakeData =>
      if c.sending.Some? || c.dataQ == [] then s
      else
        s.(core := TakesData(c), taken := s.taken + [c.dataQ[0]], ats := s.ats + [|s.addressed|],
           marks := s.marks + [Mark(s, c.dataQ[0].agent + c.dataQ[0].token)])
    case DataSent(ok) =>
      if c.sending.None? then s
      else
        var d := Delivery(c.sending.value.item, c.sending.value.op, LastAt(s));
        s.(core := SentData(c, ok), attempts := s.attempts + [Attempt(d, ok)],
           delivered := if ok then s.delivered + [d] else s.delivered,
           failedAt := if ok then s.failedAt else s.failedAt[d.item.agent + d.item.token := |s.addressed|])
    case TakeCommand(ok) =>
      if c.cmdQ == [] then s
      else
        var x := c.cmdQ[0];
        s.(core := TakesCommand(c), commands := s.commands + [x],
           forwarded := if ok && x.agent in c.clients then s.forwarded + [x] else s.forwarded,
           unsent := if ok || x.agent !in c.clients then s.unsent else s.unsent + {x.agent})
    case TakeSignal =>
      if c.sigQ == [] then s else s.(core := TakesSignal(c), handled := s.handled + [c.sigQ[0]])
  }

  function Run(s: System, steps: seq<Step>): System
    decreases |steps|
  {
    if steps == [] then s else Run(Exec(s, steps[0]), steps[1..])
  }

  // ---- subsequences ----

  predicate Subsequence<T(==)>(xs: seq<T>, ys: seq<T>)
    decreases |ys|
  {
    xs == [] ||
    (ys != [] &&
      (Subsequence(xs, ys[..|ys| - 1]) ||
       (xs[|xs| - 1] == ys[|ys| - 1] && Subsequence(xs[..|xs| - 1], ys[..|ys| - 1]))))
  }

  lemma SubsequenceSnoc<T>(xs: seq<T>, ys: seq<T>, y: T)
    requires Subsequence(xs, ys)
    ensures Subsequence(xs, ys + [y]) && Subsequence(xs + [y], ys + [y])
  {
    assert (ys + [y])[..|ys|] == ys && (xs + [y])[..|xs|] == xs;
  }

  lemma {:induction false} SubsequenceAppend<T>(xs: seq<T>, ys: seq<T>, zs: seq<T>)
    requires Subsequence(xs, ys)
    ensures Subsequence(xs, ys + zs)
    decreases |zs|
  {
    if zs == [] {
      assert ys + zs == ys;
    } else {
      SubsequenceAppend(xs, ys, zs[..|zs| - 1]);
      SubsequenceSnoc(xs, ys + zs[..|zs| - 1], zs[|zs| - 1]);
      assert ys + zs == ys + zs[..|zs| - 1] + [zs[|zs| - 1]];
    }
  }

  /** The items of one agent and token. */
  function Of(items: seq<DataItem>, a: bytes, t: bytes): seq<DataItem> {
    if items == [] then []
    else
      var i := items[|items| - 1];
      Of(items[..|items| - 1], a, t) + if i.agent == a && i.token == t then [i] else []
  }

  lemma {:induction false} SubsequenceOf(xs: seq<DataItem>, ys: seq<DataItem>, a: bytes, t: bytes)
    requires Subsequence(xs, ys)
    ensures Subsequence(Of(xs, a, t), Of(ys, a, t))
    decreases |ys|
  {
    hide Subsequence, Of;
    if xs == [] {
      EmptySubsequence(Of(ys, a, t));
      OfNone(a, t);
    } else {
      SubsequenceCases(xs, ys);
      var y := ys[|ys| - 1];
      var ys' := ys[..|ys| - 1];
      OfLast(ys, a, t);
      OfLast(xs, a, t);
      if Subsequence(xs, ys') {
        SubsequenceOf(xs, ys', a, t);
        SubsequenceSnoc(Of(xs, a, t), Of(ys', a, t), y);
      } else {
        SubsequenceOf(xs[..|xs| - 1], ys', a, t);
        SubsequenceSnoc(Of(xs[..|xs| - 1], a, t), Of(ys', a, t), y);
      }
    }
  }

  lemma OfNone(a: bytes, t: bytes)
    ensures Of([], a, t) == []
  {}

  lemma EmptySubsequence<T>(ys: seq<T>)
    ensures Subsequence([], ys)
  {}

  lemma OfLast(items: seq<DataItem>, a: bytes, t: bytes)
    requires items != []
    ensures var i := items[|items| - 1];
            Of(items, a, t) == if i.agent == a && i.token == t then Of(items[..|items| - 1], a, t) + [i]
                               else Of(items[..|items| - 1], a, t)
  {}

  lemma SubsequenceCases<T>(xs: seq<T>, ys: seq<T>)
    requires xs != [] && Subsequence(xs, ys)
    ensures ys != []
    ensures Subsequence(xs, ys[..|ys| - 1])
         || (xs[|xs| - 1] == ys[|ys| - 1] && Subsequence(xs[..|xs| - 1], ys[..|ys| - 1]))
  {}

  // ---- registries ----

  /** The listed agents after one signal. */
  function Signalled(agents: set<bytes>, sig: Signal): set<bytes> {
    if sig.AgentIn? then agents + {sig.agent} else agents - {sig.agent}
  }

  /** The listed agents after the pending signals have been handled. */
  function Replay(sigQ: seq<Signal>, agents: set<bytes>): set<bytes>
    decreases |sigQ|
  {
    if sigQ == [] then agents else Signalled(Replay(sigQ[..|sigQ| - 1], agents), sigQ[|sigQ| - 1])
  }

  lemma ReplaySnoc(sigQ: seq<Signal>, agents: set<bytes>, sig: Signal)
    ensures Replay(sigQ + [sig], agents) == Signalled(Replay(sigQ, agents), sig)
  {
    assert (sigQ + [sig])[..|sigQ|] == sigQ;
  }

  lemma {:induction false} ReplayHead(sig: Signal, rest: seq<Signal>, agents: set<bytes>)
    ensures Replay([sig] + rest, agents) == Replay(rest, Signalled(agents, sig))
    decreases |rest|
  {
    var q := [sig] + rest;
    if rest == [] {
      assert q[..|q| - 1] == [];
    } else {
      assert q[..|q| - 1] == [sig] + rest[..|rest| - 1];
      ReplayHead(sig, rest[..|rest| - 1], agents);
    }
  }

  /** The agents that are or will be listed are the connected ones that announced themselves. */
  predicate RegistriesAgree(s: System) {
    && Replay(s.core.sigQ, s.core.agents.Keys) == s.core.clients * s.announced
    && s.core.clients <= s.used && s.announced <= s.used
    && forall a :: a in s.used ==> |a| == 16
  }

  lemma SendingKeepsRegistries(s: System, a: bytes, data: bytes, other: bool)
    requires RegistriesAgree(s)
    ensures RegistriesAgree(Exec(s, AgentSends(a, data, other)))
  {
    hide Replay, Understood, Slice;
    var c := s.core;
    ReplaySnoc(c.sigQ, c.agents.Keys, AgentOut(a));
    if Understood(data, other).Some? {
      ReplaySnoc(c.sigQ, c.agents.Keys, AgentIn(a, Understood(data, other).value));
    }
  }

  lemma SignalKeepsRegistries(s: System)
    requires RegistriesAgree(s)
    ensures RegistriesAgree(Exec(s, TakeSignal))
  {
    hide Replay;
    var c := s.core;
    if c.sigQ != [] {
      ReplayHead(c.sigQ[0], c.sigQ[1..], c.agents.Keys);
      assert c.sigQ == [c.sigQ[0]] + c.sigQ[1..];
      assert Exec(s, TakeSignal).core.agents.Keys == Signalled(c.agents.Keys, c.sigQ[0]);
    }
  }

  lemma StepKeepsRegistries(s: System, step: Step)
    requires RegistriesAgree(s)
    ensures RegistriesAgree(Exec(s, step))
  {
    hide Replay, FromAgent, FromOperator, Routes, Announces, Received;
    match step
    case AgentSends(a, data, other) => SendingKeepsRegistries(s, a, data, other);
    case AgentLeaves(a) => ReplaySnoc(s.core.sigQ, s.core.agents.Keys, AgentOut(a));
    case TakeSignal => SignalKeepsRegistries(s);
    case OperatorSends(op, data, other) => RoutingFrame(s.core, op, data, other);
    case _ =>
  }

  // ---- what is known of an agent ----

  /** The last signal about an agent. */
  function LastSignal(sigs: seq<Signal>, a: bytes): Option<Signal>
    decreases |sigs|
  {
    if sigs == [] then None
    else if sigs[|sigs| - 1].agent == a then Some(sigs[|sigs| - 1])
    else LastSignal(sigs[..|sigs| - 1], a)
  }

  /** What the list has of an agent. */
  function Listed(c: Core, a: bytes): Option<Info> {
    if a in c.agents then Some(c.agents[a]) else None
  }

  function InfoIn(sig: Option<Signal>): Option<Info> {
    if sig.Some? && sig.value.AgentIn? then Some(sig.value.info) else None
  }

  /** The list has what the last signal taken about an agent says; every signal told is taken or pending. */
  predicate Informed(s: System, a: bytes) {
    s.signalled == s.handled + s.core.sigQ && Listed(s.core, a) == InfoIn(LastSignal(s.handled, a))
  }

  /** Frames from agents leave the list alone and signal what they tell. */
  lemma TellingFrame(c: Core, a: bytes, data: bytes, other: bool)
    ensures var d := FromAgent(c, a, data, other); d.agents == c.agents && d.sigQ == c.sigQ + Told(c, a, data, other)
  {
    hide DecodeBytes, Slice;
  }

  /** What a step tells of the agents; taking a signal aside it leaves the list alone. */
  lemma TellingStep(s: System, step: Step)
    requires !step.TakeSignal?
    ensures var t := Exec(s, step);
            && t.core.agents == s.core.agents && t.handled == s.handled
            && exists more :: t.signalled == s.signalled + more && t.core.sigQ == s.core.sigQ + more
  {
    hide FromAgent, Told, Announces, Received, FromOperator, Routes, Slice, Tail;
    var t := Exec(s, step);
    if step.AgentSends? {
      TellingFrame(s.core, step.agent, step.data, step.other);
      assert t.signalled == s.signalled + Told(s.core, step.agent, step.data, step.other);
    } else if step.AgentLeaves? {
      var more := if step.agent in s.core.clients then [AgentOut(step.agent)] else [];
      assert t.signalled == s.signalled + more && t.core.sigQ == s.core.sigQ + more;
    } else {
      if step.OperatorSends? {
        RoutingFrame(s.core, step.op, step.data, step.other);
      }
      assert t.signalled == s.signalled + [] && t.core.sigQ == s.core.sigQ + [];
    }
  }

  lemma LastSignalSnoc(sigs: seq<Signal>, sig: Signal, a: bytes)
    ensures LastSignal(sigs + [sig], a) == if sig.agent == a then Some(sig) else LastSignal(sigs, a)
  {
    assert (sigs + [sig])[..|sigs|] == sigs;
  }

  lemma TakingInforms(s: System, a: bytes)
    requires Informed(s, a) && s.core.sigQ != []
    ensures Informed(Exec(s, TakeSignal), a)
  {
    hide LastSignal;
    var sig := s.core.sigQ[0];
    LastSignalSnoc(s.handled, sig, a);
    assert s.handled + s.core.sigQ == s.handled + [sig] + s.core.sigQ[1..];
  }

  lemma StepKeepsInformed(s: System, step: Step, a: bytes)
    requires Informed(s, a)
    ensures Informed(Exec(s, step), a)
  {
    hide Exec, LastSignal;
    if step.TakeSignal? {
      if s.core.sigQ == [] {
        NoSignalTaken(s);
      } else {
        TakingInforms(s, a);
      }
    } else {
      TellingStep(s, step);
      var t := Exec(s, step);
      var more :| t.signalled == s.signalled + more && t.core.sigQ == s.core.sigQ + more;
      assert s.handled + s.core.sigQ + more == s.handled + (s.core.sigQ + more);
    }
  }

  lemma NoSignalTaken(s: System)
    requires s.core.sigQ == []
    ensures Exec(s, TakeSignal) == s
  {}

  /** What a frame from an operator can change. */
  lemma RoutingFrame(c: Core, op: nat, data: bytes, other: bool)
    ensures var d := FromOperator(c, op, data, other);
            && d == c.(operators := d.operators, lookup := d.lookup, cmdQ := d.cmdQ)
            && d.cmdQ == c.cmdQ + (if Routes(c, data) then [Command(Slice(data, 4, 20), Tail(data, 20))] else [])
  {
    hide Understood, Slice, Tail;
  }

  // ---- addressing ----

  /** The operator that addressed agent a with token t last. */
  function LastAddresser(log: seq<Addressing>, a: bytes, t: bytes): Option<nat>
    decreases |log|
  {
    if log == [] then None
    else
      var x := log[|log| - 1];
      if x.agent == a && x.token == t then Some(x.op) else LastAddresser(log[..|log| - 1], a, t)
  }

  lemma LastAddresserSnoc(log: seq<Addressing>, x: Addressing, a: bytes, t: bytes)
    ensures LastAddresser(log + [x], a, t)
         == if x.agent == a && x.token == t then Some(x.op) else LastAddresser(log, a, t)
  {
    assert (log + [x])[..|log|] == log;
  }

  lemma LastOfSuffix(log: seq<Addressing>, m: nat, a: bytes, t: bytes)
    requires m <= |log| && LastAddresser(log[m..], a, t).Some?
    ensures LastAddresser(log, a, t) == LastAddresser(log[m..], a, t)
    decreases |log|
  {
    var x := log[|log| - 1];
    if !(x.agent == a && x.token == t) {
      assert log[m..][..|log| - m - 1] == log[..|log| - 1][m..];
      LastOfSuffix(log[..|log| - 1], m, a, t);
    }
  }

  /** The operator that addressed an agent and token last since their last failed send. */
  function Recent(s: System, a: bytes, t: bytes): Option<nat>
    requires Mark(s, a + t) <= |s.addressed|
  {
    LastAddresser(s.addressed[Mark(s, a + t)..], a, t)
  }

  predicate MarksArePast(s: System) {
    forall tid :: tid in s.failedAt ==> s.failedAt[tid] <= |s.addressed|
  }

  function Lookup(s: System, tid: bytes): Option<nat> {
    if tid in s.core.lookup then Some(s.core.lookup[tid]) else None
  }

  /** The lookup table has just those operators. */
  ghost predicate LookupIsRecent(s: System) {
    && MarksArePast(s)
    && forall a, t {:trigger Recent(s, a, t)} :: |a| == 16 ==> Lookup(s, a + t) == Recent(s, a, t)
  }

  lemma SplitId(a: bytes, t: bytes, b: bytes, u: bytes)
    requires |a| == |b| == 16 && a + t == b + u
    ensures a == b && t == u
  {
    assert a == (a + t)[..16] && t == (a + t)[16..];
    assert b == (b + u)[..16] && u == (b + u)[16..];
  }

  lemma OperatorKeepsLookup(s: System, op: nat, data: bytes, other: bool)
    requires LookupIsRecent(s) && (forall a :: a in s.core.agents ==> |a| == 16)
    ensures LookupIsRecent(Exec(s, OperatorSends(op, data, other)))
  {
    hide Understood, LastAddresser, Slice;
    var t := Exec(s, OperatorSends(op, data, other));
    forall a, k | |a| == 16 ensures Lookup(t, a + k) == Recent(t, a, k) {
      assert Lookup(s, a + k) == Recent(s, a, k);
      if Routes(s.core, data) {
        var x := Addressing(op, Slice(data, 4, 20), Slice(data, 26, 42), data);
        var m := Mark(s, a + k);
        assert t.addressed[m..] == s.addressed[m..] + [x];
        LastAddresserSnoc(s.addressed[m..], x, a, k);
        if a + k == x.agent + x.token {
          SplitId(a, k, x.agent, x.token);
        }
      }
    }
  }

  lemma SentKeepsLookup(s: System, ok: bool)
    requires LookupIsRecent(s)
    ensures LookupIsRecent(Exec(s, DataSent(ok)))
  {
    var t := Exec(s, DataSent(ok));
    forall a, k | |a| == 16 ensures Lookup(t, a + k) == Recent(t, a, k) {
      assert Lookup(s, a + k) == Recent(s, a, k);
    }
  }

  /** An addressing as the router made it from the operator's bytes. */
  predicate FaithfulAddressing(x: Addressing) {
    x.agent == Slice(x.raw, 4, 20) && x.token == Slice(x.raw, 26, 42)
  }

  function CommandOf(x: Addressing): Command {
    Command(x.agent, Tail(x.raw, 20))
  }

  function CommandsOf(log: seq<Addressing>): seq<Command> {
    if log == [] then [] else CommandsOf(log[..|log| - 1]) + [CommandOf(log[|log| - 1])]
  }

  lemma CommandsSnoc(log: seq<Addressing>, x: Addressing)
    ensures CommandsOf(log + [x]) == CommandsOf(log) + [CommandOf(x)]
  {
    assert (log + [x])[..|log|] == log;
  }

  function ItemsOf(ds: seq<Delivery>): seq<DataItem> {
    if ds == [] then [] else ItemsOf(ds[..|ds| - 1]) + [ds[|ds| - 1].item]
  }

  lemma ItemsSnoc(ds: seq<Delivery>, d: Delivery)
    ensures ItemsOf(ds + [d]) == ItemsOf(ds) + [d.item]
  {
    assert (ds + [d])[..|ds|] == ds;
  }

  /** A delivery went to the operator that had addressed its agent and token last when it was looked up. */
  predicate WellAddressed(s: System, d: Delivery) {
    && d.at <= |s.addressed|
    && LastAddresser(s.addressed[..d.at], d.item.agent, d.item.token) == Some(d.op)
  }

  /** A data frame came from an agent with the token its header has at offset 6. */
  predicate FromItsAgent(s: System, i: DataItem) {
    i.agent in s.used && i.token == Slice(i.frame, 6, 22)
  }

  // ---- the data path ----

  predicate DataGood(s: System) {
    var c := s.core;
    && s.fromAgents == s.taken + c.dataQ
    && (forall i :: i in s.fromAgents ==> FromItsAgent(s, i))
    && (c.sending.None? ==> Subsequence(ItemsOf(s.delivered), s.taken))
    && (c.sending.Some? ==>
          && s.taken != [] && s.taken[|s.taken| - 1] == c.sending.value.item
          && Subsequence(ItemsOf(s.delivered), s.taken[..|s.taken| - 1])
          && WellAddressed(s, Delivery(c.sending.value.item, c.sending.value.op, LastAt(s))))
    && (forall d :: d in s.delivered ==> WellAddressed(s, d))
  }

  predicate CommandsGood(s: System) {
    && CommandsOf(s.addressed) == s.commands + s.core.cmdQ
    && Subsequence(s.forwarded, s.commands)
    && forall x :: x in s.addressed ==> FaithfulAddressing(x)
  }

  ghost predicate Good(s: System) {
    RegistriesAgree(s) && LookupIsRecent(s) && DataGood(s) && CommandsGood(s)
  }

  lemma AddressingKeepsDelivery(s: System, x: Addressing, d: Delivery)
    requires WellAddressed(s, d)
    ensures WellAddressed(s.(addressed := s.addressed + [x]), d)
  {
    assert (s.addressed + [x])[..d.at] == s.addressed[..d.at];
  }

  lemma AgentKeepsData(s: System, step: Step)
    requires DataGood(s) && (step.AgentConnects? || step.AgentLeaves?)
    ensures DataGood(Exec(s, step))
  {
    hide Understood, Replay, ItemsOf, Subsequence, LastAddresser;
    var t := Exec(s, step);
    forall d | d in t.delivered ensures WellAddressed(t, d) {
      assert WellAddressed(s, d);
    }
  }

  lemma OnlyDataIsQueued(c: Core, a: bytes, data: bytes, other: bool)
    ensures var d := FromAgent(c, a, data, other);
            d.dataQ == c.dataQ + Received(c, a, data) && d.sending == c.sending && d.cmdQ == c.cmdQ
  {
    hide Understood, Slice;
  }

  lemma ReceivedIsFromItsAgent(s: System, a: bytes, data: bytes)
    requires RegistriesAgree(s)
    ensures forall i :: i in Received(s.core, a, data) ==> FromItsAgent(s, i)
  {
    hide Replay;
  }

  lemma SameAgents(s: System, t: System, i: DataItem)
    requires s.used == t.used && FromItsAgent(s, i)
    ensures FromItsAgent(t, i)
  {}

  lemma SameItems(s: System, t: System)
    requires s.used == t.used && s.fromAgents == t.fromAgents && forall i :: i in s.fromAgents ==> FromItsAgent(s, i)
    ensures forall i :: i in t.fromAgents ==> FromItsAgent(t, i)
  {
    hide FromItsAgent;
    forall i | i in t.fromAgents ensures FromItsAgent(t, i) {
      SameAgents(s, t, i);
    }
  }

  lemma ReceivingKeepsData(s: System, a: bytes, data: bytes, other: bool)
    requires DataGood(s) && RegistriesAgree(s)
    ensures DataGood(Exec(s, AgentSends(a, data, other)))
  {
    hide Understood, Replay, ItemsOf, Subsequence, WellAddressed, FromItsAgent, FromAgent, Received, RegistriesAgree;
    var t := Exec(s, AgentSends(a, data, other));
    OnlyDataIsQueued(s.core, a, data, other);
    ReceivedIsFromItsAgent(s, a, data);
    assert t.fromAgents == t.taken + t.core.dataQ;
    forall i | i in t.fromAgents ensures FromItsAgent(t, i) {
      if i in s.fromAgents {
        SameAgents(s, t, i);
      } else {
        assert i in Received(s.core, a, data);
        SameAgents(s, t, i);
      }
    }
    if s.core.sending.Some? {
      SameLog(s, t, Delivery(s.core.sending.value.item, s.core.sending.value.op, LastAt(s)));
    }
    forall d | d in t.delivered ensures WellAddressed(t, d) {
      SameLog(s, t, d);
    }
  }

  lemma OperatorKeepsData(s: System, op: nat, data: bytes, other: bool)
    requires DataGood(s)
    ensures DataGood(Exec(s, OperatorSends(op, data, other)))
  {
    hide Understood, ItemsOf, Subsequence, WellAddressed;
    var t := Exec(s, OperatorSends(op, data, other));
    if Routes(s.core, data) {
      var x := Addressing(op, Slice(data, 4, 20), Slice(data, 26, 42), data);
      var u := s.(addressed := s.addressed + [x]);
      if s.core.sending.Some? {
        AddressingKeepsDelivery(s, x, Delivery(s.core.sending.value.item, s.core.sending.value.op, LastAt(s)));
        SameLog(u, t, Delivery(s.core.sending.value.item, s.core.sending.value.op, LastAt(s)));
      }
      forall d | d in t.delivered ensures WellAddressed(t, d) {
        AddressingKeepsDelivery(s, x, d);
        SameLog(u, t, d);
      }
    } else {
      if s.core.sending.Some? {
        SameLog(s, t, Delivery(s.core.sending.value.item, s.core.sending.value.op, LastAt(s)));
      }
      forall d | d in t.delivered ensures WellAddressed(t, d) {
        SameLog(s, t, d);
      }
    }
  }

  lemma SameLog(s: System, t: System, d: Delivery)
    requires s.addressed == t.addressed
    ensures WellAddressed(s, d) <==> WellAddressed(t, d)
  {}

  /** What taking a data frame changes. */
  lemma TakeEffect(s: System)
    requires s.core.sending.None? && s.core.dataQ != []
    ensures var t := Exec(s, TakeData);
            var item := s.core.dataQ[0];
            var tid := item.agent + item.token;
            && t.core.dataQ == s.core.dataQ[1..]
            && t.core.sending == (if tid in s.core.lookup then Some(Sending(item, s.core.lookup[tid])) else None)
            && t.taken == s.taken + [item] && LastAt(t) == |s.addressed|
            && t.used == s.used && t.fromAgents == s.fromAgents && t.delivered == s.delivered
            && t.addressed == s.addressed
  {}

  lemma TakeKeepsData(s: System)
    requires DataGood(s) && LookupIsRecent(s) && RegistriesAgree(s)
    ensures DataGood(Exec(s, TakeData))
  {
    hide ItemsOf, Subsequence, WellAddressed, Replay, LookupIsRecent, Exec, LastAt, FromItsAgent, LastAddresser;
    var c := s.core;
    if c.sending.Some? || c.dataQ == [] {
      NothingTaken(s);
    } else {
      var t := Exec(s, TakeData);
      var item := c.dataQ[0];
      TakeEffect(s);
      assert s.taken + c.dataQ == s.taken + [item] + c.dataQ[1..];
      assert item in s.fromAgents;
      ItemOfAgent(s, item);
      assert t.taken[..|t.taken| - 1] == s.taken;
      SubsequenceSnoc(ItemsOf(s.delivered), s.taken, item);
      if item.agent + item.token in c.lookup {
        LookedUp(s, item);
        SameLog(s, t, Delivery(item, c.lookup[item.agent + item.token], |s.addressed|));
      }
      SameItems(s, t);
      forall d | d in t.delivered ensures WellAddressed(t, d) {
        SameLog(s, t, d);
      }
    }
  }

  lemma NothingTaken(s: System)
    requires s.core.sending.Some? || s.core.dataQ == []
    ensures Exec(s, TakeData) == s
  {}

  lemma ItemOfAgent(s: System, item: DataItem)
    requires FromItsAgent(s, item) && RegistriesAgree(s)
    ensures |item.agent| == 16
  {
    hide Replay;
  }

  lemma LookedUp(s: System, item: DataItem)
    requires LookupIsRecent(s) && |item.agent| == 16 && item.agent + item.token in s.core.lookup
    ensures WellAddressed(s, Delivery(item, s.core.lookup[item.agent + item.token], |s.addressed|))
  {
    assert s.addressed[..|s.addressed|] == s.addressed;
    assert Lookup(s, item.agent + item.token) == Recent(s, item.agent, item.token);
    LastOfSuffix(s.addressed, Mark(s, item.agent + item.token), item.agent, item.token);
  }

  /** What the end of a send changes. */
  lemma SentEffect(s: System, ok: bool)
    requires s.core.sending.Some?
    ensures var t := Exec(s, DataSent(ok));
            var d := Delivery(s.core.sending.value.item, s.core.sending.value.op, LastAt(s));
            && t.core.dataQ == s.core.dataQ && t.core.sending.None?
            && t.delivered == (if ok then s.delivered + [d] else s.delivered)
            && t.taken == s.taken && t.used == s.used && t.fromAgents == s.fromAgents && t.addressed == s.addressed
  {}

  lemma SentKeepsData(s: System, ok: bool)
    requires DataGood(s)
    ensures DataGood(Exec(s, DataSent(ok)))
  {
    hide ItemsOf, Subsequence, WellAddressed, Exec, LastAt, FromItsAgent;
    var c := s.core;
    if c.sending.None? {
      NothingSent(s, ok);
    } else {
      var t := Exec(s, DataSent(ok));
      var d := Delivery(c.sending.value.item, c.sending.value.op, LastAt(s));
      SentEffect(s, ok);
      SentInOrder(s.taken, s.delivered, d);
      SentWell(s, t, d);
      SameItems(s, t);
    }
  }

  /** The frame taken last may be delivered behind the others. */
  lemma SentInOrder(taken: seq<DataItem>, delivered: seq<Delivery>, d: Delivery)
    requires taken != [] && taken[|taken| - 1] == d.item && Subsequence(ItemsOf(delivered), taken[..|taken| - 1])
    ensures Subsequence(ItemsOf(delivered), taken) && Subsequence(ItemsOf(delivered + [d]), taken)
  {
    hide ItemsOf, Subsequence;
    var front := taken[..|taken| - 1];
    assert taken == front + [d.item];
    SubsequenceSnoc(ItemsOf(delivered), front, d.item);
    ItemsSnoc(delivered, d);
  }

  lemma SentWell(s: System, t: System, d: Delivery)
    requires s.addressed == t.addressed && (t.delivered == s.delivered || t.delivered == s.delivered + [d])
    requires WellAddressed(s, d) && forall e :: e in s.delivered ==> WellAddressed(s, e)
    ensures forall e :: e in t.delivered ==> WellAddressed(t, e)
  {
    hide WellAddressed;
    forall e | e in t.delivered ensures WellAddressed(t, e) {
      SameLog(s, t, e);
    }
  }

  lemma NothingSent(s: System, ok: bool)
    requires s.core.sending.None?
    ensures Exec(s, DataSent(ok)) == s
  {}

  /** The other steps leave the data path alone. */
  lemma OtherEffect(s: System, step: Step)
    requires step.OperatorConnects? || step.OperatorLeaves? || step.TakeCommand? || step.TakeSignal?
    ensures var t := Exec(s, step);
            && t.core.dataQ == s.core.dataQ && t.core.sending == s.core.sending && t.delivered == s.delivered
            && t.taken == s.taken && t.used == s.used && t.fromAgents == s.fromAgents
            && t.addressed == s.addressed && t.ats == s.ats
  {}

  lemma OtherKeepsData(s: System, step: Step)
    requires DataGood(s) && (step.OperatorConnects? || step.OperatorLeaves? || step.TakeCommand? || step.TakeSignal?)
    ensures DataGood(Exec(s, step))
  {
    hide ItemsOf, Subsequence, WellAddressed, Exec, FromItsAgent;
    var t := Exec(s, step);
    OtherEffect(s, step);
    if s.core.sending.Some? {
      SameLog(s, t, Delivery(s.core.sending.value.item, s.core.sending.value.op, LastAt(s)));
    }
    SameItems(s, t);
    forall d | d in t.delivered ensures WellAddressed(t, d) {
      SameLog(s, t, d);
    }
  }

  lemma StepKeepsData(s: System, step: Step)
    requires DataGood(s) && LookupIsRecent(s) && RegistriesAgree(s)
    ensures DataGood(Exec(s, step))
  {
    hide DataGood, LookupIsRecent, RegistriesAgree, Exec;
    match step
    case OperatorSends(op, data, other) => OperatorKeepsData(s, op, data, other);
    case TakeData => TakeKeepsData(s);
    case DataSent(ok) => SentKeepsData(s, ok);
    case AgentConnects(_) => AgentKeepsData(s, step);
    case AgentSends(a, data, other) => ReceivingKeepsData(s, a, data, other);
    case AgentLeaves(_) => AgentKeepsData(s, step);
    case OperatorConnects(_) => OtherKeepsData(s, step);
    case OperatorLeaves(_) => OtherKeepsData(s, step);
    case TakeCommand(_) => OtherKeepsData(s, step);
    case TakeSignal => OtherKeepsData(s, step);
  }

  // ---- commands and lookup ----

  lemma StepKeepsCommands(s: System, step: Step)
    requires CommandsGood(s)
    ensures CommandsGood(Exec(s, step))
  {
    hide Understood, CommandsOf, Subsequence;
    var c := s.core;
    match step
    case OperatorSends(op, data, other) =>
      CommandsSnoc(s.addressed, Addressing(op, Slice(data, 4, 20), Slice(data, 26, 42), data));
    case TakeCommand(ok) =>
      if c.cmdQ != [] {
        SubsequenceSnoc(s.forwarded, s.commands, c.cmdQ[0]);
        assert s.commands + c.cmdQ == s.commands + [c.cmdQ[0]] + c.cmdQ[1..];
      }
    case _ =>
  }

  /** Listed agents and those in signals have connected. */
  predicate KnownAgents(s: System) {
    s.core.agents.Keys <= s.used && forall sig :: sig in s.core.sigQ ==> sig.agent in s.used
  }

  /** So have those commands are for. */
  predicate KnownTargets(s: System) {
    forall c :: c in s.commands + s.core.cmdQ ==> c.agent in s.used
  }

  predicate KnownIds(s: System) {
    KnownAgents(s) && KnownTargets(s)
  }

  lemma StepKeepsAgents(s: System, step: Step)
    requires KnownAgents(s) && RegistriesAgree(s)
    ensures KnownAgents(Exec(s, step))
  {
    hide FromAgent, Announces, Received, Replay, FromOperator, Routes, Slice, Tail;
    match step
    case OperatorSends(op, data, other) => RoutingFrame(s.core, op, data, other);
    case AgentSends(a, data, other) => AnnouncingFrame(s.core, a, data, other);
    case _ =>
  }

  /** A frame from an agent leaves the list alone and signals for itself only. */
  lemma AnnouncingFrame(c: Core, a: bytes, data: bytes, other: bool)
    ensures var d := FromAgent(c, a, data, other);
            && d.agents == c.agents
            && (forall sig :: sig in d.sigQ ==> sig in c.sigQ || (a in c.clients && sig.agent == a))
  {
    hide Understood, Slice;
  }

  lemma StepKeepsTargets(s: System, step: Step)
    requires KnownTargets(s) && s.core.agents.Keys <= s.used
    ensures KnownTargets(Exec(s, step))
  {
    hide FromAgent, Announces, Received, FromOperator, Routes, Slice, Tail;
    match step
    case OperatorSends(op, data, other) =>
      RoutingFrame(s.core, op, data, other);
      RoutedIsListed(s.core, data);
    case AgentSends(a, data, other) => OnlyDataIsQueued(s.core, a, data, other);
    case _ =>
  }

  lemma StepKeepsIds(s: System, step: Step)
    requires KnownIds(s) && RegistriesAgree(s)
    ensures KnownIds(Exec(s, step))
  {
    hide KnownTargets, RegistriesAgree, Exec;
    StepKeepsAgents(s, step);
    StepKeepsTargets(s, step);
  }

  lemma RoutedIsListed(c: Core, data: bytes)
    ensures Routes(c, data) ==> Slice(data, 4, 20) in c.agents
  {}

  lemma StepKeepsLookup(s: System, step: Step)
    requires LookupIsRecent(s) && KnownIds(s) && RegistriesAgree(s)
    ensures LookupIsRecent(Exec(s, step))
  {
    hide Understood, LastAddresser, Slice, Replay;
    match step
    case OperatorSends(op, data, other) => OperatorKeepsLookup(s, op, data, other);
    case DataSent(ok) => SentKeepsLookup(s, ok);
    case _ => OtherKeepsLookup(s, step);
  }

  /** The other steps leave lookups, addressings and failures alone. */
  lemma LookupFrame(s: System, step: Step)
    requires !step.OperatorSends? && !step.DataSent?
    ensures var t := Exec(s, step);
            t.addressed == s.addressed && t.failedAt == s.failedAt && t.core.lookup == s.core.lookup
  {
    hide Understood, Slice, Announces, Received, Told;
  }

  lemma OtherKeepsLookup(s: System, step: Step)
    requires LookupIsRecent(s) && !step.OperatorSends? && !step.DataSent?
    ensures LookupIsRecent(Exec(s, step))
  {
    hide Exec, LastAddresser;
    var t := Exec(s, step);
    LookupFrame(s, step);
    forall a, k | |a| == 16 ensures Lookup(t, a + k) == Recent(t, a, k) {
      assert Lookup(s, a + k) == Recent(s, a, k);
    }
  }

  lemma StepKeeps(s: System, step: Step)
    requires Good(s) && KnownIds(s)
    ensures Good(Exec(s, step)) && KnownIds(Exec(s, step))
  {
    hide RegistriesAgree, LookupIsRecent, DataGood, CommandsGood, KnownIds, Exec;
    StepKeepsRegistries(s, step);
    StepKeepsLookup(s, step);
    StepKeepsData(s, step);
    StepKeepsCommands(s, step);
    StepKeepsIds(s, step);
  }

  lemma {:induction false} RunKeeps(s: System, steps: seq<Step>)
    requires Good(s) && KnownIds(s)
    ensures Good(Run(s, steps))
    decreases |steps|
  {
    hide Good, KnownIds, Exec;
    if steps == [] {
    } else {
      StepKeeps(s, steps[0]);
      RunKeeps(Exec(s, steps[0]), steps[1..]);
    }
  }

  lemma RunIsGood(steps: seq<Step>)
    ensures Good(Run(Initial(), steps))
  {
    hide Run;
    RunKeeps(Initial(), steps);
  }

  // ---- what operators and agents are owed ----

  /** The addressings there were when `at` of them had been made, from number `mark` on. */
  function Between(log: seq<Addressing>, mark: nat, at: nat): seq<Addressing> {
    if mark <= at <= |log| then log[mark..at] else []
  }

  /** What is owed for a data frame taken at `at` whose agent and token last had a failed send at `mark`. */
  function DueFor(item: DataItem, at: nat, mark: nat, log: seq<Addressing>): seq<Delivery> {
    var who := LastAddresser(Between(log, mark, at), item.agent, item.token);
    if who.Some? then [Delivery(item, who.value, at)] else []
  }

  function Due(taken: seq<DataItem>, ats: seq<nat>, marks: seq<nat>, log: seq<Addressing>): seq<Delivery>
    requires |ats| == |marks| == |taken|
    decreases |taken|
  {
    if taken == [] then []
    else
      var n := |taken| - 1;
      Due(taken[..n], ats[..n], marks[..n], log) + DueFor(taken[n], ats[n], marks[n], log)
  }

  lemma DueSnoc(taken: seq<DataItem>, ats: seq<nat>, marks: seq<nat>, log: seq<Addressing>,
                item: DataItem, at: nat, mark: nat)
    requires |ats| == |marks| == |taken|
    ensures Due(taken + [item], ats + [at], marks + [mark], log)
         == Due(taken, ats, marks, log) + DueFor(item, at, mark, log)
  {
    hide DueFor;
    assert (taken + [item])[..|taken|] == taken && (ats + [at])[..|ats|] == ats;
    assert (marks + [mark])[..|marks|] == marks;
  }

  lemma {:induction false} DueIsSettled(taken: seq<DataItem>, ats: seq<nat>, marks: seq<nat>,
                                        log: seq<Addressing>, x: Addressing)
    requires |ats| == |marks| == |taken| && forall at :: at in ats ==> at <= |log|
    ensures Due(taken, ats, marks, log + [x]) == Due(taken, ats, marks, log)
    decreases |taken|
  {
    hide LastAddresser;
    if taken != [] {
      var n := |taken| - 1;
      assert ats[n] in ats;
      assert Between(log + [x], marks[n], ats[n]) == Between(log, marks[n], ats[n]);
      assert forall at :: at in ats[..n] ==> at in ats;
      DueIsSettled(taken[..n], ats[..n], marks[..n], log, x);
    }
  }

  /** The delivery being sent. */
  function InHand(s: System): seq<Delivery> {
    if s.core.sending.Some? then [Delivery(s.core.sending.value.item, s.core.sending.value.op, LastAt(s))] else []
  }

  function Tried(xs: seq<Attempt>): seq<Delivery> {
    if xs == [] then [] else Tried(xs[..|xs| - 1]) + [xs[|xs| - 1].delivery]
  }

  function Succeeded(xs: seq<Attempt>): seq<Delivery> {
    if xs == [] then []
    else Succeeded(xs[..|xs| - 1]) + if xs[|xs| - 1].ok then [xs[|xs| - 1].delivery] else []
  }

  lemma AttemptSnoc(xs: seq<Attempt>, x: Attempt)
    ensures Tried(xs + [x]) == Tried(xs) + [x.delivery]
    ensures Succeeded(xs + [x]) == Succeeded(xs) + if x.ok then [x.delivery] else []
  {
    assert (xs + [x])[..|xs|] == xs;
  }

  predicate TakesAreDated(s: System) {
    |s.ats| == |s.marks| == |s.taken| && forall at :: at in s.ats ==> at <= |s.addressed|
  }

  /** The sends that ended and the one in hand are exactly what is due. */
  predicate Prompt(s: System) {
    && TakesAreDated(s)
    && Due(s.taken, s.ats, s.marks, s.addressed) == Tried(s.attempts) + InHand(s)
    && Succeeded(s.attempts) == s.delivered
  }

  lemma OperatorKeepsPrompt(s: System, op: nat, data: bytes, other: bool)
    requires Prompt(s)
    ensures Prompt(Exec(s, OperatorSends(op, data, other)))
  {
    hide Understood, Due, Slice, Tried, Succeeded;
    if Routes(s.core, data) {
      var x := Addressing(op, Slice(data, 4, 20), Slice(data, 26, 42), data);
      DueIsSettled(s.taken, s.ats, s.marks, s.addressed, x);
    }
  }

  /** What is due for a frame just taken is what the lookup table says. */
  lemma TakenIsDue(s: System, item: DataItem)
    requires LookupIsRecent(s) && |item.agent| == 16
    ensures var tid := item.agent + item.token;
            DueFor(item, |s.addressed|, Mark(s, tid), s.addressed)
            == if tid in s.core.lookup then [Delivery(item, s.core.lookup[tid], |s.addressed|)] else []
  {
    hide LastAddresser;
    var tid := item.agent + item.token;
    assert Between(s.addressed, Mark(s, tid), |s.addressed|) == s.addressed[Mark(s, tid)..];
    assert Lookup(s, tid) == Recent(s, item.agent, item.token);
  }

  lemma TakeKeepsPrompt(s: System)
    requires Prompt(s) && LookupIsRecent(s) && DataGood(s) && RegistriesAgree(s)
    ensures Prompt(Exec(s, TakeData))
  {
    hide Due, Replay, Subsequence, ItemsOf, WellAddressed, DueFor, LookupIsRecent, Tried, Succeeded;
    var c := s.core;
    if c.sending.None? && c.dataQ != [] {
      var item := c.dataQ[0];
      assert item in s.fromAgents && FromItsAgent(s, item);
      DueSnoc(s.taken, s.ats, s.marks, s.addressed, item, |s.addressed|, Mark(s, item.agent + item.token));
      TakenIsDue(s, item);
    }
  }

  lemma SentKeepsPrompt(s: System, ok: bool)
    requires Prompt(s)
    ensures Prompt(Exec(s, DataSent(ok)))
  {
    hide Due, Tried, Succeeded;
    if s.core.sending.Some? {
      var d := Delivery(s.core.sending.value.item, s.core.sending.value.op, LastAt(s));
      AttemptSnoc(s.attempts, Attempt(d, ok));
    }
  }

  /** The other steps leave takes and sends alone. */
  lemma PromptFrame(s: System, step: Step)
    requires !step.OperatorSends? && !step.DataSent? && !step.TakeData?
    ensures var t := Exec(s, step);
            && t.taken == s.taken && t.ats == s.ats && t.marks == s.marks && t.addressed == s.addressed
            && t.attempts == s.attempts && t.delivered == s.delivered && t.core.sending == s.core.sending
  {
    hide Understood, Slice, Announces, Received, Told;
  }

  lemma StepKeepsPrompt(s: System, step: Step)
    requires Prompt(s) && LookupIsRecent(s) && DataGood(s) && RegistriesAgree(s)
    ensures Prompt(Exec(s, step))
  {
    hide Exec, Due, DataGood, LookupIsRecent, RegistriesAgree, Tried, Succeeded;
    match step
    case OperatorSends(op, data, other) => OperatorKeepsPrompt(s, op, data, other);
    case TakeData => TakeKeepsPrompt(s);
    case DataSent(ok) => SentKeepsPrompt(s, ok);
    case _ => PromptFrame(s, step);
  }

  /** A failed send leaves its mark, and a stream without one has none in its takes. */
  predicate FailuresAreMarked(s: System) {
    && |s.marks| == |s.taken|
    && (forall x :: x in s.attempts && !x.ok ==> x.delivery.item.agent + x.delivery.item.token in s.failedAt)
    && (forall k :: 0 <= k < |s.taken| && s.taken[k].agent + s.taken[k].token !in s.failedAt ==> s.marks[k] == 0)
  }

  lemma StepKeepsMarks(s: System, step: Step)
    requires FailuresAreMarked(s)
    ensures FailuresAreMarked(Exec(s, step))
  {
    hide FromAgent, FromOperator, Routes, Slice;
  }

  /** The deliveries of one agent and token. */
  function Only(a: bytes, t: bytes, ds: seq<Delivery>): seq<Delivery> {
    if ds == [] then []
    else
      var d := ds[|ds| - 1];
      Only(a, t, ds[..|ds| - 1]) + if d.item.agent == a && d.item.token == t then [d] else []
  }

  lemma {:induction false} OnlyAppend(a: bytes, t: bytes, ds: seq<Delivery>, es: seq<Delivery>)
    ensures Only(a, t, ds + es) == Only(a, t, ds) + Only(a, t, es)
    decreases |es|
  {
    hide Only;
    OnlyLast(a, t, es);
    if es == [] {
      assert ds + es == ds;
    } else {
      var n := |es| - 1;
      OnlyAppend(a, t, ds, es[..n]);
      OnlyLast(a, t, ds + es);
      assert (ds + es)[..|ds| + n] == ds + es[..n] && (ds + es)[|ds| + n] == es[n];
    }
  }

  lemma OnlyLast(a: bytes, t: bytes, ds: seq<Delivery>)
    ensures Only(a, t, ds)
         == if ds == [] then []
            else
              var d := ds[|ds| - 1];
              Only(a, t, ds[..|ds| - 1]) + if d.item.agent == a && d.item.token == t then [d] else []
  {}

  function NoMarks(n: nat): seq<nat>
    ensures |NoMarks(n)| == n
  {
    seq<nat>(n, _ => 0)
  }

  lemma {:induction false} UnmarkedDue(taken: seq<DataItem>, ats: seq<nat>, marks: seq<nat>,
                                       log: seq<Addressing>, a: bytes, t: bytes)
    requires |ats| == |marks| == |taken|
    requires forall k :: 0 <= k < |taken| && taken[k].agent == a && taken[k].token == t ==> marks[k] == 0
    ensures Only(a, t, Due(taken, ats, marks, log)) == Only(a, t, Due(taken, ats, NoMarks(|taken|), log))
    decreases |taken|
  {
    hide LastAddresser, Only;
    if taken != [] {
      var n := |taken| - 1;
      UnmarkedDue(taken[..n], ats[..n], marks[..n], log, a, t);
      assert NoMarks(|taken|)[..n] == NoMarks(n);
      OnlyAppend(a, t, Due(taken[..n], ats[..n], marks[..n], log), DueFor(taken[n], ats[n], marks[n], log));
      OnlyAppend(a, t, Due(taken[..n], ats[..n], NoMarks(n), log), DueFor(taken[n], ats[n], 0, log));
      OnlyOfOther(taken[n], ats[n], marks[n], log, a, t);
      OnlyOfOther(taken[n], ats[n], 0, log, a, t);
    }
  }

  lemma OnlyOfOther(item: DataItem, at: nat, mark: nat, log: seq<Addressing>, a: bytes, t: bytes)
    ensures !(item.agent == a && item.token == t) ==> Only(a, t, DueFor(item, at, mark, log)) == []
  {
    hide LastAddresser;
  }

  lemma {:induction false} NoFailureOf(xs: seq<Attempt>, a: bytes, t: bytes)
    requires forall x :: x in xs && x.delivery.item.agent == a && x.delivery.item.token == t ==> x.ok
    ensures Only(a, t, Tried(xs)) == Only(a, t, Succeeded(xs))
    decreases |xs|
  {
    hide Only;
    if xs != [] {
      var n := |xs| - 1;
      var d := xs[n].delivery;
      assert xs[n] in xs;
      assert forall x :: x in xs[..n] ==> x in xs;
      NoFailureOf(xs[..n], a, t);
      OnlyAppend(a, t, Tried(xs[..n]), [d]);
      OnlyAppend(a, t, Succeeded(xs[..n]), if xs[n].ok then [d] else []);
      OnlyOne(d, a, t);
    }
  }

  lemma OnlyOne(d: Delivery, a: bytes, t: bytes)
    ensures Only(a, t, []) == []
    ensures Only(a, t, [d]) == if d.item.agent == a && d.item.token == t then [d] else []
  {}

  /** The commands for one agent. */
  function To(a: bytes, cs: seq<Command>): seq<Command> {
    if cs == [] then []
    else To(a, cs[..|cs| - 1]) + if cs[|cs| - 1].agent == a then [cs[|cs| - 1]] else []
  }

  lemma ToSnoc(a: bytes, cs: seq<Command>, c: Command)
    ensures To(a, cs + [c]) == To(a, cs) + if c.agent == a then [c] else []
  {
    assert (cs + [c])[..|cs|] == cs;
  }

  lemma {:induction false} ToNobody(a: bytes, cs: seq<Command>)
    requires forall c :: c in cs ==> c.agent != a
    ensures To(a, cs) == []
  {
    if cs != [] {
      ToNobody(a, cs[..|cs| - 1]);
      assert cs[|cs| - 1] in cs;
    }
  }

  predicate NoCommandLost(s: System) {
    forall a :: a in s.core.clients && a !in s.unsent ==> To(a, s.forwarded) == To(a, s.commands)
  }

  lemma StepLosesNoCommand(s: System, step: Step)
    requires NoCommandLost(s) && KnownIds(s) && CommandsGood(s)
    ensures NoCommandLost(Exec(s, step))
  {
    hide Understood, To, Subsequence, CommandsOf;
    var t := Exec(s, step);
    forall a | a in t.core.clients && a !in t.unsent ensures To(a, t.forwarded) == To(a, t.commands) {
      if step.AgentConnects? && a !in s.core.clients {
        forall c | c in s.forwarded ensures c in s.commands {
          SubsequenceMembers(s.forwarded, s.commands, c);
        }
        ToNobody(a, s.forwarded);
        ToNobody(a, s.commands);
      } else if step.TakeCommand? && s.core.cmdQ != [] {
        ToSnoc(a, s.commands, s.core.cmdQ[0]);
        ToSnoc(a, s.forwarded, s.core.cmdQ[0]);
      }
    }
  }

  ghost predicate Settled(s: System) {
    Good(s) && KnownIds(s) && Prompt(s) && FailuresAreMarked(s) && NoCommandLost(s) && forall a :: Informed(s, a)
  }

  lemma {:induction false} RunSettles(s: System, steps: seq<Step>)
    requires Settled(s)
    ensures Settled(Run(s, steps))
    decreases |steps|
  {
    hide RegistriesAgree, LookupIsRecent, DataGood, CommandsGood, KnownIds, Exec, Prompt;
    hide NoCommandLost, FailuresAreMarked, Informed;
    if steps == [] {
    } else {
      StepKeeps(s, steps[0]);
      StepKeepsPrompt(s, steps[0]);
      StepKeepsMarks(s, steps[0]);
      StepLosesNoCommand(s, steps[0]);
      forall a ensures Informed(Exec(s, steps[0]), a) {
        StepKeepsInformed(s, steps[0], a);
      }
      RunSettles(Exec(s, steps[0]), steps[1..]);
    }
  }

  lemma RunIsSettled(steps: seq<Step>)
    ensures Settled(Run(Initial(), steps))
  {
    hide Run;
    InitialIsSettled();
    RunSettles(Initial(), steps);
  }

  lemma InitialIsSettled()
    ensures Settled(Initial())
  {}

  // ---- theorems ----

  /**
   Delivery safety, in every run: a data frame an operator got came from an agent, under the token in its
   header, and went to the operator that had addressed that agent and token last when it was looked up;
   per agent and token the deliveries are an in-order subsequence of what the agent sent.
   */
  lemma DeliverySafety(steps: seq<Step>, d: Delivery, a: bytes, t: bytes)
    ensures var s := Run(Initial(), steps);
            && (d in s.delivered ==>
                  && d.item in s.fromAgents && d.item.token == Slice(d.item.frame, 6, 22)
                  && d.at <= |s.addressed|
                  && LastAddresser(s.addressed[..d.at], d.item.agent, d.item.token) == Some(d.op))
            && Subsequence(Of(ItemsOf(s.delivered), a, t), Of(s.fromAgents, a, t))
  {
    hide Run, ItemsOf, Of, Subsequence, LastAddresser;
    RunIsGood(steps);
    var s := Run(Initial(), steps);
    var items := ItemsOf(s.delivered);
    if s.core.sending.Some? {
      SubsequenceAppend(items, s.taken[..|s.taken| - 1], [s.core.sending.value.item]);
      assert s.taken == s.taken[..|s.taken| - 1] + [s.core.sending.value.item];
    }
    SubsequenceAppend(items, s.taken, s.core.dataQ);
    SubsequenceOf(items, s.fromAgents, a, t);
    if d in s.delivered {
      assert WellAddressed(s, d);
      DeliveredIsItem(s.delivered, d);
      SubsequenceMembers(items, s.fromAgents, d.item);
      assert FromItsAgent(s, d.item);
    }
  }

  lemma {:induction false} DeliveredIsItem(ds: seq<Delivery>, d: Delivery)
    requires d in ds
    ensures d.item in ItemsOf(ds)
  {
    assert ds == ds[..|ds| - 1] + [ds[|ds| - 1]];
    if d in ds[..|ds| - 1] {
      DeliveredIsItem(ds[..|ds| - 1], d);
    }
  }

  lemma {:induction false} SubsequenceMembers<T>(xs: seq<T>, ys: seq<T>, x: T)
    requires Subsequence(xs, ys) && x in xs
    ensures x in ys
    decreases |ys|
  {
    var ys' := ys[..|ys| - 1];
    assert ys == ys' + [ys[|ys| - 1]];
    if Subsequence(xs, ys') {
      SubsequenceMembers(xs, ys', x);
    } else if x in xs[..|xs| - 1] {
      SubsequenceMembers(xs[..|xs| - 1], ys', x);
    } else {
      assert xs == xs[..|xs| - 1] + [xs[|xs| - 1]];
    }
  }

  /**
   Command integrity, in every run: what the router sends to agents is an in-order subsequence of the
   commands it accepted, each the bytes behind the first 20 of an operator's frame that names its agent.
   */
  lemma CommandIntegrity(steps: seq<Step>)
    ensures var s := Run(Initial(), steps);
            && Subsequence(s.forwarded, CommandsOf(s.addressed))
            && forall x :: x in s.addressed ==> x.agent == Slice(x.raw, 4, 20) && x.token == Slice(x.raw, 26, 42)
  {
    hide Run, CommandsOf, Subsequence;
    RunIsGood(steps);
    var s := Run(Initial(), steps);
    SubsequenceAppend(s.forwarded, s.commands, s.core.cmdQ);
  }

  /** For a frame made by OPCMD that command is byte for byte the inner command, under its own token. */
  lemma InnerCommand(x: Addressing, agentid: bytes, m: Message)
    requires x.agent == Slice(x.raw, 4, 20) && x.token == Slice(x.raw, 26, 42)
    requires |agentid| == 16 && |m.token| == 16 && EncodeOp(agentid, m) == Some(x.raw)
    ensures CommandOf(x) == Command(agentid, EncodeFrame(m).value) && x.token == m.token
  {
    hide EncodeFrame;
    Frames.OpAgreement(agentid, m);
  }

  /**
   Registry agreement, in every run: replaying the pending signals over the listed agents gives exactly the
   connected agents that announced themselves, so these are the listed ones once the queue is drained.
   */
  lemma RegistryAgreement(steps: seq<Step>)
    ensures var s := Run(Initial(), steps);
            var c := s.core;
            && Replay(c.sigQ, c.agents.Keys) == c.clients * s.announced
            && (c.sigQ == [] ==> c.agents.Keys == c.clients * s.announced)
  {
    hide Run;
    RunIsGood(steps);
  }

  /**
   The list of agents, in every run: an agent is on it if and only if the last signal taken about it was an
   announcement, and then with what that announcement said; the signals taken are the first of those the agents
   gave, and the rest of them are pending.
   */
  lemma ListIsInformed(steps: seq<Step>, a: bytes)
    ensures var s := Run(Initial(), steps);
            var last := LastSignal(s.handled, a);
            && s.signalled == s.handled + s.core.sigQ
            && (a in s.core.agents <==> last.Some? && last.value.AgentIn?)
            && (a in s.core.agents ==> s.core.agents[a] == last.value.info)
  {
    hide Run, LastSignal;
    RunIsSettled(steps);
    assert Informed(Run(Initial(), steps), a);
  }

  /** An operator is registered from its connection to its end, which is also an unreadable frame for the router. */
  lemma OperatorsMean(s: System, step: Step)
    ensures var before, after := s.core.operators, Exec(s, step).core.operators;
            match step
            case OperatorConnects(op) => after == before + {op}
            case OperatorLeaves(op) => after == before - {op}
            case OperatorSends(op, data, other) =>
              var broken := AsksRouter(data) && !other && DecodeBytes(Tail(data, 20)).None?;
              after == if broken then before - {op} else before
            case _ => after == before
  {
    hide DecodeBytes, Slice;
  }

  /** The zero token and the zero agent id are sixteen zero bytes at their offsets. */
  lemma ZerosAre(data: bytes)
    ensures Slice(data, 6, 22) == ZEROS <==> |data| >= 22 && forall i :: 6 <= i < 22 ==> data[i] == 0
    ensures AsksRouter(data) <==>
              |data| >= 42 && (forall i :: 4 <= i < 20 ==> data[i] == 0) && (forall i :: 26 <= i < 42 ==> data[i] == 0)
  {
    ZeroSlice(data, 6);
    ZeroSlice(data, 4);
    ZeroSlice(data, 26);
  }

  lemma ZeroSlice(data: bytes, at: nat)
    ensures Slice(data, at, at + 16) == ZEROS <==> |data| >= at + 16 && forall i :: at <= i < at + 16 ==> data[i] == 0
  {
    var s := Slice(data, at, at + 16);
    if |data| >= at + 16 {
      assert forall i :: at <= i < at + 16 ==> data[i] == s[i - at];
      assert forall j :: 0 <= j < 16 ==> s[j] == data[at + j];
    }
  }

  /**
   The lookup table, in every run: it has an agent and token if and only if they were addressed since the
   last failed send of theirs, and then it names the operator that did so last.
   */
  lemma LookupExact(steps: seq<Step>, a: bytes, t: bytes)
    requires |a| == 16
    ensures var s := Run(Initial(), steps);
            && Mark(s, a + t) <= |s.addressed|
            && (a + t in s.core.lookup <==> LastAddresser(s.addressed[Mark(s, a + t)..], a, t).Some?)
            && (a + t in s.core.lookup ==> LastAddresser(s.addressed, a, t) == Some(s.core.lookup[a + t]))
  {
    hide Run, LastAddresser;
    RunIsGood(steps);
    var s := Run(Initial(), steps);
    assert Lookup(s, a + t) == Recent(s, a, t);
    if a + t in s.core.lookup {
      LastOfSuffix(s.addressed, Mark(s, a + t), a, t);
    }
  }

  /**
   Nothing is lost but by a failed send, in every run: the sends that ended, good or bad, and the one in hand
   are exactly what is due, namely every data frame taken while its agent and token had been addressed since
   their last failed send, at the operator that did so last; and a connected agent none of whose sends failed
   has got every command taken for it.
   */
  lemma NothingIsLost(steps: seq<Step>, a: bytes)
    ensures var s := Run(Initial(), steps);
            && s.fromAgents == s.taken + s.core.dataQ && |s.ats| == |s.marks| == |s.taken|
            && Due(s.taken, s.ats, s.marks, s.addressed) == Tried(s.attempts) + InHand(s)
            && s.delivered == Succeeded(s.attempts)
            && CommandsOf(s.addressed) == s.commands + s.core.cmdQ
            && (a in s.core.clients && a !in s.unsent ==> To(a, s.forwarded) == To(a, s.commands))
  {
    hide Run, Due, To, CommandsOf, Subsequence, ItemsOf, LastAddresser, Tried, Succeeded;
    RunIsSettled(steps);
  }

  /**
   An agent and token none of whose sends failed, whatever failed for others: the operators got, in order,
   every data frame taken after they were addressed, each at the operator that had addressed them last.
   */
  lemma StreamIsComplete(steps: seq<Step>, a: bytes, t: bytes)
    requires a + t !in Run(Initial(), steps).failedAt
    ensures var s := Run(Initial(), steps);
            && |s.ats| == |s.taken|
            && Only(a, t, s.delivered) + Only(a, t, InHand(s))
               == Only(a, t, Due(s.taken, s.ats, NoMarks(|s.taken|), s.addressed))
  {
    hide Run, Due, To, CommandsOf, Subsequence, ItemsOf, LastAddresser, Tried, Succeeded, Only;
    RunIsSettled(steps);
    var s := Run(Initial(), steps);
    NoFailureOf(s.attempts, a, t);
    OnlyAppend(a, t, Tried(s.attempts), InHand(s));
    UnmarkedDue(s.taken, s.ats, s.marks, s.addressed, a, t);
  }

  const AGENT: bytes := [1, 1, 1, 1, 1, 1, 1, 1, 1, 1, 1, 1, 1, 1, 1, 1]
  const TOKEN: bytes := [2, 2, 2, 2, 2, 2, 2, 2, 2, 2, 2, 2, 2, 2, 2, 2]
  const GAP: bytes := [0, 0, 0, 0, 0, 0]

  lemma {:induction false} RunAppend(s: System, steps: seq<Step>, more: seq<Step>)
    ensures Run(s, steps + more) == Run(Run(s, steps), more)
    decreases |steps|
  {
    hide Exec;
    if steps == [] {
      assert steps + more == more;
    } else {
      assert (steps + more)[1..] == steps[1..] + more;
      RunAppend(Exec(s, steps[0]), steps[1..], more);
    }
  }

  /** An agent announces itself and two operators connect. */
  function Gathering(): seq<Step> {
    [AgentConnects(AGENT), AgentSends(AGENT, GAP + ZEROS, true), TakeSignal, OperatorConnects(1), OperatorConnects(2)]
  }

  /** A frame that addresses the agent under the token. */
  function Request(): bytes {
    [0, 0, 0, 0] + AGENT + GAP + TOKEN
  }

  /** The first operator addresses the agent, whose answer is taken; the second does too; the send fails. */
  function Overtaking(): seq<Step> {
    [OperatorSends(1, Request(), true), AgentSends(AGENT, GAP + TOKEN, true), TakeData,
     OperatorSends(2, Request(), true), DataSent(false)]
  }

  lemma Gathered()
    ensures var s := Run(Initial(), Gathering());
            && s.core.clients == {AGENT} && AGENT in s.core.agents && s.core.operators == {1, 2}
            && s.core.sending.None? && s.core.dataQ == [] && s.addressed == [] && s.core.lookup == map[]
  {
    hide DecodeBytes;
  }

  lemma {:induction false} RunFive(s: System, a: Step, b: Step, c: Step, d: Step, e: Step)
    ensures Run(s, [a, b, c, d, e]) == Exec(Exec(Exec(Exec(Exec(s, a), b), c), d), e)
  {
    hide Exec;
    RunAppend(s, [a], [b, c, d, e]);
    RunAppend(Exec(s, a), [b], [c, d, e]);
    RunAppend(Exec(Exec(s, a), b), [c], [d, e]);
    RunAppend(Exec(Exec(Exec(s, a), b), c), [d], [e]);
    RunOne();
    assert [a, b, c, d, e] == [a] + [b, c, d, e] && [b, c, d, e] == [b] + [c, d, e];
    assert [c, d, e] == [c] + [d, e] && [d, e] == [d] + [e];
  }

  lemma RunOne()
    ensures forall s, a {:trigger Run(s, [a])} :: Run(s, [a]) == Exec(s, a)
  {
    hide Exec;
    forall s, a ensures Run(s, [a]) == Exec(s, a) {
      assert Run(Exec(s, a), [a][1..]) == Exec(s, a);
    }
  }

  lemma Asked(s: System, op: nat)
    requires op in s.core.operators && AGENT in s.core.agents
    ensures var t := Exec(s, OperatorSends(op, Request(), true));
            && t.addressed == s.addressed + [Addressing(op, AGENT, TOKEN, Request())]
            && t.core == s.core.(lookup := s.core.lookup[AGENT + TOKEN := op], cmdQ := t.core.cmdQ)
            && t == s.(core := t.core, addressed := t.addressed)
  {
    hide DecodeBytes;
    assert Slice(Request(), 4, 20) == AGENT && Slice(Request(), 26, 42) == TOKEN;
    assert TOKEN != ZEROS by { assert TOKEN[0] != ZEROS[0]; }
  }

  lemma Answered(s: System)
    requires AGENT in s.core.clients
    ensures var t := Exec(s, AgentSends(AGENT, GAP + TOKEN, true));
            && t.core == s.core.(dataQ := s.core.dataQ + [DataItem(AGENT, TOKEN, GAP + TOKEN)])
            && t == s.(core := t.core, fromAgents := t.fromAgents)
  {
    hide DecodeBytes;
    assert Slice(GAP + TOKEN, 6, 22) == TOKEN;
    assert TOKEN != ZEROS by { assert TOKEN[0] != ZEROS[0]; }
  }

  lemma Overtaken(s: System)
    requires AGENT in s.core.clients && AGENT in s.core.agents && s.core.operators == {1, 2}
    requires s.core.sending.None? && s.core.dataQ == [] && s.addressed == []
    ensures var t := Run(s, Overtaking());
            && |t.addressed| == 2 && t.addressed[1].op == 2
            && t.addressed[1].agent == AGENT && t.addressed[1].token == TOKEN
            && 2 in t.core.operators && AGENT + TOKEN !in t.core.lookup
  {
    hide Run, FromOperator, FromAgent, Routes, Received, Announces, Request, AGENT, TOKEN, GAP;
    var first, second := OperatorSends(1, Request(), true), OperatorSends(2, Request(), true);
    var answer := AgentSends(AGENT, GAP + TOKEN, true);
    RunFive(s, first, answer, TakeData, second, DataSent(false));
    Asked(s, 1);
    Answered(Exec(s, first));
    var taken := Exec(Exec(Exec(s, first), answer), TakeData);
    assert taken.core.sending == Some(Sending(DataItem(AGENT, TOKEN, GAP + TOKEN), 1));
    Asked(taken, 2);
  }

  /** A failed send deletes the entry of its agent and token even when a newer operator's: here the second's. */
  lemma NewerEntryIsDropped()
    ensures var s := Run(Initial(), Gathering() + Overtaking());
            && LastAddresser(s.addressed, AGENT, TOKEN) == Some(2) && 2 in s.core.operators
            && AGENT + TOKEN !in s.core.lookup
  {
    hide Run, Gathering, Overtaking;
    Gathered();
    RunAppend(Initial(), Gathering(), Overtaking());
    Overtaken(Run(Initial(), Gathering()));
  }

  // ---- the two servers ----

  /** What the two servers share: one queue in each direction and one for signals. */
  class Queues {
    var data: seq<DataItem>
    var commands: seq<Command>
    var signals: seq<Signal>

    constructor ()
      ensures data == [] && commands == [] && signals == []
    {
      data, commands, signals := [], [], [];
    }
  }

  /** The state of the two servers together. */
  ghost function View(router: WSNETRouter, ops: OPServer): Core
    reads router, ops, router.queues
  {
    Core(router.clients, ops.agents, ops.operators, ops.lookup,
         router.queues.data, router.queues.commands, router.queues.signals, ops.sending)
  }

  /** The server agents connect to. */
  class WSNETRouter {
    var clients: set<bytes>
    const queues: Queues

    constructor (queues: Queues)
      ensures clients == {} && this.queues == queues
    {
      clients, this.queues := {}, queues;
    }

    /** Registers an agent under the id drawn for it. */
    method Connect(agentid: bytes)
      modifies this
      ensures clients == old(clients) + {agentid}
    {
      clients := clients + {agentid};
    }

    /** What every receive loop does at its end. */
    method Disconnect(agentid: bytes, ghost ops: OPServer)
      modifies this, queues
      ensures View(this, ops) == Leaves(old(View(this, ops)), agentid)
      ensures clients == old(clients) - {agentid}
      ensures queues.signals == old(queues.signals) + if agentid in old(clients) then [AgentOut(agentid)] else []
    {
      if agentid in clients {
        clients := clients - {agentid};
        queues.signals := queues.signals + [AgentOut(agentid)];
      }
    }

    /** One pass of an agent's receive loop; `going` says that it is not the last. */
    method HandleFrame(agentid: bytes, data: bytes, other: bool, ghost ops: OPServer) returns (going: bool)
      requires agentid in clients
      modifies this, queues
      ensures View(this, ops) == FromAgent(old(View(this, ops)), agentid, data, other)
      ensures going == (agentid in clients)
      ensures Slice(data, 6, 22) != ZEROS ==>
                && going && queues.data == old(queues.data) + [DataItem(agentid, Slice(data, 6, 22), data)]
                && queues.signals == old(queues.signals)
      ensures Slice(data, 6, 22) == ZEROS ==>
                var info := Understood(data, other);
                && going == info.Some? && queues.data == old(queues.data)
                && queues.signals == old(queues.signals) +
                     [if info.Some? then AgentIn(agentid, info.value) else AgentOut(agentid)]
    {
      hide Understood, Slice;
      var token := Slice(data, 6, 22);
      going := true;
      if token == ZEROS {
        var reply := Understood(data, other);
        if reply.None? {
          Disconnect(agentid, ops);
          going := false;
        } else {
          queues.signals := queues.signals + [AgentIn(agentid, reply.value)];
        }
      } else {
        queues.data := queues.data + [DataItem(agentid, token, data)];
      }
    }

    /** One pass of the queue task: a command goes to its agent, if that is connected and the send is `ok`. */
    method HandleInQueue(ok: bool, ghost ops: OPServer) returns (sent: Option<Command>)
      requires queues.commands != []
      modifies queues
      ensures View(this, ops) == TakesCommand(old(View(this, ops))) && queues.commands == old(queues.commands)[1..]
      ensures sent == if ok && old(queues.commands)[0].agent in clients then Some(old(queues.commands)[0]) else None
    {
      var command := queues.commands[0];
      queues.commands := queues.commands[1..];
      sent := if ok && command.agent in clients then Some(command) else None;
    }
  }

  /** The server operators connect to. */
  class OPServer {
    var agents: map<bytes, Info>
    var operators: set<nat>
    var lookup: map<bytes, nat>
    var sending: Option<Sending>
    const queues: Queues

    constructor (queues: Queues)
      ensures agents == map[] && operators == {} && lookup == map[] && sending == None && this.queues == queues
    {
      agents, operators, lookup, sending, this.queues := map[], {}, map[], None, queues;
    }

    /** One pass of an operator's receive loop: routes the frame, or answers that there is no such agent. */
    method HandleFrame(op: nat, data: bytes, other: bool, ghost router: WSNETRouter)
        returns (going: bool, refusal: Option<Message>)
      requires router.queues == queues
      modifies this, queues
      ensures View(router, this) == FromOperator(old(View(router, this)), op, data, other)
      ensures going <==> !(AsksRouter(data) && Understood(Tail(data, 20), other).None?)
      ensures refusal.Some? <==> !AsksRouter(data) && Slice(data, 4, 20) !in old(agents)
      ensures refusal.Some? ==>
                refusal.value == Err(Slice(data, 26, 42),
                    [65, 103, 101, 110, 116, 32, 110, 111, 116, 32, 102, 111, 117, 110, 100], [])
      ensures operators == if going then old(operators) else old(operators) - {op}
      ensures if going && refusal.None? && !AsksRouter(data) then
                && lookup == old(lookup)[Slice(data, 4, 20) + Slice(data, 26, 42) := op]
                && queues.commands == old(queues.commands) + [Command(Slice(data, 4, 20), Tail(data, 20))]
              else lookup == old(lookup) && queues.commands == old(queues.commands)
    {
      hide Understood, Slice;
      var agentid := Slice(data, 4, 20);
      var agentdata := Tail(data, 20);
      var token := Slice(data, 26, 42);
      going, refusal := true, None;
      if token == ZEROS && agentid == ZEROS {
        if Understood(agentdata, other).None? {
          operators := operators - {op};
          going := false;
        }
        return;
      }
      if agentid !in agents {
        refusal := Some(Err(token, NOT_FOUND, []));
        return;
      }
      lookup := lookup[agentid + token := op];
      queues.commands := queues.commands + [Command(agentid, agentdata)];
    }

    /** The queue task takes a data frame and looks its operator up. */
    method TakeFromQueue(ghost router: WSNETRouter)
      requires sending.None? && queues.data != [] && router.queues == queues
      modifies this, queues
      ensures View(router, this) == TakesData(old(View(router, this)))
      ensures queues.data == old(queues.data)[1..] && lookup == old(lookup)
      ensures var item := old(queues.data)[0];
              var tid := item.agent + item.token;
              sending == if tid in lookup then Some(Sending(item, lookup[tid])) else None
    {
      var item := queues.data[0];
      var tid := item.agent + item.token;
      queues.data := queues.data[1..];
      if tid in lookup {
        sending := Some(Sending(item, lookup[tid]));
      }
    }

    /** The send has ended, well or badly. */
    method Sent(ok: bool, ghost router: WSNETRouter)
      requires sending.Some? && router.queues == queues
      modifies this
      ensures View(router, this) == SentData(old(View(router, this)), ok)
      ensures var item := old(sending).value.item;
              sending == None && lookup == if ok then old(lookup) else old(lookup) - {item.agent + item.token}
    {
      if !ok {
        var tid := sending.value.item.agent + sending.value.item.token;
        lookup := lookup - {tid};
      }
      sending := None;
    }

    /** The signal task lists an agent or strikes it off. */
    method HandleSignal(ghost router: WSNETRouter)
      requires queues.signals != [] && router.queues == queues
      modifies this, queues
      ensures View(router, this) == TakesSignal(old(View(router, this)))
      ensures queues.signals == old(queues.signals)[1..]
      ensures match old(queues.signals)[0]
              case AgentIn(a, info) => agents == old(agents)[a := info]
              case AgentOut(a) => agents == old(agents) - {a}
    {
      var signal := queues.signals[0];
      queues.signals := queues.signals[1..];
      match signal
      case AgentIn(agentid, info) => agents := agents[agentid := info];
      case AgentOut(agentid) =>
        if agentid in agents {
          agents := agents - {agentid};
        }
    }
  }

  /** A frame for the router itself: zero agent id and zero token. */
  predicate AsksRouter(data: bytes) {
    Slice(data, 26, 42) == ZEROS && Slice(data, 4, 20) == ZEROS
  }

  /** "Agent not found" */
  const NOT_FOUND: Str := [65, 103, 101, 110, 116, 32, 110, 111, 116, 32, 102, 111, 117, 110, 100]
}
