/** Whole sessions: what is written in one and read back in another is what a local file would hold. */
module FileSession {
  import opened Bytes
  import opened Text
  import opened Wire
  import opened FileAgent
  import opened RemoteFile

  // ---- opening and closing ----

  /** What open() asks of its arguments and of the agent. */
  predicate Opens(a: Agent, token: bytes, path: Str, mode: Str) {
    && EncodeFrame(FileOpen(token, path, mode)).Some?
    && path !in a.barred
    && (mode == [119] || mode == [119, 98] ||
        ((mode == [114] || mode == [114, 98]) &&
         path in a.files && |a.files[path]| < 0x1_0000_0000_0000_0000 && Stamps(a.times)))
  }

  function Opened(a: Agent, token: bytes, path: Str, writing: bool): Agent {
    if writing then a.(files := a.files[path := []], handles := a.handles[token := Handle(path, true)])
    else a.(handles := a.handles[token := Handle(path, false)])
  }

  /** open succeeds if and only if Opens, and then the handle is there and the file known or empty. */
  lemma OpenExact(a: Agent, token: bytes, path: Str, mode: Str)
    requires |token| == 16
    ensures var d := Open(a, token, path, mode);
            && (d.value.Some? <==> Opens(a, token, path, mode))
            && (d.value.Some? ==>
                  var writing := mode == [119] || mode == [119, 98];
                  && d.agent == Opened(a, token, path, writing)
                  && d.file == File(token, mode, 0, if writing then 0 else |a.files[path]|)
                  && (LETTER_W in mode <==> writing) && (LETTER_R in mode <==> !writing))
  {
    hide Exchange, EncodeFrame, Stamps;
    ExchangeOpen(a, token, path, mode);
    var o := OpenFile(a, token, path, mode);
    if mode in READING {
      assert LETTER_R in mode && LETTER_W !in mode;
      if o.1.Reply? {
        ExchangeStat(o.0, token);
      }
    } else if mode in WRITING {
      assert LETTER_R !in mode && LETTER_W in mode;
    }
  }

  /**
   An existing file that can be opened is opened for reading with "r" and "rb", emptied and opened for writing
   with "w" and "wb", and not opened with any other text.
   */
  lemma OpenModes(a: Agent, token: bytes, path: Str, mode: Str)
    requires |token| == 16 && EncodeFrame(FileOpen(token, path, mode)).Some?
    requires path !in a.barred && path in a.files && |a.files[path]| < 0x1_0000_0000_0000_0000 && Stamps(a.times)
    ensures var d := Open(a, token, path, mode);
            && (d.value.Some? <==> mode == [114] || mode == [114, 98] || mode == [119] || mode == [119, 98])
            && (mode == [114] || mode == [114, 98] ==>
                  && d.agent == a.(handles := a.handles[token := Handle(path, false)])
                  && d.file.size == |a.files[path]|)
            && (mode == [119] || mode == [119, 98] ==>
                  d.agent == a.(files := a.files[path := []], handles := a.handles[token := Handle(path, true)]))
  {
    hide Open, EncodeFrame;
    OpenExact(a, token, path, mode);
  }

  lemma CloseExact(a: Agent, f: File)
    requires |f.token| == 16
    ensures Close(a, f) == a.(handles := a.handles - {f.token})
  {
    hide Exchange;
    ExchangeClose(a, f.token);
  }

  // ---- runs ----

  /** An operation, or the agent at work for others. */
  datatype Event = Do(op: Op) | Meanwhile(agent: Agent)

  /** Others leave the handle of a session and its file alone. */
  predicate Undisturbed(a: Agent, b: Agent, token: bytes, path: Str) {
    && (token in a.handles <==> token in b.handles) && (token in a.handles ==> b.handles[token] == a.handles[token])
    && (path in a.files <==> path in b.files) && (path in a.files ==> b.files[path] == a.files[path])
  }

  /** A session's state and the outcomes so far. */
  datatype Session = Session(agent: Agent, file: File, outcomes: seq<Outcome>)

  function RemoteEvent(s: Session, path: Str, e: Event): Session {
    match e
    case Do(op) =>
      var (b, g, outcome) := RemoteStep(s.agent, s.file, op);
      Session(b, g, s.outcomes + [outcome])
    case Meanwhile(b) => if Undisturbed(s.agent, b, s.file.token, path) then s.(agent := b) else s
  }

  function RemoteRun(s: Session, path: Str, events: seq<Event>): Session
    decreases |events|
  {
    if events == [] then s else RemoteRun(RemoteEvent(s, path, events[0]), path, events[1..])
  }

  datatype LocalSession = LocalSession(file: Local, outcomes: seq<Outcome>)

  function LocalEvent(s: LocalSession, e: Event): LocalSession {
    if e.Meanwhile? then s
    else
      var (l, outcome) := LocalStep(s.file, e.op);
      LocalSession(l, s.outcomes + [outcome])
  }

  function LocalRun(s: LocalSession, events: seq<Event>): LocalSession
    decreases |events|
  {
    if events == [] then s else LocalRun(LocalEvent(s, events[0]), events[1..])
  }

  /** Every operation of a local run is one on which remote and local agree. */
  predicate AllAgree(s: LocalSession, events: seq<Event>)
    decreases |events|
  {
    events == [] ||
    ((events[0].Do? ==> Agrees(s.file, events[0].op)) && AllAgree(LocalEvent(s, events[0]), events[1..]))
  }

  /** Session by session: the same outcomes, and states that mirror each other. */
  predicate Matches(s: Session, path: Str, l: LocalSession) {
    Mirrors(s.agent, s.file, path, l.file) && s.outcomes == l.outcomes
  }

  /** All along a run, remote and local have matched. */
  predicate MatchesThroughout(s: Session, path: Str, l: LocalSession, events: seq<Event>)
    decreases |events|
  {
    && Matches(s, path, l)
    && (events == [] || MatchesThroughout(RemoteEvent(s, path, events[0]), path, LocalEvent(l, events[0]), events[1..]))
  }

  lemma SameOutcome(before: seq<Outcome>, x: Outcome, y: Outcome)
    ensures before + [x] == before + [y] <==> x == y
  {
    assert (before + [x])[|before|] == x && (before + [y])[|before|] == y;
  }

  lemma EventExact(s: Session, path: Str, l: LocalSession, e: Event)
    requires Matches(s, path, l)
    ensures Matches(RemoteEvent(s, path, e), path, LocalEvent(l, e)) <==> (e.Do? ==> Agrees(l.file, e.op))
  {
    hide RemoteStep, LocalStep, Agrees;
    match e
    case Do(op) =>
      StepExact(s.agent, s.file, path, l.file, op);
      SameOutcome(s.outcomes, RemoteStep(s.agent, s.file, op).2, LocalStep(l.file, op).1);
    case Meanwhile(b) =>
  }

  /** A remote file refines a byte array with a cursor all along a run, if and only if AllAgree. */
  lemma {:induction false} SessionExact(s: Session, path: Str, l: LocalSession, events: seq<Event>)
    requires Matches(s, path, l)
    ensures MatchesThroughout(s, path, l, events) <==> AllAgree(l, events)
    ensures AllAgree(l, events) ==> Matches(RemoteRun(s, path, events), path, LocalRun(l, events))
    ensures AllAgree(l, events) ==> RemoteRun(s, path, events).file.token == s.file.token
    decreases |events|
  {
    hide RemoteEvent, LocalEvent, Agrees, Matches;
    if events != [] {
      EventExact(s, path, l, events[0]);
      if events[0].Do? ==> Agrees(l.file, events[0].op) {
        EventKeepsToken(s, path, l, events[0]);
        SessionExact(RemoteEvent(s, path, events[0]), path, LocalEvent(l, events[0]), events[1..]);
      } else {
        NotMatched(RemoteEvent(s, path, events[0]), path, LocalEvent(l, events[0]), events[1..]);
      }
    }
  }

  lemma NotMatched(s: Session, path: Str, l: LocalSession, events: seq<Event>)
    requires !Matches(s, path, l)
    ensures !MatchesThroughout(s, path, l, events)
  {}

  lemma EventKeepsToken(s: Session, path: Str, l: LocalSession, e: Event)
    requires Matches(s, path, l) && (e.Do? ==> Agrees(l.file, e.op))
    ensures RemoteEvent(s, path, e).file.token == s.file.token
  {
    hide RemoteStep, LocalStep, Agrees;
    if e.Do? {
      StepExact(s.agent, s.file, path, l.file, e.op);
    }
  }

  // ---- a session that writes and one that reads ----

  /** A file opened and used. */
  function Used(a: Agent, token: bytes, path: Str, mode: Str, events: seq<Event>): Session {
    var o := Open(a, token, path, mode);
    RemoteRun(Session(o.agent, o.file, []), path, events)
  }

  /** What a file's session leaves behind. */
  function Closed(s: Session): Agent {
    Close(s.agent, s.file)
  }

  function ForWriting(): LocalSession {
    LocalSession(Local([], 0, true), [])
  }

  function ForReading(content: bytes): LocalSession {
    LocalSession(Local(content, 0, false), [])
  }

  lemma WritingSession(a: Agent, token: bytes, path: Str, mode: Str, ws: seq<Event>)
    requires |token| == 16 && (mode == [119] || mode == [119, 98]) && Opens(a, token, path, mode)
    requires AllAgree(ForWriting(), ws)
    ensures var s := Used(a, token, path, mode, ws);
            var l := LocalRun(ForWriting(), ws);
            && s.outcomes == l.outcomes && token !in Closed(s).handles
            && path in Closed(s).files && Closed(s).files[path] == l.file.content
            && |l.file.content| <= 0x7fff_ffff_ffff_ffff
  {
    hide RemoteRun, LocalRun, AllAgree, MatchesThroughout, Opens, Open, Close;
    OpenExact(a, token, path, mode);
    var o := Open(a, token, path, mode);
    var s := Session(o.agent, o.file, []);
    assert Matches(s, path, ForWriting());
    SessionExact(s, path, ForWriting(), ws);
    CloseExact(RemoteRun(s, path, ws).agent, RemoteRun(s, path, ws).file);
  }

  lemma ReadingSession(a: Agent, token: bytes, path: Str, mode: Str, rs: seq<Event>)
    requires |token| == 16 && (mode == [114] || mode == [114, 98]) && Opens(a, token, path, mode)
    requires path in a.files && |a.files[path]| <= 0x7fff_ffff_ffff_ffff && AllAgree(ForReading(a.files[path]), rs)
    ensures var s := Used(a, token, path, mode, rs);
            && Open(a, token, path, mode).value.Some? && Open(a, token, path, mode).file.size == |a.files[path]|
            && s.outcomes == LocalRun(ForReading(a.files[path]), rs).outcomes
            && path in s.agent.files && s.agent.files[path] == a.files[path]
  {
    hide RemoteRun, LocalRun, AllAgree, MatchesThroughout, Opens, Open;
    OpenExact(a, token, path, mode);
    var o := Open(a, token, path, mode);
    var s := Session(o.agent, o.file, []);
    assert mode != [119] && mode != [119, 98];
    assert Matches(s, path, ForReading(a.files[path]));
    SessionExact(s, path, ForReading(a.files[path]), rs);
    ReadingKeepsContent(ForReading(a.files[path]), rs);
  }

  /**
   Open for writing, run, close; whatever others do meanwhile to other files; open for reading, run: both
   runs have the outcomes of a local file, the second starting with what the first left.
   */
  lemma WriteThenRead(a: Agent, path: Str, wToken: bytes, wMode: Str, ws: seq<Event>,
                      between: Agent, rToken: bytes, rMode: Str, rs: seq<Event>)
    requires |wToken| == |rToken| == 16
    requires (wMode == [119] || wMode == [119, 98]) && (rMode == [114] || rMode == [114, 98])
    requires Opens(a, wToken, path, wMode) && Opens(between, rToken, path, rMode)
    requires Undisturbed(Closed(Used(a, wToken, path, wMode, ws)), between, wToken, path)
    requires AllAgree(ForWriting(), ws) && AllAgree(ForReading(LocalRun(ForWriting(), ws).file.content), rs)
    ensures var l := LocalRun(ForWriting(), ws);
            && Used(a, wToken, path, wMode, ws).outcomes == l.outcomes
            && Used(between, rToken, path, rMode, rs).outcomes == LocalRun(ForReading(l.file.content), rs).outcomes
            && Open(between, rToken, path, rMode).value.Some?
            && Open(between, rToken, path, rMode).file.size == |l.file.content|
  {
    hide LocalRun, AllAgree, Used, Closed, Opens, Open;
    WritingSession(a, wToken, path, wMode, ws);
    ReadingSession(between, rToken, path, rMode, rs);
  }

  lemma {:induction false} ReadingKeepsContent(l: LocalSession, events: seq<Event>)
    requires !l.file.writing
    ensures LocalRun(l, events).file.content == l.file.content
    decreases |events|
  {
    if events != [] {
      ReadingKeepsContent(LocalEvent(l, events[0]), events[1..]);
    }
  }

  // ---- everything written is read ----

  function Writes(parts: seq<bytes>): seq<Event>
    ensures |Writes(parts)| == |parts|
  {
    if parts == [] then [] else [Do(WriteAll(parts[0]))] + Writes(parts[1..])
  }

  lemma {:induction false} WritesAppend(l: LocalSession, parts: seq<bytes>)
    requires l.file.writing && l.file.pos == |l.file.content|
    requires |l.file.content + Concat(parts)| <= MAX_OFFSET
    ensures AllAgree(l, Writes(parts))
    ensures LocalRun(l, Writes(parts)).file.content == l.file.content + Concat(parts)
    decreases |parts|
  {
    hide WriteAt, LocalRun, AllAgree;
    if parts == [] {
      assert l.file.content + [] == l.file.content;
      NoEvents(l);
    } else {
      var c := l.file.content;
      var next := LocalEvent(l, Do(WriteAll(parts[0])));
      AppendingWrite(c, parts[0]);
      assert next.file.content == c + parts[0] && next.file.writing && next.file.pos == |next.file.content|;
      assert c + parts[0] + Concat(parts[1..]) == c + Concat(parts);
      WritesAppend(next, parts[1..]);
      assert Writes(parts)[0] == Do(WriteAll(parts[0])) && Writes(parts)[1..] == Writes(parts[1..]);
      FirstEvent(l, Writes(parts));
    }
  }

  lemma NoEvents(l: LocalSession)
    ensures LocalRun(l, []) == l && AllAgree(l, [])
  {}

  lemma FirstEvent(l: LocalSession, events: seq<Event>)
    requires events != []
    ensures LocalRun(l, events) == LocalRun(LocalEvent(l, events[0]), events[1..])
    ensures AllAgree(l, events) <==>
              (events[0].Do? ==> Agrees(l.file, events[0].op)) && AllAgree(LocalEvent(l, events[0]), events[1..])
  {
    hide LocalEvent, Agrees;
  }

  lemma AppendingWrite(c: bytes, data: bytes)
    ensures WriteAt(c, |c|, data) == c + data
  {}

  /** read(-1) at the start of a file gives everything that was written to it in any number of writes. */
  lemma ReadsEverything(a: Agent, path: Str, wToken: bytes, wMode: Str, parts: seq<bytes>,
                        between: Agent, rToken: bytes, rMode: Str)
    requires |wToken| == |rToken| == 16
    requires (wMode == [119] || wMode == [119, 98]) && (rMode == [114] || rMode == [114, 98])
    requires Opens(a, wToken, path, wMode) && Opens(between, rToken, path, rMode)
    requires |Concat(parts)| <= 0x7fff_ffff_ffff_ffff
    requires Undisturbed(Closed(Used(a, wToken, path, wMode, Writes(parts))), between, wToken, path)
    ensures var p := Open(between, rToken, path, rMode);
            p.value.Some? && Read(p.agent, p.file, -1).value == Some(Concat(parts))
  {
    hide Opens, Open, Closed, Read, RemoteRun, Writes, LocalRun, AllAgree;
    assert [] + Concat(parts) == Concat(parts);
    WritesAppend(ForWriting(), parts);
    OneRead(ForReading(Concat(parts)));
    WriteThenRead(a, path, wToken, wMode, Writes(parts), between, rToken, rMode, [Do(ReadUpTo(-1))]);
    var p := Open(between, rToken, path, rMode);
    OneRemoteRead(Session(p.agent, p.file, []), path);
    var r := Read(p.agent, p.file, -1).value;
    SameOutcome([], if r.Some? then Got(r.value) else Raised, Got(Concat(parts)));
  }

  lemma OneRead(l: LocalSession)
    requires !l.file.writing && l.file.pos == 0
    ensures AllAgree(l, [Do(ReadUpTo(-1))])
    ensures LocalRun(l, [Do(ReadUpTo(-1))]).outcomes == l.outcomes + [Got(l.file.content)]
  {
    var e := Do(ReadUpTo(-1));
    assert [e][1..] == [];
    assert LocalRun(LocalEvent(l, e), []) == LocalEvent(l, e) && AllAgree(LocalEvent(l, e), []);
  }

  lemma OneRemoteRead(s: Session, path: Str)
    ensures var d := Read(s.agent, s.file, -1);
            RemoteRun(s, path, [Do(ReadUpTo(-1))]).outcomes
            == s.outcomes + [if d.value.Some? then Got(d.value.value) else Raised]
  {
    hide Read;
    var e := Do(ReadUpTo(-1));
    assert [e][1..] == [];
    assert RemoteRun(RemoteEvent(s, path, e), path, []) == RemoteEvent(s, path, e);
  }
}
