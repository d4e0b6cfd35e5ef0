/** The agent's side of remote files: one handle per session token over a set of files. */
module FileAgent {
  import opened Bytes
  import opened Text
  import opened Wire
  import Frames
  import Tunnel

  // ---- byte arrays ----

  function Zeros(n: nat): bytes {
    seq<byte>(n, _ => 0)
  }

  /** What a file holds after seek(offset) and write(data); an empty write does not fill the gap. */
  function WriteAt(c: bytes, offset: nat, data: bytes): bytes {
    if data == [] then c
    else
      var reach := if |c| < offset then c + Zeros(offset - |c|) else c;
      reach[..offset] + data + reach[Min(offset + |data|, |reach|)..]
  }

  /** Position by position: the data, what was there, or zero in the gap. */
  lemma WriteAtMeans(c: bytes, offset: nat, data: bytes)
    ensures var w := WriteAt(c, offset, data);
            && |w| == (if data == [] || offset + |data| <= |c| then |c| else offset + |data|)
            && (forall i :: 0 <= i < |w| ==> (
                 w[i] == if offset <= i < offset + |data| then data[i - offset] else if i < |c| then c[i] else 0))
  {}

  /** Writing in pieces is writing at once. */
  lemma WriteInPieces(c: bytes, offset: nat, x: bytes, y: bytes)
    ensures WriteAt(WriteAt(c, offset, x), offset + |x|, y) == WriteAt(c, offset, x + y)
  {
    hide WriteAt;
    var first := WriteAt(c, offset, x);
    var twice, once := WriteAt(first, offset + |x|, y), WriteAt(c, offset, x + y);
    WriteAtMeans(c, offset, x);
    WriteAtMeans(first, offset + |x|, y);
    WriteAtMeans(c, offset, x + y);
    assert |twice| == |once|;
    forall i | 0 <= i < |once| ensures twice[i] == once[i] {
      if i < |first| {
        assert first[i] == if offset <= i < offset + |x| then x[i - offset] else if i < |c| then c[i] else 0;
      }
    }
  }

  // ---- the agent ----

  /** The largest offset a file position can take. */
  const MAX_OFFSET: nat := 0x7fff_ffff_ffff_ffff

  datatype Handle = Handle(path: Str, writing: bool)

  /** The time stamps fstat reports, in nanoseconds. */
  datatype Times = Times(atime: int, mtime: int, ctime: int)

  /** `files` are the files there are, `barred` the paths open() refuses, `handles` the open files by token. */
  datatype Agent = Agent(files: map<Str, bytes>, barred: set<Str>, handles: map<bytes, Handle>, times: Times)

  /** What a command is answered with; Failed stands for an ERR frame, whatever its texts. */
  datatype Answer = Silent | Failed | Reply(m: Message)

  /** "r", "rb", "w" and "wb". */
  const READING: seq<Str> := [[114], [114, 98]]
  const WRITING: seq<Str> := [[119], [119, 98]]

  function Contents(a: Agent, path: Str): bytes {
    if path in a.files then a.files[path] else []
  }

  function OpenFile(a: Agent, token: bytes, path: Str, mode: Str): (Agent, Answer) {
    if path in a.barred then (a, Failed)
    else if mode in READING then
      if path in a.files then
        (a.(handles := a.handles[token := Handle(path, false)]), Reply(Continue(token, Some([]))))
      else (a, Failed)
    else if mode in WRITING then
      (a.(files := a.files[path := []], handles := a.handles[token := Handle(path, true)]),
       Reply(Continue(token, Some([]))))
    else (a, Failed)
  }

  function ReadFile(a: Agent, token: bytes, size: int, offset: int): Answer {
    if token !in a.handles || a.handles[token].writing || !(0 <= offset <= MAX_OFFSET) || size < 0 then Failed
    else Reply(FileData(token, Slice(Contents(a, a.handles[token].path), offset, offset + size), offset))
  }

  function WriteFile(a: Agent, token: bytes, data: bytes, offset: int): (Agent, Answer) {
    if token !in a.handles || !a.handles[token].writing || !(0 <= offset <= MAX_OFFSET)
       || (data != [] && offset + |data| > MAX_OFFSET) then (a, Failed)
    else
      var path := a.handles[token].path;
      (a.(files := a.files[path := WriteAt(Contents(a, path), offset, data)]), Reply(Continue(token, Some([]))))
  }

  function StatFile(a: Agent, token: bytes): Answer {
    if token !in a.handles then Failed
    else
      var size, t := |Contents(a, a.handles[token].path)|, a.times;
      Reply(FileEntry(token, [], [], false, size, t.atime, t.mtime, t.ctime))
  }

  /** The file part of process_incoming and process_fileop; other messages leave files alone. */
  function Process(a: Agent, cmd: Message): (Agent, Answer) {
    match cmd
    case OK(token, _) => (a.(handles := a.handles - {token}), Silent)
    case FileOpen(token, path, mode) => OpenFile(a, token, path, mode)
    case FileRead(token, size, offset) => (a, ReadFile(a, token, size, offset))
    case FileData(token, data, offset) => WriteFile(a, token, data, offset)
    case FileStat(token) => (a, StatFile(a, token))
    case _ => (a, Silent)
  }

  // ---- one request and its reply ----

  /**
   A request goes out as a frame and the reply comes back as one. None: a message could not be encoded,
   the agent could not read the request or did not answer, or the reply is ERR; the client raises.
   */
  function Exchange(a: Agent, cmd: Message): (Agent, Option<Message>) {
    match EncodeFrame(cmd)
    case None => (a, None)
    case Some(f) =>
      match DecodeBytes(f)
      case None => (a, None)
      case Some(seen) =>
        var (b, answer) := Process(a, seen);
        (b, Received(answer))
  }

  function Received(answer: Answer): Option<Message> {
    match answer
    case Silent => None
    case Failed => None
    case Reply(m) => if EncodeFrame(m).Some? then DecodeBytes(EncodeFrame(m).value) else None
  }

  /** An ERR frame, if it decodes, decodes to ERR: its character counts can cut text, not change the type. */
  lemma ErrStaysErr(token: bytes, reason: Str, extra: Str)
    requires |token| == 16 && EncodeFrame(Err(token, reason, extra)).Some?
    ensures var r := DecodeBytes(EncodeFrame(Err(token, reason, extra)).value); r.Some? ==> r.value.Err?
  {
    hide EncodeFrame, DecodeBytes;
    Frames.TypeStays(Err(token, reason, extra));
  }

  /** The messages of a file session are read as they were written. */
  lemma Travels(m: Message)
    requires |m.token| == 16 && EncodeFrame(m).Some?
    requires m.FileOpen? || m.FileRead? || m.FileData? || m.FileStat? || m.FileEntry?
          || (m.OK? && m.msg.Some?) || (m.Continue? && m.msg.Some?)
    ensures DecodeBytes(EncodeFrame(m).value) == Some(m)
  {
    hide EncodeFrame, DecodeBytes;
    Frames.BytesRoundTrip(m);
  }

  lemma NumbersFit()
    ensures forall x {:trigger ToBytes(x, 8)} :: 0 <= x < 0x1_0000_0000_0000_0000 <==> ToBytes(x, 8).Some?
    ensures forall x {:trigger ToBytes(x, 4)} :: 0 <= x < 0x1_0000_0000 <==> ToBytes(x, 4).Some?
    ensures forall x, w {:trigger ToBytes(x, w)} :: ToBytes(x, w).Some? ==> |ToBytes(x, w).value| == w
  {
    WidthBounds();
  }

  /** A FILEREAD frame has 34 bytes and exists when size and offset fit 4 and 8 bytes. */
  lemma ReadRequest(token: bytes, size: int, offset: int)
    requires |token| == 16
    ensures EncodeFrame(FileRead(token, size, offset)).Some?
       <==> 0 <= size < 0x1_0000_0000 && 0 <= offset < 0x1_0000_0000_0000_0000
    ensures EncodeFrame(FileRead(token, size, offset)).Some? ==>
              |EncodeFrame(FileRead(token, size, offset)).value| == 34
  {
    hide ToBytes, BigEndian;
    NumbersFit();
    Frames.PrintThen(Raw(16), Then(UInt(4), Then(UInt(8), End)), VBytes(token),
        Cons(VInt(size), Cons(VInt(offset), Nil)));
    Frames.PrintThen(UInt(4), Then(UInt(8), End), VInt(size), Cons(VInt(offset), Nil));
    Frames.PrintThen(UInt(8), End, VInt(offset), Nil);
  }

  /** A FILEDATA frame exists when the offset fits 8 bytes, for any data up to 1 MiB. */
  lemma DataRequest(token: bytes, data: bytes, offset: int)
    requires |token| == 16 && |data| <= 1024 * 1024
    ensures EncodeFrame(FileData(token, data, offset)).Some? <==> 0 <= offset < 0x1_0000_0000_0000_0000
  {
    hide ToBytes, BigEndian;
    NumbersFit();
    Frames.PrintThen(Raw(16), Then(UInt(8), Then(Blob, End)), VBytes(token),
        Cons(VInt(offset), Cons(VBytes(data), Nil)));
    Frames.PrintThen(UInt(8), Then(Blob, End), VInt(offset), Cons(VBytes(data), Nil));
    Frames.PrintThen(Blob, End, VBytes(data), Nil);
  }

  lemma ExchangeRead(a: Agent, token: bytes, size: int, offset: int)
    requires |token| == 16 && 0 <= size <= 1024 * 1024 && token in a.handles && !a.handles[token].writing
    ensures Exchange(a, FileRead(token, size, offset))
         == (a, if 0 <= offset <= 0x7fff_ffff_ffff_ffff
                then Some(FileData(token, Slice(Contents(a, a.handles[token].path), offset, offset + size), offset))
                else None)
  {
    hide EncodeFrame, DecodeBytes;
    ReadRequest(token, size, offset);
    if 0 <= offset < 0x1_0000_0000_0000_0000 {
      Travels(FileRead(token, size, offset));
      if offset <= MAX_OFFSET {
        var data := Slice(Contents(a, a.handles[token].path), offset, offset + size);
        DataRequest(token, data, offset);
        Travels(FileData(token, data, offset));
      }
    }
  }

  lemma ExchangeWrite(a: Agent, token: bytes, data: bytes, offset: int)
    requires |token| == 16 && 0 < |data| <= 1024 * 1024 && token in a.handles && a.handles[token].writing
    ensures var path := a.handles[token].path;
            Exchange(a, FileData(token, data, offset))
            == if 0 <= offset && offset + |data| <= 0x7fff_ffff_ffff_ffff
               then (a.(files := a.files[path := WriteAt(Contents(a, path), offset, data)]),
                     Some(Continue(token, Some([]))))
               else (a, None)
  {
    hide EncodeFrame, DecodeBytes, WriteAt;
    DataRequest(token, data, offset);
    if 0 <= offset < 0x1_0000_0000_0000_0000 {
      Travels(FileData(token, data, offset));
      ContinueTravels(token);
    }
  }

  lemma ContinueTravels(token: bytes)
    requires |token| == 16
    ensures Received(Reply(Continue(token, Some([])))) == Some(Continue(token, Some([])))
  {
    hide EncodeFrame, DecodeBytes;
    Tunnel.NoTextEncodes(Continue(token, Some([])));
    Travels(Continue(token, Some([])));
  }

  lemma ExchangeOpen(a: Agent, token: bytes, path: Str, mode: Str)
    requires |token| == 16
    ensures var e := Exchange(a, FileOpen(token, path, mode));
            var o := OpenFile(a, token, path, mode);
            if EncodeFrame(FileOpen(token, path, mode)).Some? && o.1.Reply?
            then e == (o.0, Some(Continue(token, Some([]))))
            else e == (a, None)
  {
    hide EncodeFrame, DecodeBytes;
    if EncodeFrame(FileOpen(token, path, mode)).Some? {
      Travels(FileOpen(token, path, mode));
      ContinueTravels(token);
    }
  }

  /** Without a handle of the right kind a request is answered with ERR and changes nothing. */
  lemma ExchangeRefused(a: Agent, cmd: Message)
    requires |cmd.token| == 16
    requires (cmd.FileRead? && (cmd.token in a.handles ==> a.handles[cmd.token].writing))
          || (cmd.FileData? && (cmd.token in a.handles ==> !a.handles[cmd.token].writing))
          || (cmd.FileStat? && cmd.token !in a.handles)
    ensures Exchange(a, cmd) == (a, None)
  {
    hide EncodeFrame, DecodeBytes;
    if EncodeFrame(cmd).Some? {
      Travels(cmd);
    }
  }

  predicate Stamps(t: Times) {
    && 0 <= t.atime < 0x1_0000_0000_0000_0000
    && 0 <= t.mtime < 0x1_0000_0000_0000_0000
    && 0 <= t.ctime < 0x1_0000_0000_0000_0000
  }

  /** Four 8-byte numbers, as they end a FILEENTRY. */
  lemma FourNumbers(size: int, t: Times)
    ensures var four := Then(UInt(8), Then(UInt(8), Then(UInt(8), Then(UInt(8), End))));
            var vs := Cons(VInt(size), Cons(VInt(t.atime), Cons(VInt(t.mtime), Cons(VInt(t.ctime), Nil))));
            && (Print(four, vs).Some? <==> 0 <= size < 0x1_0000_0000_0000_0000 && Stamps(t))
            && (Print(four, vs).Some? ==> |Print(four, vs).value| == 32)
  {
    hide ToBytes;
    NumbersFit();
    var three := Then(UInt(8), Then(UInt(8), Then(UInt(8), End)));
    var times := Cons(VInt(t.atime), Cons(VInt(t.mtime), Cons(VInt(t.ctime), Nil)));
    Frames.PrintThen(UInt(8), three, VInt(size), times);
    Frames.PrintThen(UInt(8), three.tail, VInt(t.atime), times.tail);
    Frames.PrintThen(UInt(8), three.tail.tail, VInt(t.mtime), times.tail.tail);
    Frames.PrintThen(UInt(8), End, VInt(t.ctime), Nil);
  }

  lemma StatReply(token: bytes, size: int, t: Times)
    requires |token| == 16
    ensures EncodeFrame(FileEntry(token, [], [], false, size, t.atime, t.mtime, t.ctime)).Some?
       <==> 0 <= size < 0x1_0000_0000_0000_0000 && Stamps(t)
  {
    hide BigEndian, PrintText, Stamps, Print;
    WidthBounds();
    FourNumbers(size, t);
    var e := Tunnel.NoText();
    var four := Then(UInt(8), Then(UInt(8), Then(UInt(8), Then(UInt(8), End))));
    var numbers := Cons(VInt(size), Cons(VInt(t.atime), Cons(VInt(t.mtime), Cons(VInt(t.ctime), Nil))));
    var vs := Cons(VBool(false), numbers);
    Frames.PrintThen(Raw(16), Then(Text(Utf8), Then(Text(Utf8), Then(Flag, four))), VBytes(token),
        Cons(VStr([]), Cons(VStr([]), vs)));
    Frames.PrintThen(Text(Utf8), Then(Text(Utf8), Then(Flag, four)), VStr([]), Cons(VStr([]), vs));
    Frames.PrintThen(Text(Utf8), Then(Flag, four), VStr([]), vs);
    Frames.PrintThen(Flag, four, VBool(false), numbers);
  }

  lemma ExchangeStat(a: Agent, token: bytes)
    requires |token| == 16 && token in a.handles
    ensures var size := |Contents(a, a.handles[token].path)|;
            var t := a.times;
            Exchange(a, FileStat(token))
            == (a, if size < 0x1_0000_0000_0000_0000 && Stamps(t)
                   then Some(FileEntry(token, [], [], false, size, t.atime, t.mtime, t.ctime)) else None)
  {
    hide DecodeBytes;
    var size := |Contents(a, a.handles[token].path)|;
    var t := a.times;
    TokenOnly(token);
    StatReply(token, size, t);
    hide EncodeFrame;
    Travels(FileStat(token));
    if size < 0x1_0000_0000_0000_0000 && Stamps(t) {
      Travels(FileEntry(token, [], [], false, size, t.atime, t.mtime, t.ctime));
    }
  }

  lemma TokenOnly(token: bytes)
    requires |token| == 16
    ensures EncodeFrame(FileStat(token)).Some?
  {
    hide BigEndian;
    WidthBounds();
    Frames.PrintThen(Raw(16), End, VBytes(token), Nil);
  }

  lemma ExchangeClose(a: Agent, token: bytes)
    requires |token| == 16
    ensures Exchange(a, OK(token, Some([]))) == (a.(handles := a.handles - {token}), None)
  {
    hide EncodeFrame, DecodeBytes;
    Tunnel.NoTextEncodes(OK(token, Some([])));
    Travels(OK(token, Some([])));
  }

  // ---- the agent as an object ----

  class FileService {
    var files: map<Str, bytes>
    var barred: set<Str>
    var handles: map<bytes, Handle>
    var times: Times

    ghost function View(): Agent
      reads this
    {
      Agent(files, barred, handles, times)
    }

    /** process_fileop, and the OK that closes a file. */
    method ProcessFileop(cmd: Message) returns (answer: Answer)
      modifies this
      ensures (View(), answer) == Process(old(View()), cmd)
    {
      hide Slice, WriteAt;
      answer := Silent;
      match cmd {
        case OK(token, _) =>
          if token in handles {
            handles := handles - {token};
          } else {
            assert handles - {token} == handles;
          }
        case FileOpen(token, path, mode) =>
          answer := Failed;
          if mode in READING {
            if path !in barred && path in files {
              handles := handles[token := Handle(path, false)];
              answer := Reply(Continue(token, Some([])));
            }
          } else if mode in WRITING && path !in barred {
            files := files[path := []];
            handles := handles[token := Handle(path, true)];
            answer := Reply(Continue(token, Some([])));
          }
        case FileRead(token, size, offset) =>
          answer := Failed;
          if token in handles && !handles[token].writing && 0 <= offset <= MAX_OFFSET && size >= 0 {
            var path := handles[token].path;
            var content := if path in files then files[path] else [];
            answer := Reply(FileData(token, Slice(content, offset, offset + size), offset));
          }
        case FileData(token, data, offset) =>
          answer := Failed;
          if token in handles && handles[token].writing && 0 <= offset <= MAX_OFFSET {
            if data == [] || offset + |data| <= MAX_OFFSET {
              var path := handles[token].path;
              var content := if path in files then files[path] else [];
              files := files[path := WriteAt(content, offset, data)];
              answer := Reply(Continue(token, Some([])));
            }
          }
        case FileStat(token) =>
          answer := Failed;
          if token in handles {
            var path := handles[token].path;
            var size := if path in files then |files[path]| else 0;
            answer := Reply(FileEntry(token, [], [], false, size, times.atime, times.mtime, times.ctime));
          }
        case _ =>
      }
    }

    /** A request comes in as a frame and is answered with one. */
    method Serve(cmd: Message) returns (reply: Option<Message>)
      modifies this
      ensures (View(), reply) == Exchange(old(View()), cmd)
    {
      hide EncodeFrame, DecodeBytes, Process;
      reply := None;
      var frame := EncodeFrame(cmd);
      if frame.Some? {
        var seen := DecodeBytes(frame.value);
        if seen.Some? {
          var answer := ProcessFileop(seen.value);
          reply := Received(answer);
        }
      }
    }
  }
}
