/**
 The client's side of remote files: chunked reads and writes at an offset the client keeps, and what they
 come to over a whole session, compared with a local byte array and a cursor.
 */
module RemoteFile {
  import opened Bytes
  import opened Text
  import opened Wire
  import opened FileAgent

  const CHUNK_SIZE: nat := 1024 * 1024

  const LETTER_R: CodePoint := 114
  const LETTER_W: CodePoint := 119

  datatype File = File(token: bytes, mode: Str, offset: int, size: int)

  /** The state after an operation, and its result or the exception it raised. */
  datatype Done<T> = Done(agent: Agent, file: File, value: Option<T>)

  // ---- the operations ----

  function Fstat(a: Agent, f: File): Done<int> {
    var (b, reply) := Exchange(a, FileStat(f.token));
    if reply.Some? && reply.value.FileEntry? then Done(b, f.(size := reply.value.size), Some(reply.value.size))
    else Done(b, f, None)
  }

  function Open(a: Agent, token: bytes, path: Str, mode: Str): Done<()> {
    var (b, reply) := Exchange(a, FileOpen(token, path, mode));
    var f := File(token, mode, 0, 0);
    if !(reply.Some? && reply.value.Continue?) then Done(b, f, None)
    else if LETTER_R !in mode then Done(b, f, Some(()))
    else
      var d := Fstat(b, f);
      Done(d.agent, d.file, if d.value.Some? then Some(()) else None)
  }

  function Close(a: Agent, f: File): Agent {
    Exchange(a, OK(f.token, Some([]))).0
  }

  /** seek: the landing is not checked against zero. */
  function Seek(f: File, offset: int, whence: int): (File, bool) {
    if whence == 0 then (f.(offset := offset), true)
    else if whence == 1 then (f.(offset := f.offset + offset), true)
    else if whence == 2 && offset <= 0 && f.size != 0 then (f.(offset := f.size + offset), true)
    else (f, false)
  }

  /** The generator __read run to its end: requests of at most a chunk until `size` bytes have come. */
  function ReadLoop(a: Agent, f: File, size: int): Done<bytes>
    decreases if size > 0 then size else 0
  {
    if size <= 0 then Done(a, f, Some([]))
    else
      var (b, reply) := Exchange(a, FileRead(f.token, Min(size, CHUNK_SIZE), f.offset));
      if !(reply.Some? && reply.value.FileData? && reply.value.data != []) then Done(b, f, None)
      else
        var data := reply.value.data;
        var d := ReadLoop(b, f.(offset := f.offset + |data|), size - |data|);
        Done(d.agent, d.file, if d.value.Some? then Some(data + d.value.value) else None)
  }

  function Read(a: Agent, f: File, n: int): Done<bytes> {
    if LETTER_R !in f.mode then Done(a, f, None)
    else
      var n := if n == -1 then f.size - f.offset else n;
      if n == 0 || f.offset >= f.size then Done(a, f, Some([]))
      else ReadLoop(a, f, if f.offset + n > f.size then f.size - f.offset else n)
  }

  function WriteLoop(a: Agent, f: File, data: bytes): Done<int>
    decreases |data|
  {
    if data == [] then Done(a, f, Some(|data|))
    else
      var n := Min(|data|, CHUNK_SIZE);
      var (b, reply) := Exchange(a, FileData(f.token, data[..n], f.offset));
      if !(reply.Some? && reply.value.Continue?) then Done(b, f, None)
      else WriteLoop(b, f.(offset := f.offset + n), data[n..])
  }

  /** write: an exception is swallowed, which the caller sees as None; else it returns the length of what is left. */
  function Write(a: Agent, f: File, data: bytes): Done<int> {
    if LETTER_W !in f.mode then Done(a, f, None) else WriteLoop(a, f, data)
  }

  // ---- the loops ----

  /** The handle of a file is open at the agent for reading or for writing. */
  predicate Holds(a: Agent, f: File, path: Str, writing: bool) {
    |f.token| == 16 && f.token in a.handles && a.handles[f.token] == Handle(path, writing)
  }

  /** The agent with the file changed and nothing else. */
  function Updated(a: Agent, path: Str, content: bytes): Agent {
    a.(files := a.files[path := content])
  }

  /**
   One pass of the read loop inside the file: the request for up to 1 MiB fits its fields, the reply has exactly
   the bytes asked for, at least one, so that the remaining size falls.
   */
  lemma ReadPass(a: Agent, f: File, path: Str, size: int)
    requires Holds(a, f, path, false) && size > 0
    requires 0 <= f.offset && f.offset + size <= |Contents(a, path)| <= MAX_OFFSET
    ensures var n := Min(size, 1024 * 1024);
            && ReadLoop(a, f, size) == Prefixed(Contents(a, path)[f.offset..f.offset + n],
                                                ReadLoop(a, f.(offset := f.offset + n), size - n))
            && EncodeFrame(FileRead(f.token, n, f.offset)).Some?
            && Exchange(a, FileRead(f.token, n, f.offset))
               == (a, Some(FileData(f.token, Contents(a, path)[f.offset..f.offset + n], f.offset)))
            && 0 < |Contents(a, path)[f.offset..f.offset + n]| == n <= size
  {
    hide EncodeFrame, Exchange;
    ReadRequest(f.token, Min(size, CHUNK_SIZE), f.offset);
    ExchangeRead(a, f.token, Min(size, CHUNK_SIZE), f.offset);
  }

  /**
   The read loop gives the bytes from the offset, if and only if the file has that many: when it has become
   shorter meanwhile the loop raises with the offset at its end.
   */
  lemma {:induction false} ReadLoopExact(a: Agent, f: File, path: Str, size: int)
    requires Holds(a, f, path, false) && 0 <= f.offset && size > 0 && |Contents(a, path)| <= MAX_OFFSET
    ensures var c := Contents(a, path);
            ReadLoop(a, f, size)
            == if f.offset + size <= |c| then Done(a, f.(offset := f.offset + size), Some(c[f.offset..f.offset + size]))
               else Done(a, f.(offset := if f.offset < |c| then |c| else f.offset), None)
    decreases size
  {
    hide Exchange;
    var c := Contents(a, path);
    var n := Min(size, CHUNK_SIZE);
    ExchangeRead(a, f.token, n, f.offset);
    if f.offset < |c| {
      var data := Slice(c, f.offset, f.offset + n);
      var g := f.(offset := f.offset + |data|);
      if size > |data| {
        ReadLoopExact(a, g, path, size - |data|);
      }
      if f.offset + size <= |c| {
        assert data + c[f.offset + n..f.offset + size] == c[f.offset..f.offset + size];
      }
    }
  }

  /** One pass of the write loop: up to 1 MiB goes out in a request that fits its fields and is confirmed. */
  lemma WritePass(a: Agent, f: File, path: Str, data: bytes)
    requires Holds(a, f, path, true) && data != []
    requires 0 <= f.offset && f.offset + |data| <= 0x7fff_ffff_ffff_ffff
    ensures var n := Min(|data|, 1024 * 1024);
            && EncodeFrame(FileData(f.token, data[..n], f.offset)).Some?
            && WriteLoop(a, f, data)
               == WriteLoop(Updated(a, path, WriteAt(Contents(a, path), f.offset, data[..n])),
                            f.(offset := f.offset + n), data[n..])
  {
    hide EncodeFrame, Exchange, WriteAt;
    DataRequest(f.token, data[..Min(|data|, CHUNK_SIZE)], f.offset);
    ExchangeWrite(a, f.token, data[..Min(|data|, CHUNK_SIZE)], f.offset);
  }

  /** The write loop is one write of all the data, if and only if that ends within the offsets there are. */
  lemma {:induction false} WriteLoopExact(a: Agent, f: File, path: Str, data: bytes)
    requires Holds(a, f, path, true) && path in a.files && data != []
    ensures var d := WriteLoop(a, f, data);
            if 0 <= f.offset && f.offset + |data| <= MAX_OFFSET
            then d == Done(a.(files := a.files[path := WriteAt(Contents(a, path), f.offset, data)]),
                           f.(offset := f.offset + |data|), Some(0))
            else d.value.None?
    decreases |data|
  {
    hide Exchange, WriteAt;
    var n := Min(|data|, CHUNK_SIZE);
    ExchangeWrite(a, f.token, data[..n], f.offset);
    assert data[..n] + data[n..] == data;
    if 0 <= f.offset && f.offset + n <= MAX_OFFSET {
      var c := Contents(a, path);
      var b := a.(files := a.files[path := WriteAt(c, f.offset, data[..n])]);
      var g := f.(offset := f.offset + n);
      if n < |data| {
        WriteLoopExact(b, g, path, data[n..]);
        WriteInPieces(c, f.offset, data[..n], data[n..]);
        var w := WriteAt(c, f.offset, data);
        assert b.(files := b.files[path := w]) == a.(files := a.files[path := w]);
      } else {
        assert data[n..] == [] && data[..n] == data;
        assert WriteLoop(b, g, data[n..]) == Done(b, g, Some(0));
      }
    }
  }

  // ---- the local file ----

  /** A byte array and a cursor, open for reading or for writing. */
  datatype Local = Local(content: bytes, pos: nat, writing: bool)

  datatype Op = SeekTo(offset: int, whence: int) | ReadUpTo(n: int) | WriteAll(data: bytes)

  datatype Outcome = Moved | Got(data: bytes) | Wrote | Raised

  function LocalStep(l: Local, op: Op): (Local, Outcome) {
    match op
    case SeekTo(offset, whence) =>
      var base := if whence == 0 then 0 else if whence == 1 then l.pos else |l.content|;
      if !(0 <= whence <= 2) || base + offset < 0 then (l, Raised)
      else (l.(pos := base + offset), Moved)
    case ReadUpTo(n) =>
      if l.writing || n < -1 then (l, Raised)
      else
        var data := if n == -1 then Tail(l.content, l.pos) else Slice(l.content, l.pos, l.pos + n);
        (l.(pos := l.pos + |data|), Got(data))
    case WriteAll(data) =>
      if !l.writing then (l, Raised)
      else (l.(content := WriteAt(l.content, l.pos, data), pos := l.pos + |data|), Wrote)
  }

  function RemoteStep(a: Agent, f: File, op: Op): (Agent, File, Outcome) {
    match op
    case SeekTo(offset, whence) =>
      var (g, ok) := Seek(f, offset, whence);
      (a, g, if ok then Moved else Raised)
    case ReadUpTo(n) =>
      var d := Read(a, f, n);
      (d.agent, d.file, if d.value.Some? then Got(d.value.value) else Raised)
    case WriteAll(data) =>
      var d := Write(a, f, data);
      (d.agent, d.file, if d.value.Some? then Wrote else Raised)
  }

  /** The remote file stands for the local one. */
  predicate Mirrors(a: Agent, f: File, path: Str, l: Local) {
    && Holds(a, f, path, l.writing)
    && path in a.files && a.files[path] == l.content && |l.content| <= MAX_OFFSET
    && f.offset == l.pos
    && (LETTER_W in f.mode <==> l.writing) && (LETTER_R in f.mode <==> !l.writing)
    && f.size == if l.writing then 0 else |l.content|
  }

  /**
   Where remote and local agree: a seek lands at zero or behind it; one from the end is only known while
   reading a file that is not empty, and not past the end; a read size is -1 or not negative; a write ends
   within the offsets there are. Two operations that both fail agree as well.
   */
  predicate Agrees(l: Local, op: Op) {
    match op
    case SeekTo(offset, whence) =>
      if whence == 0 then offset >= 0
      else if whence == 1 then l.pos + offset >= 0
      else if whence == 2 then
        if l.writing || l.content == [] || offset > 0 then |l.content| + offset < 0 else |l.content| + offset >= 0
      else true
    case ReadUpTo(n) => l.writing || n >= -1
    case WriteAll(data) => !l.writing || data == [] || l.pos + |data| <= 0x7fff_ffff_ffff_ffff
  }

  lemma Unchanged(a: Agent, path: Str)
    requires path in a.files
    ensures Updated(a, path, a.files[path]) == a
  {
    assert a.files[path := a.files[path]] == a.files;
  }

  /**
   One operation does to the remote file what it does to the local one, with the same outcome, if and only
   if Agrees; and then nothing else has changed at the agent.
   */
  lemma StepExact(a: Agent, f: File, path: Str, l: Local, op: Op)
    requires Mirrors(a, f, path, l)
    ensures var (m, expected) := LocalStep(l, op);
            var (b, g, outcome) := RemoteStep(a, f, op);
            && (outcome == expected && Mirrors(b, g, path, m) <==> Agrees(l, op))
            && (Agrees(l, op) ==> b == Updated(a, path, m.content) && g.token == f.token)
  {
    hide Exchange, ReadLoop, WriteLoop, WriteAt;
    Unchanged(a, path);
    match op
    case SeekTo(_, _) =>
    case ReadUpTo(n) => ReadStep(a, f, path, l, n);
    case WriteAll(data) => WriteStep(a, f, path, l, data);
  }

  // ---- where remote and local differ ----

  /** seek(-1): the remote file takes a position a local one refuses. */
  lemma NegativeSeekDiffers(a: Agent, f: File, path: Str, l: Local)
    requires Mirrors(a, f, path, l)
    ensures LocalStep(l, SeekTo(-1, 0)) == (l, Raised)
    ensures RemoteStep(a, f, SeekTo(-1, 0)) == (a, f.(offset := -1), Moved)
    ensures !Agrees(l, SeekTo(-1, 0))
  {}

  /** read(-2) in a file that is read: nothing instead of an exception. */
  lemma NegativeReadDiffers(a: Agent, f: File, path: Str, l: Local)
    requires Mirrors(a, f, path, l) && !l.writing
    ensures LocalStep(l, ReadUpTo(-2)) == (l, Raised)
    ensures RemoteStep(a, f, ReadUpTo(-2)) == (a, f, Got([]))
    ensures !Agrees(l, ReadUpTo(-2))
  {
    hide Exchange, ReadLoop;
    ReadStep(a, f, path, l, -2);
  }

  /** seek(0, 2) in a file that is written: an exception, for the size is not known. */
  lemma SeekFromEndDiffers(a: Agent, f: File, path: Str, l: Local)
    requires Mirrors(a, f, path, l) && l.writing
    ensures LocalStep(l, SeekTo(0, 2)) == (l.(pos := |l.content|), Moved)
    ensures RemoteStep(a, f, SeekTo(0, 2)) == (a, f, Raised)
    ensures !Agrees(l, SeekTo(0, 2))
  {}

  // ---- single operations ----

  lemma ReadStep(a: Agent, f: File, path: Str, l: Local, n: int)
    requires Mirrors(a, f, path, l)
    ensures var d := Read(a, f, n);
            if l.writing then d == Done(a, f, None)
            else if n < -1 then d == Done(a, f, Some([]))
            else
              var (m, expected) := LocalStep(l, ReadUpTo(n));
              d == Done(a, f.(offset := m.pos), Some(expected.data))
  {
    hide Exchange, ReadLoop;
    if !l.writing && n != 0 && f.offset < f.size {
      var size := if n == -1 || f.offset + n > f.size then f.size - f.offset else n;
      if size <= 0 {
        ReadNothing(a, f, size);
      } else {
        ReadLoopExact(a, f, path, size);
        assert LocalStep(l, ReadUpTo(n)).1 == Got(l.content[l.pos..l.pos + size]);
      }
    }
  }

  lemma ReadNothing(a: Agent, f: File, size: int)
    requires size <= 0
    ensures ReadLoop(a, f, size) == Done(a, f, Some([]))
  {
    hide Exchange;
  }

  lemma WriteStep(a: Agent, f: File, path: Str, l: Local, data: bytes)
    requires Mirrors(a, f, path, l)
    ensures var d := Write(a, f, data);
            if !l.writing then d == Done(a, f, None)
            else if data == [] || l.pos + |data| <= MAX_OFFSET
            then d == Done(Updated(a, path, WriteAt(l.content, l.pos, data)), f.(offset := l.pos + |data|), Some(0))
            else d.value.None?
    ensures l.writing && l.pos + |data| <= MAX_OFFSET ==> |WriteAt(l.content, l.pos, data)| <= MAX_OFFSET
    ensures data == [] ==> WriteAt(l.content, l.pos, data) == l.content
  {
    hide Exchange;
    WriteAtMeans(l.content, l.pos, data);
    Unchanged(a, path);
    if l.writing && data != [] {
      WriteLoopExact(a, f, path, data);
    }
  }

  // ---- the file as an object ----

  class WSNETFile {
    const service: FileService
    const token: bytes
    const mode: Str
    var offset: int
    var size: int

    ghost function View(): File
      reads this
    {
      File(token, mode, offset, size)
    }

    /** The object before open() has talked to the agent. */
    constructor (service: FileService, token: bytes, mode: Str)
      ensures this.service == service && View() == File(token, mode, 0, 0)
    {
      this.service, this.token, this.mode, offset, size := service, token, mode, 0, 0;
    }

    static method OpenFile(service: FileService, token: bytes, path: Str, mode: Str) returns (f: WSNETFile, ok: bool)
      modifies service
      ensures fresh(f) && f.service == service
      ensures Done(service.View(), f.View(), if ok then Some(()) else None)
           == Open(old(service.View()), token, path, mode)
    {
      hide Exchange;
      f := new WSNETFile(service, token, mode);
      var reply := service.Serve(FileOpen(token, path, mode));
      ok := reply.Some? && reply.value.Continue?;
      if ok && LETTER_R in mode {
        var stat := f.Stat();
        ok := stat.Some?;
      }
    }

    method Stat() returns (r: Option<int>)
      modifies this, service
      ensures Done(service.View(), View(), r) == Fstat(old(service.View()), old(View()))
    {
      hide Exchange;
      var reply := service.Serve(FileStat(token));
      r := None;
      if reply.Some? && reply.value.FileEntry? {
        size := reply.value.size;
        r := Some(size);
      }
    }

    method CloseFile()
      modifies service
      ensures service.View() == Close(old(service.View()), View())
    {
      hide Exchange;
      var _ := service.Serve(OK(token, Some([])));
    }

    method SeekTo(step: int, whence: int) returns (ok: bool)
      modifies this
      ensures (View(), ok) == Seek(old(View()), step, whence)
      ensures ok <==> whence == 0 || whence == 1 || (whence == 2 && step <= 0 && old(size) != 0)
      ensures offset == if !ok then old(offset)
                        else (if whence == 0 then 0 else if whence == 1 then old(offset) else old(size)) + step
    {
      ok := true;
      if whence == 0 {
        offset := step;
      } else if whence == 1 {
        offset := offset + step;
      } else if whence == 2 && step <= 0 && size != 0 {
        offset := size + step;
      } else {
        ok := false;
      }
    }

    /** __read collected: the loop ends because every reply carries at least one byte. */
    method ReadChunks(wanted: int) returns (data: Option<bytes>)
      modifies this, service
      ensures Done(service.View(), View(), data) == ReadLoop(old(service.View()), old(View()), wanted)
    {
      hide Exchange;
      var remaining := wanted;
      var got: bytes := [];
      PrefixedByNothing(ReadLoop(service.View(), View(), wanted));
      while remaining > 0
        invariant size == old(size)
        invariant Prefixed(got, ReadLoop(service.View(), View(), remaining))
               == ReadLoop(old(service.View()), old(View()), wanted)
        decreases remaining
      {
        var reply := service.Serve(FileRead(token, Min(remaining, CHUNK_SIZE), offset));
        if !(reply.Some? && reply.value.FileData? && reply.value.data != []) {
          return None;
        }
        var part := reply.value.data;
        offset := offset + |part|;
        remaining := remaining - |part|;
        PrefixedTwice(got, part, ReadLoop(service.View(), View(), remaining));
        got := got + part;
      }
      assert got + [] == got;
      data := Some(got);
    }

    method ReadUpTo(n: int) returns (data: Option<bytes>)
      modifies this, service
      ensures Done(service.View(), View(), data) == Read(old(service.View()), old(View()), n)
    {
      hide ReadLoop;
      if LETTER_R !in mode {
        return None;
      }
      var wanted := if n == -1 then size - offset else n;
      if wanted == 0 || offset >= size {
        return Some([]);
      }
      if offset + wanted > size {
        wanted := size - offset;
      }
      data := ReadChunks(wanted);
    }

    method WriteAll(data: bytes) returns (r: Option<int>)
      modifies this, service
      ensures Done(service.View(), View(), r) == Write(old(service.View()), old(View()), data)
    {
      hide Exchange;
      if LETTER_W !in mode {
        return None;
      }
      var rest := data;
      while |rest| > 0
        invariant size == old(size)
        invariant WriteLoop(service.View(), View(), rest) == WriteLoop(old(service.View()), old(View()), data)
        decreases |rest|
      {
        var n := Min(|rest|, CHUNK_SIZE);
        var part := rest[..n];
        var reply := service.Serve(FileData(token, part, offset));
        if !(reply.Some? && reply.value.Continue?) {
          return None;
        }
        offset := offset + |part|;
        rest := rest[|part|..];
      }
      r := Some(|rest|);
    }
  }

  function Prefixed(got: bytes, d: Done<bytes>): Done<bytes> {
    Done(d.agent, d.file, if d.value.Some? then Some(got + d.value.value) else None)
  }

  lemma PrefixedByNothing(d: Done<bytes>)
    ensures Prefixed([], d) == d
  {
    if d.value.Some? {
      assert [] + d.value.value == d.value.value;
    }
  }

  lemma PrefixedTwice(x: bytes, y: bytes, d: Done<bytes>)
    ensures Prefixed(x, Prefixed(y, d)) == Prefixed(x + y, d)
  {
    if d.value.Some? {
      assert x + (y + d.value.value) == x + y + d.value.value;
    }
  }
}
