/**
 The codecs as the source writes them: decoders that move a buffer's cursor field by field, encoders
 that grow an accumulator or write to a buffer. Each is proved to compute the wire format of module Wire.
 */
module Codec {
  import opened Bytes
  import opened Text
  import opened Wire

  /** io.BytesIO: bytes and a cursor. */
  class BytesIO {
    var data: bytes
    var pos: nat

    ghost predicate Valid()
      reads this
    {
      pos <= |data|
    }

    /** What has not been read yet. */
    ghost function Rest(): bytes
      requires Valid()
      reads this
    {
      data[pos..]
    }

    constructor (initial: bytes)
      ensures Valid() && data == initial && Rest() == initial
    {
      data, pos := initial, 0;
    }

    /** read(n): at most n bytes, fewer at the end of the data. */
    method Read(n: nat) returns (b: bytes)
      requires Valid()
      modifies this
      ensures Valid() && data == old(data)
      ensures b == Head(old(Rest()), n) && Rest() == Tail(old(Rest()), n)
    {
      var end := if pos + n < |data| then pos + n else |data|;
      b := data[pos..end];
      pos := end;
    }

    /** read(-1) */
    method ReadAll() returns (b: bytes)
      requires Valid()
      modifies this
      ensures Valid() && data == old(data)
      ensures b == old(Rest()) && Rest() == []
    {
      b := data[pos..];
      pos := |data|;
    }

    /** write(b) with the cursor at the end, the only place the codecs write at. */
    method Write(b: bytes)
      requires Valid() && pos == |data|
      modifies this
      ensures Valid() && pos == |data| && data == old(data) + b
    {
      data := data + b;
      pos := pos + |b|;
    }

    /** seek(0) */
    method Rewind()
      modifies this
      ensures Valid() && data == old(data) && Rest() == data
    {
      pos := 0;
    }
  }

  /** A decoder took value r off the buffer, or failed, as parse result p says. */
  ghost predicate Took<T>(p: Option<(T, bytes)>, r: Option<T>, rest: bytes) {
    match p
    case None => r.None?
    case Some(v) => r == Some(v.0) && rest == v.1
  }

  // ---- wsnet/protocol/utils.py ----

  method ReadBytes(buff: BytesIO) returns (b: bytes)
    requires buff.Valid()
    modifies buff
    ensures buff.Valid() && (b, buff.Rest()) == ParseBlob(old(buff.Rest()))
  {
    var l := buff.Read(4);
    b := buff.Read(FromBigEndian(l));
  }

  method WriteBytes(buff: BytesIO, b: bytes) returns (ok: Option<()>)
    requires buff.Valid() && buff.pos == |buff.data|
    modifies buff
    ensures buff.Valid() && buff.pos == |buff.data|
    ensures match PrintBlob(b)
            case None => ok.None?
            case Some(p) => ok.Some? && buff.data == old(buff.data) + p
  {
    var l :- ToBytes(|b|, 4);
    buff.Write(l);
    buff.Write(b);
    ok := Some(());
  }

  method ReadStr(buff: BytesIO, e: Encoding) returns (s: Option<Str>)
    requires buff.Valid()
    modifies buff
    ensures buff.Valid() && Took(ParseText(e, old(buff.Rest())), s, buff.Rest())
  {
    var l := buff.Read(4);
    var b := buff.Read(FromBigEndian(l));
    s := Decode(e, b);
  }

  method WriteStr(buff: BytesIO, s: Str, e: Encoding) returns (ok: Option<()>)
    requires buff.Valid() && buff.pos == |buff.data|
    modifies buff
    ensures buff.Valid() && buff.pos == |buff.data|
    ensures match PrintText(e, s)
            case None => ok.None?
            case Some(p) => ok.Some? && buff.data == old(buff.data) + p
  {
    var b :- Encode(e, s);
    var l :- ToBytes(|b|, 4);
    buff.Write(l);
    buff.Write(b);
    ok := Some(());
  }

  method ReadInt(buff: BytesIO) returns (i: Option<IntText>)
    requires buff.Valid()
    modifies buff
    ensures buff.Valid()
    ensures match ParseNumber(old(buff.Rest()))
            case None => i.None?
            case Some(p) => i == Some(Num(p.0)) && buff.Rest() == p.1
  {
    var s :- ReadStr(buff, Utf8);
    var n: int :- ParseInt(s);
    i := Some(Num(n));
  }

  // ---- encoders as accumulators ----

  /** Printing the fields one after the other onto what has been written so far. */
  function PrintOnto(acc: bytes, f: Format, vs: Values): Option<bytes>
    decreases f
  {
    match (f, vs)
    case (End, Nil) => Some(acc)
    case (Then(k, g), Cons(v, ws)) =>
      var h :- PrintField(k, v);
      PrintOnto(acc + h, g, ws)
    case (_, _) => None
  }

  lemma {:induction false} PrintOntoIs(acc: bytes, f: Format, vs: Values)
    ensures PrintOnto(acc, f, vs) == match Print(f, vs) case None => None case Some(p) => Some(acc + p)
    decreases f
  {
    hide PrintField;
    match (f, vs)
    case (End, Nil) => assert acc + [] == acc;
    case (Then(k, g), Cons(v, ws)) =>
      if PrintField(k, v).Some? {
        var h := PrintField(k, v).value;
        PrintOntoIs(acc + h, g, ws);
        if Print(g, ws).Some? {
          assert acc + h + Print(g, ws).value == acc + (h + Print(g, ws).value);
        }
      }
    case (_, _) =>
  }

  /** One step of printing, for each kind of field the buffered encoders write. */
  lemma OntoSteps()
    ensures forall acc {:trigger PrintOnto(acc, End, Nil)} :: PrintOnto(acc, End, Nil) == Some(acc)
    ensures forall acc, e, s, g, ws {:trigger PrintOnto(acc, Then(Text(e), g), Cons(VStr(s), ws))} ::
              PrintOnto(acc, Then(Text(e), g), Cons(VStr(s), ws)) == Onto(acc, PrintText(e, s), g, ws)
    ensures forall acc, t, g, ws {:trigger PrintOnto(acc, Then(Number, g), Cons(VNumber(t), ws))} ::
              PrintOnto(acc, Then(Number, g), Cons(VNumber(t), ws)) == Onto(acc, PrintText(Utf8, NumberText(t)), g, ws)
    ensures forall acc, b, g, ws {:trigger PrintOnto(acc, Then(Blob, g), Cons(VBytes(b), ws))} ::
              PrintOnto(acc, Then(Blob, g), Cons(VBytes(b), ws)) == Onto(acc, PrintBlob(b), g, ws)
    ensures forall acc, w, i, g, ws {:trigger PrintOnto(acc, Then(UInt(w), g), Cons(VInt(i), ws))} ::
              PrintOnto(acc, Then(UInt(w), g), Cons(VInt(i), ws)) == Onto(acc, ToBytes(i, w), g, ws)
    ensures forall acc, f, g, ws {:trigger PrintOnto(acc, Then(Flag, g), Cons(VBool(f), ws))} ::
              PrintOnto(acc, Then(Flag, g), Cons(VBool(f), ws)) == PrintOnto(acc + (if f then [1] else [0]), g, ws)
    ensures forall acc, o, g, ws {:trigger PrintOnto(acc, Then(OptText, g), Cons(VOpt(o), ws))} ::
              PrintOnto(acc, Then(OptText, g), Cons(VOpt(o), ws)) == Onto(acc, PrintOptText(o), g, ws)
    ensures forall acc, names, g, ws {:trigger PrintOnto(acc, Then(NameList, g), Cons(VNames(names), ws))} ::
              PrintOnto(acc, Then(NameList, g), Cons(VNames(names), ws)) == Onto(acc, PrintNameList(names), g, ws)
  {
    hide PrintText, PrintBlob, PrintNameList, ToBytes;
  }

  /** One step of parsing, for each kind of field the longer decoders read. */
  lemma ParseSteps()
    ensures forall bs {:trigger Parse(End, bs)} :: Parse(End, bs) == Some((Nil, bs))
    ensures forall w, g, bs {:trigger Parse(Then(UInt(w), g), bs)} ::
              Parse(Then(UInt(w), g), bs) == After(VInt(FromBigEndian(Head(bs, w))), Parse(g, Tail(bs, w)))
    ensures forall e, g, bs {:trigger Parse(Then(Text(e), g), bs)} ::
              Parse(Then(Text(e), g), bs) == AfterText(ParseText(e, bs), g)
    ensures forall g, bs {:trigger Parse(Then(CharText, g), bs)} ::
              Parse(Then(CharText, g), bs) == AfterText(ParseText(Utf8, bs), g)
    ensures forall g, bs {:trigger Parse(Then(OptText, g), bs)} ::
              Parse(Then(OptText, g), bs) == AfterOptText(ParseText(Utf8, bs), g)
    ensures forall n, g, bs {:trigger Parse(Then(Raw(n), g), bs)} ::
              Parse(Then(Raw(n), g), bs) == After(VBytes(Head(bs, n)), Parse(g, Tail(bs, n)))
    ensures forall n, g, bs {:trigger Parse(Then(Letters(n), g), bs)} ::
              Parse(Then(Letters(n), g), bs) == AfterLetters(Decode(Utf8, Head(bs, n)), g, Tail(bs, n))
    ensures forall g, bs {:trigger Parse(Then(Blob, g), bs)} ::
              Parse(Then(Blob, g), bs) == After(VBytes(ParseBlob(bs).0), Parse(g, ParseBlob(bs).1))
    ensures forall g, bs {:trigger Parse(Then(NameList, g), bs)} ::
              Parse(Then(NameList, g), bs) == AfterNames(ParseNames(FromBigEndian(Head(bs, 4)), Tail(bs, 4)), g)
    ensures forall bs {:trigger Parse(Then(Remainder, End), bs)} ::
              Parse(Then(Remainder, End), bs) == Some((Cons(VBytes(bs), Nil), []))
    ensures forall g, bs {:trigger Parse(Then(Flag, g), bs)} ::
              Parse(Then(Flag, g), bs) == AfterFlag(Head(bs, 1), g, Tail(bs, 1))
    ensures forall c, g, bs {:trigger Parse(Then(Addr(c), g), bs)} ::
              Parse(Then(Addr(c), g), bs) == AfterAddress(ParseAddress(bs), g)
    ensures forall g, bs {:trigger Parse(Then(Number, g), bs)} ::
              Parse(Then(Number, g), bs) == AfterNumber(ParseNumber(bs), g)
  {
    hide ParseText, ParseAddress, ParseNumber, ParseBlob, ParseNames, Decode, FromBigEndian;
  }

  function AfterText(t: Option<(Str, bytes)>, g: Format): Option<(Values, bytes)> {
    var p :- t;
    After(VStr(p.0), Parse(g, p.1))
  }

  function AfterOptText(t: Option<(Str, bytes)>, g: Format): Option<(Values, bytes)> {
    var p :- t;
    After(VOpt(Some(p.0)), Parse(g, p.1))
  }

  function AfterLetters(t: Option<Str>, g: Format, rest: bytes): Option<(Values, bytes)> {
    var p :- t;
    After(VStr(p), Parse(g, rest))
  }

  function AfterFlag(flag: bytes, g: Format, rest: bytes): Option<(Values, bytes)> {
    if flag == [] then None else After(VBool(flag[0] != 0), Parse(g, rest))
  }

  function AfterNames(t: Option<(seq<Str>, bytes)>, g: Format): Option<(Values, bytes)> {
    var p :- t;
    After(VNames(p.0), Parse(g, p.1))
  }

  function AfterAddress(a: Option<(Address, bytes)>, g: Format): Option<(Values, bytes)> {
    var p :- a;
    After(VAddr(p.0), Parse(g, p.1))
  }

  function AfterNumber(n: Option<(int, bytes)>, g: Format): Option<(Values, bytes)> {
    var p :- n;
    After(VNumber(Num(p.0)), Parse(g, p.1))
  }

  function After(v: Value, r: Option<(Values, bytes)>): Option<(Values, bytes)> {
    match r
    case None => None
    case Some(p) => Some((Cons(v, p.0), p.1))
  }

  function PrintOptText(o: Option<Str>): Option<bytes> {
    if o.Some? then PrintText(Utf8, o.value) else Some([])
  }

  function Onto(acc: bytes, h: Option<bytes>, g: Format, ws: Values): Option<bytes> {
    match h
    case None => None
    case Some(b) => PrintOnto(acc + b, g, ws)
  }

  /** The type number and the token open every body; what follows is printed onto them. */
  function Opening(m: Message): bytes {
    BigEndian(Code(TypeOf(m)), 2) + m.token
  }

  lemma DataByAccumulation(m: Message)
    ensures ToData(m) == PrintOnto(Opening(m), BodyFormat(TypeOf(m)), BodyFields(m))
  {
    hide BodyFormat, BodyFields, TypeOf, Code, Print, PrintOnto;
    var f, vs := BodyFormat(TypeOf(m)), BodyFields(m);
    PrintOntoIs(Opening(m), f, vs);
    TokenFirst(m.token, f, vs);
    if Print(f, vs).Some? {
      assert Opening(m) + Print(f, vs).value == BigEndian(Code(TypeOf(m)), 2) + (m.token + Print(f, vs).value);
    }
  }

  lemma TokenFirst(token: bytes, f: Format, vs: Values)
    ensures Print(Then(Raw(16), f), Cons(VBytes(token), vs))
         == match Print(f, vs) case None => None case Some(p) => Some(token + p)
  {}

  method WriteOpening(buff: BytesIO, m: Message)
    requires buff.Valid() && buff.data == [] && buff.pos == 0
    modifies buff
    ensures buff.Valid() && buff.pos == |buff.data| && buff.data == Opening(m)
  {
    buff.Write(BigEndian(Code(TypeOf(m)), 2));
    buff.Write(m.token);
  }

  /**
   A decoder of type t failed where the format does not parse, and otherwise returned the message of
   that type with the token and the field values the format parses to.
   */
  ghost predicate Decoded(t: CmdType, bs: bytes, r: Option<Message>, rest: bytes) {
    match Parse(BodyFormat(t), Tail(bs, 16))
    case None => r.None?
    case Some(p) =>
      && r.Some? && rest == p.1
      && TypeOf(r.value) == t && r.value.token == Head(bs, 16) && BodyFields(r.value) == p.0
  }

  lemma DecodedIsDecodeBody(t: CmdType, bs: bytes, r: Option<Message>, rest: bytes)
    requires Decoded(t, bs, r, rest)
    ensures Took(DecodeBody(t, bs), r, rest)
  {
    hide Parse, Build, BodyFormat, BodyFields, TypeOf;
    if r.Some? {
      BuildExact(r.value, BodyFields(r.value));
    }
  }

  /** The count and the text that ERR and LOG read inline; the count is taken as a number of bytes. */
  method ReadCounted(buff: BytesIO) returns (s: Option<Str>)
    requires buff.Valid()
    modifies buff
    ensures buff.Valid() && Took(ParseText(Utf8, old(buff.Rest())), s, buff.Rest())
  {
    var length := buff.Read(4);
    var b := buff.Read(FromBigEndian(length));
    s := Decode(Utf8, b);
  }

  // ---- wsnet/protocol/common/err.py ----

  method ErrToData(m: Message) returns (r: Option<bytes>)
    requires m.Err?
    ensures r == ToData(m)
  {
    DataByAccumulation(m);
    hide ToData, Print, ToBytes;
    var t := BigEndian(Code(TErr), 2);
    t := t + m.token;
    ghost var acc := t;
    var l :- ToBytes(|m.reason|, 4);
    t := t + l;
    var b :- Encode(Utf8, m.reason);
    t := t + b;
    assert t == acc + (l + b);
    acc := t;
    l :- ToBytes(|m.extra|, 4);
    t := t + l;
    b :- Encode(Utf8, m.extra);
    t := t + b;
    assert t == acc + (l + b);
    r := Some(t);
  }

  method ErrFromBuffer(buff: BytesIO) returns (r: Option<Message>)
    requires buff.Valid()
    modifies buff
    ensures buff.Valid() && Decoded(TErr, old(buff.Rest()), r, buff.Rest())
  {
    ParseSteps();
    hide Parse, ParseField, ParseText, ParseNumber, ParseBlob, ParseAddress, ParseNames, Decode, FromBigEndian;
    hide Head, Tail, BytesIO.Rest;
    var token := buff.Read(16);
    var reason :- ReadCounted(buff);
    var extra :- ReadCounted(buff);
    r := Some(Err(token, reason, extra));
  }

  // ---- wsnet/protocol/common/log.py ----

  method LogToData(m: Message) returns (r: Option<bytes>)
    requires m.Log?
    ensures r == ToData(m)
  {
    DataByAccumulation(m);
    hide ToData, Print, ToBytes;
    var t := BigEndian(Code(TLog), 2);
    t := t + m.token;
    var n :- ToBytes(m.level, 2);
    t := t + n;
    ghost var acc := t;
    var l :- ToBytes(|m.text|, 4);
    t := t + l;
    var b :- Encode(Utf8, m.text);
    t := t + b;
    assert t == acc + (l + b);
    r := Some(t);
  }

  method LogFromBuffer(buff: BytesIO) returns (r: Option<Message>)
    requires buff.Valid()
    modifies buff
    ensures buff.Valid() && Decoded(TLog, old(buff.Rest()), r, buff.Rest())
  {
    ParseSteps();
    hide Parse, ParseField, ParseText, ParseNumber, ParseBlob, ParseAddress, ParseNames, Decode, FromBigEndian;
    hide Head, Tail, BytesIO.Rest;
    var token := buff.Read(16);
    var n := buff.Read(2);
    var text :- ReadCounted(buff);
    r := Some(Log(token, FromBigEndian(n), text));
  }

  // ---- wsnet/protocol/common/ok.py ----

  method OkToData(m: Message) returns (r: Option<bytes>)
    requires m.OK?
    ensures r == ToData(m)
  {
    DataByAccumulation(m);
    OntoSteps();
    hide ToData, Print, PrintField, PrintOnto, Opening, PrintText, ToBytes, BytesIO.Rest;
    assert BodyFormat(TypeOf(m)) == Then(OptText, End);
    var buff := new BytesIO([]);
    WriteOpening(buff, m);
    if m.msg.Some? {
      var _ :- WriteStr(buff, m.msg.value, Utf8);
    } else {
      assert buff.data + [] == buff.data;
    }
    buff.Rewind();
    var d := buff.ReadAll();
    r := Some(d);
  }

  method OkFromBuffer(buff: BytesIO) returns (r: Option<Message>)
    requires buff.Valid()
    modifies buff
    ensures buff.Valid() && Decoded(TOk, old(buff.Rest()), r, buff.Rest())
  {
    ParseSteps();
    hide Parse, ParseField, ParseText, ParseNumber, ParseBlob, ParseAddress, ParseNames, Decode, FromBigEndian;
    hide Head, Tail, BytesIO.Rest;
    var token := buff.Read(16);
    var msg :- ReadStr(buff, Utf8);
    r := Some(OK(token, Some(msg)));
  }

  // ---- wsnet/protocol/common/wsncontinue.py ----

  method ContinueToData(m: Message) returns (r: Option<bytes>)
    requires m.Continue?
    ensures r == ToData(m)
  {
    DataByAccumulation(m);
    OntoSteps();
    hide ToData, Print, PrintField, PrintOnto, Opening, PrintText, ToBytes, BytesIO.Rest;
    assert BodyFormat(TypeOf(m)) == Then(OptText, End);
    var buff := new BytesIO([]);
    WriteOpening(buff, m);
    if m.msg.Some? {
      var _ :- WriteStr(buff, m.msg.value, Utf8);
    } else {
      assert buff.data + [] == buff.data;
    }
    buff.Rewind();
    var d := buff.ReadAll();
    r := Some(d);
  }

  method ContinueFromBuffer(buff: BytesIO) returns (r: Option<Message>)
    requires buff.Valid()
    modifies buff
    ensures buff.Valid() && Decoded(TContinue, old(buff.Rest()), r, buff.Rest())
  {
    ParseSteps();
    hide Parse, ParseField, ParseText, ParseNumber, ParseBlob, ParseAddress, ParseNames, Decode, FromBigEndian;
    hide Head, Tail, BytesIO.Rest;
    var token := buff.Read(16);
    var msg :- ReadStr(buff, Utf8);
    r := Some(Continue(token, Some(msg)));
  }

  // ---- wsnet/protocol/connection/connect.py ----

  method ConnectToData(m: Message) returns (r: Option<bytes>)
    requires m.Connect?
    ensures r == ToData(m)
  {
    DataByAccumulation(m);
    hide ToData, Print, ToBytes;
    var t := BigEndian(Code(TConnect), 2);
    t := t + m.token;
    var p :- Encode(Utf8, m.protocol);
    t := t + p;
    t := t + [if m.bind then 1 else 0];
    ghost var acc := t;
    match m.ip {
      case Host(name) =>
        var l :- ToBytes(|name|, 4);
        var b :- Encode(Utf8, name);
        t := t + ([255] + l + b);
        assert [255] + l + b == [255] + (l + b);
      case V4(packed) => t := t + ([4] + packed);
      case V6(packed) => t := t + ([6] + packed);
    }
    assert PrintField(Addr(true), VAddr(m.ip)).Some? && t == acc + PrintField(Addr(true), VAddr(m.ip)).value;
    var n :- ToBytes(m.port, 2);
    t := t + n;
    n :- ToBytes(m.bindtype, 1);
    t := t + n;
    r := Some(t);
  }

  method ConnectFromBuffer(buff: BytesIO) returns (r: Option<Message>)
    requires buff.Valid()
    modifies buff
    ensures buff.Valid() && Decoded(TConnect, old(buff.Rest()), r, buff.Rest())
  {
    ParseSteps();
    hide Parse, ParseField, ParseText, ParseNumber, ParseBlob, ParseAddress, ParseNames, Decode, FromBigEndian;
    hide Head, Tail, BytesIO.Rest;
    var token := buff.Read(16);
    var b := buff.Read(3);
    var protocol :- Decode(Utf8, b);
    var flag := buff.Read(1);
    if flag == [] {
      return None;
    }
    var ip :- AddressFromBuffer(buff);
    var port := buff.Read(2);
    var bindtype := buff.Read(1);
    r := Some(Connect(token, protocol, ip, FromBigEndian(port), flag[0] != 0, FromBigEndian(bindtype)));
  }

  /** The three address forms, as the decoders of CONNECT and SDSRV branch over them. */
  method AddressFromBuffer(buff: BytesIO) returns (a: Option<Address>)
    requires buff.Valid()
    modifies buff
    ensures buff.Valid() && Took(ParseAddress(old(buff.Rest())), a, buff.Rest())
  {
    var ipver := buff.Read(1);
    if ipver == [4] {
      var b := buff.Read(4);
      a := Packed(b);
    } else if ipver == [6] {
      var b := buff.Read(16);
      a := Packed(b);
    } else if ipver == [255] {
      var l := buff.Read(4);
      var b := buff.Read(FromBigEndian(l));
      var name :- Decode(Utf8, b);
      a := Some(Host(name));
    } else {
      a := None;
    }
  }

  // ---- wsnet/protocol/connection/socketdata.py ----

  method SocketDataToData(m: Message) returns (r: Option<bytes>)
    requires m.SocketData?
    ensures r == ToData(m)
  {
    DataByAccumulation(m);
    hide ToData, Print, ToBytes;
    var t := BigEndian(Code(TSd), 2);
    t := t + m.token;
    t := t + m.data;
    r := Some(t);
  }

  method SocketDataFromBuffer(buff: BytesIO) returns (r: Option<Message>)
    requires buff.Valid()
    modifies buff
    ensures buff.Valid() && Decoded(TSd, old(buff.Rest()), r, buff.Rest())
  {
    ParseSteps();
    hide Parse, ParseField, ParseText, ParseNumber, ParseBlob, ParseAddress, ParseNames, Decode, FromBigEndian;
    hide Head, Tail, BytesIO.Rest;
    var token := buff.Read(16);
    var data := buff.ReadAll();
    r := Some(SocketData(token, data));
  }

  // ---- wsnet/protocol/connection/serversocketdata.py ----

  method ServerSocketDataToData(m: Message) returns (r: Option<bytes>)
    requires m.ServerSocketData?
    ensures r == ToData(m)
  {
    DataByAccumulation(m);
    hide ToData, Print, ToBytes;
    var t := BigEndian(Code(TSdSrv), 2);
    t := t + m.token;
    t := t + m.connectiontoken;
    ghost var acc := t;
    match m.clientip {
      case Host(name) =>
        var tip :- Encode(Utf8, name);
        var l :- ToBytes(|tip|, 4);
        t := t + ([255] + l + tip);
        assert [255] + l + tip == [255] + (l + tip);
      case V4(packed) => t := t + ([4] + packed);
      case V6(packed) => t := t + ([6] + packed);
    }
    assert PrintField(Addr(false), VAddr(m.clientip)).Some?;
    assert t == acc + PrintField(Addr(false), VAddr(m.clientip)).value;
    var n :- ToBytes(m.clientport, 2);
    t := t + n;
    t := t + m.data;
    r := Some(t);
  }

  method ServerSocketDataFromBuffer(buff: BytesIO) returns (r: Option<Message>)
    requires buff.Valid()
    modifies buff
    ensures buff.Valid() && Decoded(TSdSrv, old(buff.Rest()), r, buff.Rest())
  {
    ParseSteps();
    hide Parse, ParseField, ParseText, ParseNumber, ParseBlob, ParseAddress, ParseNames, Decode, FromBigEndian;
    hide Head, Tail, BytesIO.Rest;
    var token := buff.Read(16);
    var connectiontoken := buff.Read(16);
    var clientip :- AddressFromBuffer(buff);
    var port := buff.Read(2);
    var data := buff.ReadAll();
    r := Some(ServerSocketData(token, connectiontoken, data, clientip, FromBigEndian(port)));
  }

  // ---- wsnet/protocol/connection/resolv.py ----

  /** The loop that writes the names, one writeStr a pass. */
  method WriteNames(buff: BytesIO, names: seq<Str>) returns (ok: Option<()>)
    requires buff.Valid() && buff.pos == |buff.data|
    modifies buff
    ensures buff.Valid() && buff.pos == |buff.data|
    ensures match PrintNames(names)
            case None => ok.None?
            case Some(p) => ok.Some? && buff.data == old(buff.data) + p
  {
    hide PrintText;
    ghost var done: bytes := [];
    var i := 0;
    assert names[0..] == names;
    assert PrintNames(names).Some? ==> done + PrintNames(names).value == PrintNames(names).value;
    while i < |names|
      invariant 0 <= i <= |names|
      invariant buff.Valid() && buff.pos == |buff.data| && buff.data == old(buff.data) + done
      invariant Prefixed(done, PrintNames(names[i..])) == PrintNames(names)
    {
      assert names[i..][1..] == names[i + 1..];
      var _ :- WriteStr(buff, names[i], Utf8);
      ghost var h := PrintText(Utf8, names[i]).value;
      if PrintNames(names[i + 1..]).Some? {
        assert done + (h + PrintNames(names[i + 1..]).value) == done + h + PrintNames(names[i + 1..]).value;
      }
      done := done + h;
      i := i + 1;
    }
    ok := Some(());
  }

  ghost function Prefixed(p: bytes, r: Option<bytes>): Option<bytes> {
    match r
    case None => None
    case Some(b) => Some(p + b)
  }

  method ResolvToData(m: Message) returns (r: Option<bytes>)
    requires m.Resolv?
    ensures r == ToData(m)
  {
    DataByAccumulation(m);
    OntoSteps();
    hide ToData, Print, PrintField, PrintOnto, PrintNames, ToBytes, Opening, BytesIO.Rest;
    assert BodyFormat(TypeOf(m)) == Then(NameList, End);
    var buff := new BytesIO([]);
    WriteOpening(buff, m);
    var count :- ToBytes(|m.names|, 4);
    buff.Write(count);
    var _ :- WriteNames(buff, m.names);
    assert Opening(m) + count + PrintNames(m.names).value == Opening(m) + (count + PrintNames(m.names).value);
    buff.Rewind();
    var d := buff.ReadAll();
    r := Some(d);
  }

  /** The loop that reads the counted names, one readStr a pass. */
  method NamesFromBuffer(buff: BytesIO, count: nat) returns (names: Option<seq<Str>>)
    requires buff.Valid()
    modifies buff
    ensures buff.Valid() && Took(ParseNames(count, old(buff.Rest())), names, buff.Rest())
  {
    hide ParseText;
    var list: seq<Str> := [];
    var i := 0;
    NamesAfterNone(ParseNames(count, buff.Rest()));
    while i < count
      invariant 0 <= i <= count && buff.Valid()
      invariant ParseNames(count, old(buff.Rest())) == NamesAfter(list, ParseNames(count - i, buff.Rest()))
    {
      var name :- ReadStr(buff, Utf8);
      ghost var p := ParseNames(count - i - 1, buff.Rest());
      if p.Some? {
        assert list + ([name] + p.value.0) == list + [name] + p.value.0;
      }
      list := list + [name];
      i := i + 1;
    }
    assert list + [] == list;
    names := Some(list);
  }

  ghost function NamesAfter(list: seq<Str>, r: Option<(seq<Str>, bytes)>): Option<(seq<Str>, bytes)> {
    match r
    case None => None
    case Some(p) => Some((list + p.0, p.1))
  }

  lemma NamesAfterNone(r: Option<(seq<Str>, bytes)>)
    ensures NamesAfter([], r) == r
  {
    if r.Some? {
      assert [] + r.value.0 == r.value.0;
    }
  }

  method ResolvFromBuffer(buff: BytesIO) returns (r: Option<Message>)
    requires buff.Valid()
    modifies buff
    ensures buff.Valid() && Decoded(TResolv, old(buff.Rest()), r, buff.Rest())
  {
    ParseSteps();
    hide Parse, ParseField, ParseText, ParseNumber, ParseBlob, ParseAddress, ParseNames, Decode, FromBigEndian;
    hide Head, Tail, BytesIO.Rest;
    var token := buff.Read(16);
    var l := buff.Read(4);
    var names :- NamesFromBuffer(buff, FromBigEndian(l));
    r := Some(Resolv(token, names));
  }

  // ---- wsnet/protocol/authentication/kerberosauth.py ----

  method KerberosAuthToData(m: Message) returns (r: Option<bytes>)
    requires m.KerberosAuth?
    ensures r == ToData(m)
  {
    DataByAccumulation(m);
    OntoSteps();
    hide ToData, Print, PrintField, PrintOnto, Opening, PrintText, PrintBlob, ToBytes, Encode, NumberText, BytesIO.Rest;
    var buff := new BytesIO([]);
    WriteOpening(buff, m);
    var _ :- WriteStr(buff, m.username, Utf8);
    var _ :- WriteStr(buff, NumberText(m.credusage), Utf8);
    var _ :- WriteStr(buff, NumberText(m.ctxattr), Utf8);
    var _ :- WriteStr(buff, m.targetname, Utf8);
    var _ :- WriteBytes(buff, m.authdata);
    buff.Rewind();
    var d := buff.ReadAll();
    r := Some(d);
  }

  method KerberosAuthFromBuffer(buff: BytesIO) returns (r: Option<Message>)
    requires buff.Valid()
    modifies buff
    ensures buff.Valid() && Decoded(TKerberos, old(buff.Rest()), r, buff.Rest())
  {
    ParseSteps();
    hide Parse, ParseField, ParseText, ParseNumber, ParseBlob, ParseAddress, ParseNames, Decode, FromBigEndian;
    hide Head, Tail, BytesIO.Rest;
    var token := buff.Read(16);
    var username :- ReadStr(buff, Utf8);
    var credusage :- ReadInt(buff);
    var ctxattr :- ReadInt(buff);
    var targetname :- ReadStr(buff, Utf8);
    var authdata := ReadBytes(buff);
    r := Some(KerberosAuth(token, targetname, username, credusage, ctxattr, authdata));
  }

  // ---- wsnet/protocol/common/listagentsreply.py ----

  method ListAgentsReplyToData(m: Message) returns (r: Option<bytes>)
    requires m.ListAgentsReply?
    ensures r == ToData(m)
  {
    DataByAccumulation(m);
    OntoSteps();
    hide ToData, Print, PrintField, PrintOnto, Opening, PrintText, PrintBlob, ToBytes, Encode, NumberText, BytesIO.Rest;
    var buff := new BytesIO([]);
    WriteOpening(buff, m);
    var _ :- WriteBytes(buff, m.agentid);
    var _ :- WriteStr(buff, NumberText(m.info.pid), Utf8);
    var _ :- WriteStr(buff, m.info.username, Utf16LE);
    var _ :- WriteStr(buff, m.info.domain, Utf16LE);
    var _ :- WriteStr(buff, m.info.logonserver, Utf16LE);
    var _ :- WriteStr(buff, m.info.cpuarch, Utf8);
    var _ :- WriteStr(buff, m.info.hostname, Utf16LE);
    var _ :- WriteStr(buff, m.info.usersid, Utf8);
    buff.Rewind();
    var d := buff.ReadAll();
    r := Some(d);
  }

  method ListAgentsReplyFromBuffer(buff: BytesIO) returns (r: Option<Message>)
    requires buff.Valid()
    modifies buff
    ensures buff.Valid() && Decoded(TAgentInfo, old(buff.Rest()), r, buff.Rest())
  {
    ParseSteps();
    hide Parse, ParseField, ParseText, ParseNumber, ParseBlob, ParseAddress, ParseNames, Decode, FromBigEndian;
    hide Head, Tail, BytesIO.Rest;
    var token := buff.Read(16);
    var agentid := ReadBytes(buff);
    var pid :- ReadInt(buff);
    var username :- ReadStr(buff, Utf16LE);
    var domain :- ReadStr(buff, Utf16LE);
    var logonserver :- ReadStr(buff, Utf16LE);
    var cpuarch :- ReadStr(buff, Utf8);
    var hostname :- ReadStr(buff, Utf16LE);
    var usersid :- ReadStr(buff, Utf8);
    var info := AgentInfo(pid, username, domain, logonserver, cpuarch, hostname, usersid);
    r := Some(ListAgentsReply(token, agentid, info));
  }

  // ---- wsnet/protocol/common/inforeply.py and listagents.py ----

  method GetInfoReplyToData(m: Message) returns (r: Option<bytes>)
    requires m.GetInfoReply?
    ensures r == ToData(m)
  {
    DataByAccumulation(m);
    OntoSteps();
    hide ToData, Print, PrintField, PrintOnto, Opening, PrintText, PrintBlob, ToBytes, Encode, NumberText, BytesIO.Rest;
    var buff := new BytesIO([]);
    WriteOpening(buff, m);
    var _ :- WriteStr(buff, NumberText(m.info.pid), Utf8);
    var _ :- WriteStr(buff, m.info.username, Utf16LE);
    var _ :- WriteStr(buff, m.info.domain, Utf16LE);
    var _ :- WriteStr(buff, m.info.logonserver, Utf16LE);
    var _ :- WriteStr(buff, m.info.cpuarch, Utf8);
    var _ :- WriteStr(buff, m.info.hostname, Utf16LE);
    var _ :- WriteStr(buff, m.info.usersid, Utf8);
    var _ :- WriteStr(buff, m.os, Utf8);
    var _ :- WriteStr(buff, m.logonserverip, Utf8);
    buff.Rewind();
    var d := buff.ReadAll();
    r := Some(d);
  }

  method GetInfoReplyFromBuffer(buff: BytesIO) returns (r: Option<Message>)
    requires buff.Valid()
    modifies buff
    ensures buff.Valid() && Decoded(TGetInfoReply, old(buff.Rest()), r, buff.Rest())
  {
    ParseSteps();
    hide Parse, ParseField, ParseText, ParseNumber, ParseBlob, ParseAddress, ParseNames, Decode, FromBigEndian;
    hide Head, Tail, BytesIO.Rest;
    var token := buff.Read(16);
    var pid :- ReadInt(buff);
    var username :- ReadStr(buff, Utf16LE);
    var domain :- ReadStr(buff, Utf16LE);
    var logonserver :- ReadStr(buff, Utf16LE);
    var cpuarch :- ReadStr(buff, Utf8);
    var hostname :- ReadStr(buff, Utf16LE);
    var usersid :- ReadStr(buff, Utf8);
    var os :- ReadStr(buff, Utf8);
    var logonserverip :- ReadStr(buff, Utf8);
    var info := AgentInfo(pid, username, domain, logonserver, cpuarch, hostname, usersid);
    r := Some(GetInfoReply(token, info, os, logonserverip));
  }

  method ListAgentsToData(m: Message) returns (r: Option<bytes>)
    requires m.ListAgents?
    ensures r == ToData(m)
  {
    DataByAccumulation(m);
    hide ToData, Print, ToBytes;
    var t := BigEndian(Code(TListAgents), 2);
    t := t + m.token;
    r := Some(t);
  }

  method ListAgentsFromBuffer(buff: BytesIO) returns (r: Option<Message>)
    requires buff.Valid()
    modifies buff
    ensures buff.Valid() && Decoded(TListAgents, old(buff.Rest()), r, buff.Rest())
  {
    ParseSteps();
    hide Parse, ParseField, ParseText, ParseNumber, ParseBlob, ParseAddress, ParseNames, Decode, FromBigEndian;
    hide Head, Tail, BytesIO.Rest;
    var token := buff.Read(16);
    r := Some(ListAgents(token));
  }

  // ---- wsnet/protocol/fileop ----

  method FileOpenToData(m: Message) returns (r: Option<bytes>)
    requires m.FileOpen?
    ensures r == ToData(m)
  {
    DataByAccumulation(m);
    assert BodyFormat(TypeOf(m)) == Then(Text(Utf8), Then(Text(Utf8), End));
    OntoSteps();
    hide ToData, Print, PrintField, PrintOnto, Opening, PrintText, PrintBlob, ToBytes, Encode, NumberText, BytesIO.Rest;
    var buff := new BytesIO([]);
    WriteOpening(buff, m);
    var _ :- WriteStr(buff, m.path, Utf8);
    var _ :- WriteStr(buff, m.mode, Utf8);
    buff.Rewind();
    var d := buff.ReadAll();
    r := Some(d);
  }

  method FileOpenFromBuffer(buff: BytesIO) returns (r: Option<Message>)
    requires buff.Valid()
    modifies buff
    ensures buff.Valid() && Decoded(TFileOpen, old(buff.Rest()), r, buff.Rest())
  {
    ParseSteps();
    hide Parse, ParseField, ParseText, ParseNumber, ParseBlob, ParseAddress, ParseNames, Decode, FromBigEndian;
    hide Head, Tail, BytesIO.Rest;
    var token := buff.Read(16);
    var path :- ReadStr(buff, Utf8);
    var mode :- ReadStr(buff, Utf8);
    r := Some(FileOpen(token, path, mode));
  }

  method FileReadToData(m: Message) returns (r: Option<bytes>)
    requires m.FileRead?
    ensures r == ToData(m)
  {
    DataByAccumulation(m);
    OntoSteps();
    hide ToData, Print, PrintField, PrintOnto, Opening, PrintText, PrintBlob, ToBytes, Encode, NumberText, BytesIO.Rest;
    assert BodyFormat(TypeOf(m)) == Then(UInt(4), Then(UInt(8), End));
    var buff := new BytesIO([]);
    WriteOpening(buff, m);
    var n :- ToBytes(m.size, 4);
    buff.Write(n);
    n :- ToBytes(m.offset, 8);
    buff.Write(n);
    buff.Rewind();
    var d := buff.ReadAll();
    r := Some(d);
  }

  method FileReadFromBuffer(buff: BytesIO) returns (r: Option<Message>)
    requires buff.Valid()
    modifies buff
    ensures buff.Valid() && Decoded(TFileRead, old(buff.Rest()), r, buff.Rest())
  {
    ParseSteps();
    hide Parse, ParseField, ParseText, ParseNumber, ParseBlob, ParseAddress, ParseNames, Decode, FromBigEndian;
    hide Head, Tail, BytesIO.Rest;
    var token := buff.Read(16);
    var size := buff.Read(4);
    var offset := buff.Read(8);
    r := Some(FileRead(token, FromBigEndian(size), FromBigEndian(offset)));
  }

  method FileDataToData(m: Message) returns (r: Option<bytes>)
    requires m.FileData?
    ensures r == ToData(m)
  {
    DataByAccumulation(m);
    OntoSteps();
    hide ToData, Print, PrintField, PrintOnto, Opening, PrintText, PrintBlob, ToBytes, Encode, NumberText, BytesIO.Rest;
    assert BodyFormat(TypeOf(m)) == Then(UInt(8), Then(Blob, End));
    var buff := new BytesIO([]);
    WriteOpening(buff, m);
    var n :- ToBytes(m.offset, 8);
    buff.Write(n);
    var _ :- WriteBytes(buff, m.data);
    buff.Rewind();
    var d := buff.ReadAll();
    r := Some(d);
  }

  method FileDataFromBuffer(buff: BytesIO) returns (r: Option<Message>)
    requires buff.Valid()
    modifies buff
    ensures buff.Valid() && Decoded(TFileData, old(buff.Rest()), r, buff.Rest())
  {
    ParseSteps();
    hide Parse, ParseField, ParseText, ParseNumber, ParseBlob, ParseAddress, ParseNames, Decode, FromBigEndian;
    hide Head, Tail, BytesIO.Rest;
    var token := buff.Read(16);
    var offset := buff.Read(8);
    var data := ReadBytes(buff);
    r := Some(FileData(token, data, FromBigEndian(offset)));
  }

  const FOUR_LONGS: Format := Then(UInt(8), Then(UInt(8), Then(UInt(8), Then(UInt(8), End))))

  function LongFields(a: int, b: int, c: int, d: int): Values {
    Cons(VInt(a), Cons(VInt(b), Cons(VInt(c), Cons(VInt(d), Nil))))
  }

  method WriteLongs(buff: BytesIO, a: int, b: int, c: int, d: int) returns (ok: Option<()>)
    requires buff.Valid() && buff.pos == |buff.data|
    modifies buff
    ensures buff.Valid() && buff.pos == |buff.data|
    ensures PrintOnto(old(buff.data), FOUR_LONGS, LongFields(a, b, c, d)) == if ok.Some? then Some(buff.data) else None
  {
    OntoSteps();
    hide PrintField, PrintOnto, ToBytes;
    var n :- ToBytes(a, 8);
    buff.Write(n);
    n :- ToBytes(b, 8);
    buff.Write(n);
    n :- ToBytes(c, 8);
    buff.Write(n);
    n :- ToBytes(d, 8);
    buff.Write(n);
    ok := Some(());
  }

  method FileEntryToData(m: Message) returns (r: Option<bytes>)
    requires m.FileEntry?
    ensures r == ToData(m)
  {
    DataByAccumulation(m);
    OntoSteps();
    hide ToData, Print, PrintField, PrintOnto, Opening, PrintText, PrintBlob, ToBytes, Encode, NumberText, BytesIO.Rest;
    assert BodyFormat(TypeOf(m)) == Then(Text(Utf8), Then(Text(Utf8), Then(Flag, FOUR_LONGS)));
    var buff := new BytesIO([]);
    WriteOpening(buff, m);
    var _ :- WriteStr(buff, m.root, Utf8);
    var _ :- WriteStr(buff, m.name, Utf8);
    buff.Write(if m.isDir then [1] else [0]);
    var _ :- WriteLongs(buff, m.size, m.atime, m.mtime, m.ctime);
    buff.Rewind();
    var d := buff.ReadAll();
    r := Some(d);
  }

  method FileEntryFromBuffer(buff: BytesIO) returns (r: Option<Message>)
    requires buff.Valid()
    modifies buff
    ensures buff.Valid() && Decoded(TFileEntry, old(buff.Rest()), r, buff.Rest())
  {
    ParseSteps();
    hide Parse, ParseField, ParseText, ParseNumber, ParseBlob, ParseAddress, ParseNames, Decode, FromBigEndian;
    hide Head, Tail, BytesIO.Rest;
    var token := buff.Read(16);
    var root :- ReadStr(buff, Utf8);
    var name :- ReadStr(buff, Utf8);
    var flag := buff.Read(1);
    if flag == [] {
      return None;
    }
    var size := buff.Read(8);
    var atime := buff.Read(8);
    var mtime := buff.Read(8);
    var ctime := buff.Read(8);
    r := Some(FileEntry(token, root, name, flag[0] != 0, FromBigEndian(size), FromBigEndian(atime),
        FromBigEndian(mtime), FromBigEndian(ctime)));
  }

  method FileStatToData(m: Message) returns (r: Option<bytes>)
    requires m.FileStat?
    ensures r == ToData(m)
  {
    DataByAccumulation(m);
    assert PrintOnto(Opening(m), BodyFormat(TypeOf(m)), BodyFields(m)) == PrintOnto(Opening(m), End, Nil);
    OntoSteps();
    hide ToData, Print, PrintField, PrintOnto, Opening, PrintText, PrintBlob, ToBytes, Encode, NumberText, BytesIO.Rest;
    var buff := new BytesIO([]);
    WriteOpening(buff, m);
    buff.Rewind();
    var d := buff.ReadAll();
    r := Some(d);
  }

  method FileStatFromBuffer(buff: BytesIO) returns (r: Option<Message>)
    requires buff.Valid()
    modifies buff
    ensures buff.Valid() && Decoded(TFileStat, old(buff.Rest()), r, buff.Rest())
  {
    ParseSteps();
    hide Parse, ParseField, ParseText, ParseNumber, ParseBlob, ParseAddress, ParseNames, Decode, FromBigEndian;
    hide Head, Tail, BytesIO.Rest;
    var token := buff.Read(16);
    r := Some(FileStat(token));
  }

  // ---- wsnet/protocol/__init__.py ----

  method ToDataOf(m: Message) returns (d: Option<bytes>)
    ensures d == ToData(m)
  {
    match TypeOf(m) {
      case TOk => d := OkToData(m);
      case TContinue => d := ContinueToData(m);
      case TErr => d := ErrToData(m);
      case TLog => d := LogToData(m);
      case TConnect => d := ConnectToData(m);
      case TSd => d := SocketDataToData(m);
      case TKerberos => d := KerberosAuthToData(m);
      case TGetInfoReply => d := GetInfoReplyToData(m);
      case TListAgents => d := ListAgentsToData(m);
      case TAgentInfo => d := ListAgentsReplyToData(m);
      case TSdSrv => d := ServerSocketDataToData(m);
      case TResolv => d := ResolvToData(m);
      case TFileOpen => d := FileOpenToData(m);
      case TFileRead => d := FileReadToData(m);
      case TFileData => d := FileDataToData(m);
      case TFileEntry => d := FileEntryToData(m);
      case TFileStat => d := FileStatToData(m);
    }
  }

  /** CMD.to_bytes */
  method ToFrame(m: Message) returns (r: Option<bytes>)
    ensures r == EncodeFrame(m)
  {
    var d: bytes :- ToDataOf(m);
    var l :- ToBytes(|d| + 4, 4);
    r := Some(l + d);
  }

  /** The dispatch of type2cmd. */
  method BodyFromBuffer(t: CmdType, buff: BytesIO) returns (r: Option<Message>)
    requires buff.Valid()
    modifies buff
    ensures buff.Valid() && Took(DecodeBody(t, old(buff.Rest())), r, buff.Rest())
  {
    hide DecodeBody, Decoded;
    ghost var before := buff.Rest();
    match t {
      case TOk => r := OkFromBuffer(buff);
      case TContinue => r := ContinueFromBuffer(buff);
      case TErr => r := ErrFromBuffer(buff);
      case TLog => r := LogFromBuffer(buff);
      case TConnect => r := ConnectFromBuffer(buff);
      case TSd => r := SocketDataFromBuffer(buff);
      case TKerberos => r := KerberosAuthFromBuffer(buff);
      case TGetInfoReply => r := GetInfoReplyFromBuffer(buff);
      case TListAgents => r := ListAgentsFromBuffer(buff);
      case TAgentInfo => r := ListAgentsReplyFromBuffer(buff);
      case TSdSrv => r := ServerSocketDataFromBuffer(buff);
      case TResolv => r := ResolvFromBuffer(buff);
      case TFileOpen => r := FileOpenFromBuffer(buff);
      case TFileRead => r := FileReadFromBuffer(buff);
      case TFileData => r := FileDataFromBuffer(buff);
      case TFileEntry => r := FileEntryFromBuffer(buff);
      case TFileStat => r := FileStatFromBuffer(buff);
    }
    DecodedIsDecodeBody(t, before, r, buff.Rest());
  }

  /** CMD.from_buffer */
  method FromBuffer(buff: BytesIO) returns (r: Option<Message>)
    requires buff.Valid()
    modifies buff
    ensures buff.Valid() && Took(DecodeFrame(old(buff.Rest())), r, buff.Rest())
  {
    hide DecodeBody, CmdTypeOf;
    var length := buff.Read(4);
    var dt := buff.Read(2);
    var t :- CmdTypeOf(FromBigEndian(dt));
    r := BodyFromBuffer(t, buff);
  }

  /** CMD.from_bytes */
  method FromBytes(data: bytes) returns (r: Option<Message>)
    ensures r == DecodeBytes(data)
  {
    hide DecodeFrame;
    var buff := new BytesIO(data);
    r := FromBuffer(buff);
  }

  /** OPCMD.to_bytes */
  method OpToBytes(agentid: bytes, m: Message) returns (r: Option<bytes>)
    ensures r == EncodeOp(agentid, m)
  {
    var t := agentid;
    var c: bytes :- ToFrame(m);
    t := t + c;
    var cmdlen :- ToBytes(|t|, 4);
    r := Some(cmdlen + t);
  }
}
