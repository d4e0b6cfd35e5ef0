/**
 The wire format, stated once as data: every message type is a list of field kinds, and one
 printer and one parser read all of them. The codecs of the source, written message by message
 over a buffer, are proved to compute these functions in module Codec.
 */
module Wire {
  import opened Bytes
  import opened Text

  // ---- messages ----

  /** An address as ipaddress.ip_address leaves it, or the text it does not accept. */
  datatype Address = V4(packed: bytes) | V6(packed: bytes) | Host(name: Str)

  /** An integer field the sender may hold as a number or already as text. */
  datatype IntText = Num(n: int) | Txt(s: Str)

  datatype Message =
    | OK(token: bytes, msg: Option<Str>)
    | Continue(token: bytes, msg: Option<Str>)
    | Err(token: bytes, reason: Str, extra: Str)
    | Log(token: bytes, level: int, text: Str)
    | Connect(token: bytes, protocol: Str, ip: Address, port: int, bind: bool, bindtype: int)
    | SocketData(token: bytes, data: bytes)
    | KerberosAuth(token: bytes, targetname: Str, username: Str, credusage: IntText, ctxattr: IntText, authdata: bytes)
    | GetInfoReply(token: bytes, info: AgentInfo, os: Str, logonserverip: Str)
    | ListAgents(token: bytes)
    | ListAgentsReply(token: bytes, agentid: bytes, info: AgentInfo)
    | ServerSocketData(token: bytes, connectiontoken: bytes, data: bytes, clientip: Address, clientport: int)
    | Resolv(token: bytes, names: seq<Str>)
    | FileOpen(token: bytes, path: Str, mode: Str)
    | FileRead(token: bytes, size: int, offset: int)
    | FileData(token: bytes, data: bytes, offset: int)
    | FileEntry(token: bytes, root: Str, name: Str, isDir: bool, size: int, atime: int, mtime: int, ctime: int)
    | FileStat(token: bytes)

  datatype AgentInfo = AgentInfo(pid: IntText, username: Str, domain: Str, logonserver: Str,
                                 cpuarch: Str, hostname: Str, usersid: Str)

  /** The modelled part of the CMDType enumeration. */
  datatype CmdType =
    | TOk | TErr | TLog | TContinue | TConnect | TSd | TGetInfoReply | TKerberos | TListAgents | TAgentInfo
    | TSdSrv | TResolv | TFileOpen | TFileRead | TFileData | TFileEntry | TFileStat

  function Code(t: CmdType): (n: nat)
    ensures n < 0x1_0000
    ensures CmdTypeOf(n) == Some(t)
  {
    match t
    case TOk => 0
    case TErr => 1
    case TLog => 2
    case TContinue => 4
    case TConnect => 5
    case TSd => 7
    case TGetInfoReply => 9
    case TKerberos => 15
    case TListAgents => 100
    case TAgentInfo => 101
    case TSdSrv => 200
    case TResolv => 202
    case TFileOpen => 305
    case TFileRead => 306
    case TFileData => 307
    case TFileEntry => 308
    case TFileStat => 312
  }

  /** CMDType(dt): a number outside the enumeration raises. */
  function CmdTypeOf(n: nat): Option<CmdType> {
    match n
    case 0 => Some(TOk)
    case 1 => Some(TErr)
    case 2 => Some(TLog)
    case 4 => Some(TContinue)
    case 5 => Some(TConnect)
    case 7 => Some(TSd)
    case 9 => Some(TGetInfoReply)
    case 15 => Some(TKerberos)
    case 100 => Some(TListAgents)
    case 101 => Some(TAgentInfo)
    case 200 => Some(TSdSrv)
    case 202 => Some(TResolv)
    case 305 => Some(TFileOpen)
    case 306 => Some(TFileRead)
    case 307 => Some(TFileData)
    case 308 => Some(TFileEntry)
    case 312 => Some(TFileStat)
    case _ => None
  }

  function TypeOf(m: Message): CmdType {
    match m
    case OK(_, _) => TOk
    case Continue(_, _) => TContinue
    case Err(_, _, _) => TErr
    case Log(_, _, _) => TLog
    case Connect(_, _, _, _, _, _) => TConnect
    case SocketData(_, _) => TSd
    case KerberosAuth(_, _, _, _, _, _) => TKerberos
    case GetInfoReply(_, _, _, _) => TGetInfoReply
    case ListAgents(_) => TListAgents
    case ListAgentsReply(_, _, _) => TAgentInfo
    case ServerSocketData(_, _, _, _, _) => TSdSrv
    case Resolv(_, _) => TResolv
    case FileOpen(_, _, _) => TFileOpen
    case FileRead(_, _, _) => TFileRead
    case FileData(_, _, _) => TFileData
    case FileEntry(_, _, _, _, _, _, _, _) => TFileEntry
    case FileStat(_) => TFileStat
  }

  // ---- fields ----

  datatype Kind =
    | Raw(n: nat)                // n bytes as they are
    | Letters(n: nat)            // n bytes of UTF-8 text
    | UInt(w: nat)               // big-endian integer
    | Flag                       // one byte, zero or not
    | Blob                       // 4-byte length, bytes
    | Text(e: Encoding)          // 4-byte length in bytes, text
    | CharText                   // 4-byte length in characters, UTF-8 text
    | OptText                    // text, or nothing at all
    | Number                     // decimal text
    | Addr(byChars: bool)        // version byte and address; host names counted in characters or bytes
    | NameList                   // 4-byte count, that many texts
    | Remainder                  // everything that is left

  datatype Value =
    | VBytes(b: bytes) | VStr(s: Str) | VInt(i: int) | VBool(f: bool) | VOpt(o: Option<Str>)
    | VNumber(t: IntText) | VAddr(a: Address) | VNames(names: seq<Str>)

  function PrintBlob(b: bytes): Option<bytes> {
    var l :- ToBytes(|b|, 4);
    Some(l + b)
  }

  function ParseBlob(bs: bytes): (bytes, bytes) {
    var n := FromBigEndian(Head(bs, 4));
    (Head(Tail(bs, 4), n), Tail(Tail(bs, 4), n))
  }

  function PrintText(e: Encoding, s: Str): Option<bytes> {
    var b :- Encode(e, s);
    PrintBlob(b)
  }

  function PrintCharText(s: Str): Option<bytes> {
    var l :- ToBytes(|s|, 4);
    var b :- Encode(Utf8, s);
    Some(l + b)
  }

  function ParseText(e: Encoding, bs: bytes): Option<(Str, bytes)> {
    var p := ParseBlob(bs);
    var s :- Decode(e, p.0);
    Some((s, p.1))
  }

  /** str(v) for an integer or text field. */
  function NumberText(t: IntText): Str {
    match t
    case Num(n) => Decimal(n)
    case Txt(s) => s
  }

  function ParseNumber(bs: bytes): Option<(int, bytes)> {
    var p :- ParseText(Utf8, bs);
    var i :- ParseInt(p.0);
    Some((i, p.1))
  }

  function PrintAddress(byChars: bool, a: Address): Option<bytes> {
    match a
    case V4(p) => Some([4] + p)
    case V6(p) => Some([6] + p)
    case Host(s) =>
      var t :- if byChars then PrintCharText(s) else PrintText(Utf8, s);
      Some([255] + t)
  }

  /** ipaddress.ip_address on packed bytes accepts 4 or 16 of them. */
  function Packed(b: bytes): Option<Address> {
    if |b| == 4 then Some(V4(b)) else if |b| == 16 then Some(V6(b)) else None
  }

  function ParseAddress(bs: bytes): Option<(Address, bytes)> {
    var version, r := Head(bs, 1), Tail(bs, 1);
    if version == [4] then
      var a :- Packed(Head(r, 4));
      Some((a, Tail(r, 4)))
    else if version == [6] then
      var a :- Packed(Head(r, 16));
      Some((a, Tail(r, 16)))
    else if version == [255] then
      var t :- ParseText(Utf8, r);
      Some((Host(t.0), t.1))
    else None
  }

  function PrintNames(names: seq<Str>): Option<bytes> {
    if names == [] then Some([])
    else
      var h :- PrintText(Utf8, names[0]);
      var t :- PrintNames(names[1..]);
      Some(h + t)
  }

  function ParseNames(count: nat, bs: bytes): Option<(seq<Str>, bytes)> {
    if count == 0 then Some(([], bs))
    else
      var h :- ParseText(Utf8, bs);
      var t :- ParseNames(count - 1, h.1);
      Some(([h.0] + t.0, t.1))
  }

  function PrintNameList(names: seq<Str>): Option<bytes> {
    var c :- ToBytes(|names|, 4);
    var t :- PrintNames(names);
    Some(c + t)
  }

  function PrintField(k: Kind, v: Value): Option<bytes> {
    match (k, v)
    case (Raw(_), VBytes(b)) => Some(b)
    case (Letters(_), VStr(s)) => Encode(Utf8, s)
    case (UInt(w), VInt(i)) => ToBytes(i, w)
    case (Flag, VBool(f)) => Some(if f then [1] else [0])
    case (Blob, VBytes(b)) => PrintBlob(b)
    case (Text(e), VStr(s)) => PrintText(e, s)
    case (CharText, VStr(s)) => PrintCharText(s)
    case (OptText, VOpt(o)) => if o.Some? then PrintText(Utf8, o.value) else Some([])
    case (Number, VNumber(t)) => PrintText(Utf8, NumberText(t))
    case (Addr(byChars), VAddr(a)) => PrintAddress(byChars, a)
    case (NameList, VNames(names)) => PrintNameList(names)
    case (Remainder, VBytes(b)) => Some(b)
    case (_, _) => None
  }

  function ParseField(k: Kind, bs: bytes): Option<(Value, bytes)> {
    match k
    case Raw(n) => Some((VBytes(Head(bs, n)), Tail(bs, n)))
    case Letters(n) => var s :- Decode(Utf8, Head(bs, n)); Some((VStr(s), Tail(bs, n)))
    case UInt(w) => Some((VInt(FromBigEndian(Head(bs, w))), Tail(bs, w)))
    case Flag => if bs == [] then None else Some((VBool(bs[0] != 0), bs[1..]))
    case Blob => var p := ParseBlob(bs); Some((VBytes(p.0), p.1))
    case Text(e) => var p :- ParseText(e, bs); Some((VStr(p.0), p.1))
    case CharText => var p :- ParseText(Utf8, bs); Some((VStr(p.0), p.1))
    case OptText => var p :- ParseText(Utf8, bs); Some((VOpt(Some(p.0)), p.1))
    case Number => var p :- ParseNumber(bs); Some((VNumber(Num(p.0)), p.1))
    case Addr(_) => var p :- ParseAddress(bs); Some((VAddr(p.0), p.1))
    case NameList =>
      var p :- ParseNames(FromBigEndian(Head(bs, 4)), Tail(bs, 4));
      Some((VNames(p.0), p.1))
    case Remainder => Some((VBytes(bs), []))
  }

  /** The field can be read back: fixed widths are met, character counts count bytes, text is there. */
  predicate FieldFits(k: Kind, v: Value) {
    match (k, v)
    case (Raw(n), VBytes(b)) => |b| == n
    case (Letters(n), VStr(s)) => Encode(Utf8, s).Some? && |Encode(Utf8, s).value| == n
    case (CharText, VStr(s)) => IsAscii(s)
    case (OptText, VOpt(o)) => o.Some?
    case (Number, VNumber(t)) => t.Txt? ==> ParseInt(t.s).Some?
    case (Addr(byChars), VAddr(a)) => AddressFits(byChars, a)
    case (_, _) => true
  }

  predicate AddressFits(byChars: bool, a: Address) {
    match a
    case V4(p) => |p| == 4
    case V6(p) => |p| == 16
    case Host(s) => byChars ==> IsAscii(s)
  }

  function NormalNumber(t: IntText): IntText {
    if t.Txt? && ParseInt(t.s).Some? then Num(ParseInt(t.s).value) else t
  }

  /** Integers sent as text come back as integers; everything else comes back as it was. */
  function NormalValue(v: Value): Value {
    if v.VNumber? then VNumber(NormalNumber(v.t)) else v
  }

  // ---- round trips, field by field ----

  lemma LengthPrefix(n: nat, body: bytes)
    requires ToBytes(n, 4).Some?
    ensures var l := ToBytes(n, 4).value;
            |l| == 4 && Head(l + body, 4) == l && Tail(l + body, 4) == body && FromBigEndian(l) == n
  {
    BigEndianRoundTrip(n, 4);
    ReadBack(BigEndian(n, 4), body);
  }

  lemma BlobRoundTrip(b: bytes, rest: bytes)
    requires PrintBlob(b).Some?
    ensures ParseBlob(PrintBlob(b).value + rest) == (b, rest)
  {
    hide Head, Tail, FromBigEndian, BigEndian, Pow256, ToBytes;
    var l := ToBytes(|b|, 4).value;
    LengthPrefix(|b|, b + rest);
    assert l + b + rest == l + (b + rest);
    ReadBack(b, rest);
  }

  lemma TextFieldRoundTrip(e: Encoding, s: Str, rest: bytes)
    requires PrintText(e, s).Some?
    ensures ParseText(e, PrintText(e, s).value + rest) == Some((s, rest))
  {
    BlobRoundTrip(Encode(e, s).value, rest);
    TextRoundTrip(e, s);
  }

  /** A character count is a byte count exactly on ASCII text, and only then is the text read back. */
  lemma CharTextExact(s: Str, rest: bytes)
    requires PrintCharText(s).Some?
    ensures var r := ParseText(Utf8, PrintCharText(s).value + rest);
            if IsAscii(s) then r == Some((s, rest)) else r.Some? ==> r.value.0 != s
  {
    var b := Encode(Utf8, s).value;
    var l := ToBytes(|s|, 4).value;
    Utf8Length(s);
    assert l + b + rest == l + (b + rest);
    LengthPrefix(|s|, b + rest);
    if IsAscii(s) {
      ReadBack(b, rest);
      TextRoundTrip(Utf8, s);
    } else {
      var read := Head(b + rest, |s|);
      assert |read| == |s| < |b|;
      if Decode(Utf8, read) == Some(s) {
        TextCanonical(Utf8, read);
      }
    }
  }

  lemma NumberRoundTrip(t: IntText, rest: bytes)
    requires PrintText(Utf8, NumberText(t)).Some? && ParseInt(NumberText(t)).Some?
    ensures ParseNumber(PrintText(Utf8, NumberText(t)).value + rest)
         == Some((ParseInt(NumberText(t)).value, rest))
  {
    TextFieldRoundTrip(Utf8, NumberText(t), rest);
  }

  lemma AddressRoundTrip(byChars: bool, a: Address, rest: bytes)
    requires PrintAddress(byChars, a).Some? && AddressFits(byChars, a)
    ensures ParseAddress(PrintAddress(byChars, a).value + rest) == Some((a, rest))
  {
    var p := PrintAddress(byChars, a).value;
    var body := p[1..];
    assert p + rest == p[..1] + (body + rest);
    ReadBack(p[..1], body + rest);
    ReadBack(body, rest);
    if a.Host? {
      if byChars {
        CharTextExact(a.name, rest);
      } else {
        TextFieldRoundTrip(Utf8, a.name, rest);
      }
    }
  }

  lemma {:induction false} NamesRoundTrip(names: seq<Str>, rest: bytes)
    requires PrintNames(names).Some?
    ensures ParseNames(|names|, PrintNames(names).value + rest) == Some((names, rest))
  {
    hide ParseText, PrintText;
    if names == [] {
      assert [] + rest == rest;
    } else {
      var h, t := PrintText(Utf8, names[0]).value, PrintNames(names[1..]).value;
      assert ParseText(Utf8, h + (t + rest)) == Some((names[0], t + rest)) by {
        TextFieldRoundTrip(Utf8, names[0], t + rest);
      }
      NamesRoundTrip(names[1..], rest);
      NamesStep(|names|, h + (t + rest), names[0], t + rest, names[1..], rest);
      assert PrintNames(names).value + rest == h + (t + rest);
      assert names == [names[0]] + names[1..];
    }
  }

  lemma NamesStep(count: nat, bs: bytes, name: Str, mid: bytes, names: seq<Str>, rest: bytes)
    requires count > 0
    requires ParseText(Utf8, bs) == Some((name, mid)) && ParseNames(count - 1, mid) == Some((names, rest))
    ensures ParseNames(count, bs) == Some(([name] + names, rest))
  {}

  lemma NameListRoundTrip(names: seq<Str>, rest: bytes)
    requires PrintNameList(names).Some?
    ensures ParseField(NameList, PrintNameList(names).value + rest) == Some((VNames(names), rest))
  {
    hide ParseNames, PrintNames;
    var c, t := ToBytes(|names|, 4).value, PrintNames(names).value;
    var bs := PrintNameList(names).value + rest;
    assert bs == c + (t + rest);
    assert FromBigEndian(Head(bs, 4)) == |names| && Tail(bs, 4) == t + rest by {
      LengthPrefix(|names|, t + rest);
    }
    NamesRoundTrip(names, rest);
  }

  lemma FieldRoundTrip(k: Kind, v: Value, rest: bytes)
    requires PrintField(k, v).Some? && FieldFits(k, v)
    requires k.Remainder? ==> rest == []
    ensures ParseField(k, PrintField(k, v).value + rest) == Some((NormalValue(v), rest))
  {
    hide Encode, Decode, ParseInt, IsAscii, FromBigEndian, Head, Tail;
    hide PrintText, PrintCharText, PrintBlob, PrintAddress, PrintNameList;
    hide ParseText, ParseBlob, ParseNumber, ParseAddress, ParseNames;
    var p := PrintField(k, v).value;
    match (k, v)
    case (Raw(n), VBytes(b)) => ReadBack(b, rest);
    case (Letters(n), VStr(s)) => ReadBack(p, rest); TextRoundTrip(Utf8, s);
    case (UInt(w), VInt(i)) => ReadBack(p, rest); BigEndianRoundTrip(i, w);
    case (Flag, VBool(f)) => assert (p + rest)[1..] == rest;
    case (Blob, VBytes(b)) => BlobRoundTrip(b, rest);
    case (Text(e), VStr(s)) => TextFieldRoundTrip(e, s, rest);
    case (CharText, VStr(s)) => CharTextExact(s, rest);
    case (OptText, VOpt(o)) => TextFieldRoundTrip(Utf8, o.value, rest);
    case (Number, VNumber(t)) =>
      if t.Num? { DecimalRoundTrip(t.n); }
      NumberRoundTrip(t, rest);
    case (Addr(byChars), VAddr(a)) => AddressRoundTrip(byChars, a, rest);
    case (NameList, VNames(names)) => NameListRoundTrip(names, rest);
    case (Remainder, VBytes(b)) => assert p + rest == b;
  }

  // ---- formats ----

  datatype Format = End | Then(head: Kind, tail: Format)
  datatype Values = Nil | Cons(head: Value, tail: Values)

  function Print(f: Format, vs: Values): Option<bytes>
    decreases f
  {
    match (f, vs)
    case (End, Nil) => Some([])
    case (Then(k, g), Cons(v, ws)) =>
      var h :- PrintField(k, v);
      var t :- Print(g, ws);
      Some(h + t)
    case (_, _) => None
  }

  function Parse(f: Format, bs: bytes): Option<(Values, bytes)>
    decreases f
  {
    match f
    case End => Some((Nil, bs))
    case Then(k, g) =>
      var h :- ParseField(k, bs);
      var t :- Parse(g, h.1);
      Some((Cons(h.0, t.0), t.1))
  }

  predicate Fits(f: Format, vs: Values)
    decreases f
  {
    match (f, vs)
    case (Then(k, g), Cons(v, ws)) => FieldFits(k, v) && Fits(g, ws)
    case (_, _) => true
  }

  function NormalValues(vs: Values): Values {
    match vs
    case Nil => Nil
    case Cons(v, ws) => Cons(NormalValue(v), NormalValues(ws))
  }

  /** A format that says where its last field ends. */
  predicate SelfDelimiting(f: Format) {
    f.Then? ==> !f.head.Remainder? && SelfDelimiting(f.tail)
  }

  /** Only the last field may take the rest of the buffer. */
  predicate Placed(f: Format) {
    f.Then? ==> Placed(f.tail) && (f.head.Remainder? ==> f.tail.End?)
  }

  lemma {:induction false} FormatRoundTrip(f: Format, vs: Values, rest: bytes)
    requires Print(f, vs).Some? && Fits(f, vs) && Placed(f)
    requires SelfDelimiting(f) || rest == []
    ensures Parse(f, Print(f, vs).value + rest) == Some((NormalValues(vs), rest))
  {
    hide PrintField, ParseField, FieldFits, NormalValue;
    match (f, vs)
    case (End, Nil) => assert [] + rest == rest;
    case (Then(k, g), Cons(v, ws)) =>
      var h, t := PrintField(k, v).value, Print(g, ws).value;
      if k.Remainder? {
        assert t + rest == [];
      }
      FieldRoundTrip(k, v, t + rest);
      FormatRoundTrip(g, ws, rest);
      assert Print(f, vs).value + rest == h + (t + rest);
      FormatStep(k, g, h + (t + rest), NormalValue(v), t + rest, NormalValues(ws), rest);
  }

  lemma FormatStep(k: Kind, g: Format, bs: bytes, v: Value, mid: bytes, vs: Values, rest: bytes)
    requires ParseField(k, bs) == Some((v, mid)) && Parse(g, mid) == Some((vs, rest))
    ensures Parse(Then(k, g), bs) == Some((Cons(v, vs), rest))
  {}

  // ---- the formats of the message types ----

  function InfoFormat(last: Format): Format {
    Then(Number, Then(Text(Utf16LE), Then(Text(Utf16LE), Then(Text(Utf16LE),
      Then(Text(Utf8), Then(Text(Utf16LE), Then(Text(Utf8), last)))))))
  }

  /** Everything after the 16-byte token that opens every body. */
  function BodyFormat(t: CmdType): Format {
    match t
    case TOk => Then(OptText, End)
    case TContinue => Then(OptText, End)
    case TErr => Then(CharText, Then(CharText, End))
    case TLog => Then(UInt(2), Then(CharText, End))
    case TConnect => Then(Letters(3), Then(Flag, Then(Addr(true), Then(UInt(2), Then(UInt(1), End)))))
    case TSd => Then(Remainder, End)
    case TKerberos => Then(Text(Utf8), Then(Number, Then(Number, Then(Text(Utf8), Then(Blob, End)))))
    case TGetInfoReply => InfoFormat(Then(Text(Utf8), Then(Text(Utf8), End)))
    case TListAgents => End
    case TAgentInfo => Then(Blob, InfoFormat(End))
    case TSdSrv => Then(Raw(16), Then(Addr(false), Then(UInt(2), Then(Remainder, End))))
    case TResolv => Then(NameList, End)
    case TFileOpen => Then(Text(Utf8), Then(Text(Utf8), End))
    case TFileRead => Then(UInt(4), Then(UInt(8), End))
    case TFileData => Then(UInt(8), Then(Blob, End))
    case TFileEntry => Then(Text(Utf8), Then(Text(Utf8), Then(Flag,
        Then(UInt(8), Then(UInt(8), Then(UInt(8), Then(UInt(8), End)))))))
    case TFileStat => End
  }

  function FormatOf(t: CmdType): Format {
    Then(Raw(16), BodyFormat(t))
  }

  function InfoFields(i: AgentInfo, last: Values): Values {
    Cons(VNumber(i.pid), Cons(VStr(i.username), Cons(VStr(i.domain), Cons(VStr(i.logonserver),
      Cons(VStr(i.cpuarch), Cons(VStr(i.hostname), Cons(VStr(i.usersid), last)))))))
  }

  function BodyFields(m: Message): Values {
    match m
    case OK(_, msg) => Cons(VOpt(msg), Nil)
    case Continue(_, msg) => Cons(VOpt(msg), Nil)
    case Err(_, reason, extra) => Cons(VStr(reason), Cons(VStr(extra), Nil))
    case Log(_, level, text) => Cons(VInt(level), Cons(VStr(text), Nil))
    case Connect(_, protocol, ip, port, bind, bindtype) =>
      Cons(VStr(protocol), Cons(VBool(bind), Cons(VAddr(ip), Cons(VInt(port), Cons(VInt(bindtype), Nil)))))
    case SocketData(_, data) => Cons(VBytes(data), Nil)
    case KerberosAuth(_, targetname, username, credusage, ctxattr, authdata) =>
      Cons(VStr(username), Cons(VNumber(credusage), Cons(VNumber(ctxattr),
          Cons(VStr(targetname), Cons(VBytes(authdata), Nil)))))
    case GetInfoReply(_, info, os, ip) => InfoFields(info, Cons(VStr(os), Cons(VStr(ip), Nil)))
    case ListAgents(_) => Nil
    case ListAgentsReply(_, agentid, info) => Cons(VBytes(agentid), InfoFields(info, Nil))
    case ServerSocketData(_, connectiontoken, data, clientip, clientport) =>
      Cons(VBytes(connectiontoken), Cons(VAddr(clientip), Cons(VInt(clientport), Cons(VBytes(data), Nil))))
    case Resolv(_, names) => Cons(VNames(names), Nil)
    case FileOpen(_, path, mode) => Cons(VStr(path), Cons(VStr(mode), Nil))
    case FileRead(_, size, offset) => Cons(VInt(size), Cons(VInt(offset), Nil))
    case FileData(_, data, offset) => Cons(VInt(offset), Cons(VBytes(data), Nil))
    case FileEntry(_, root, name, isDir, size, atime, mtime, ctime) =>
      Cons(VStr(root), Cons(VStr(name), Cons(VBool(isDir), Cons(VInt(size),
          Cons(VInt(atime), Cons(VInt(mtime), Cons(VInt(ctime), Nil)))))))
    case FileStat(_) => Nil
  }

  function FieldsOf(m: Message): Values {
    Cons(VBytes(m.token), BodyFields(m))
  }

  /** The message a list of field values stands for; None when the values do not have its shape. */
  function Build(t: CmdType, token: bytes, vs: Values): (r: Option<Message>)
    ensures r.Some? ==> TypeOf(r.value) == t && r.value.token == token && BodyFields(r.value) == vs
  {
    match (t, vs)
    case (TOk, Cons(VOpt(msg), Nil)) => Some(OK(token, msg))
    case (TContinue, Cons(VOpt(msg), Nil)) => Some(Continue(token, msg))
    case (TErr, Cons(VStr(reason), Cons(VStr(extra), Nil))) => Some(Err(token, reason, extra))
    case (TLog, Cons(VInt(level), Cons(VStr(text), Nil))) => Some(Log(token, level, text))
    case (TConnect, Cons(VStr(protocol), Cons(VBool(bind), Cons(VAddr(ip),
        Cons(VInt(port), Cons(VInt(bindtype), Nil)))))) =>
      Some(Connect(token, protocol, ip, port, bind, bindtype))
    case (TSd, Cons(VBytes(data), Nil)) => Some(SocketData(token, data))
    case (TKerberos, Cons(VStr(username), Cons(VNumber(credusage),
        Cons(VNumber(ctxattr), Cons(VStr(targetname), Cons(VBytes(authdata), Nil)))))) =>
      Some(KerberosAuth(token, targetname, username, credusage, ctxattr, authdata))
    case (TGetInfoReply, Cons(VNumber(pid), Cons(VStr(username), Cons(VStr(domain), Cons(VStr(logonserver),
            Cons(VStr(cpuarch), Cons(VStr(hostname), Cons(VStr(usersid), Cons(VStr(os), Cons(VStr(ip), Nil)))))))))) =>
      Some(GetInfoReply(token, AgentInfo(pid, username, domain, logonserver, cpuarch, hostname, usersid), os, ip))
    case (TListAgents, Nil) => Some(ListAgents(token))
    case (TAgentInfo, Cons(VBytes(agentid), Cons(VNumber(pid), Cons(VStr(username), Cons(VStr(domain),
            Cons(VStr(logonserver), Cons(VStr(cpuarch), Cons(VStr(hostname), Cons(VStr(usersid), Nil))))))))) =>
      Some(ListAgentsReply(token, agentid, AgentInfo(pid, username, domain, logonserver, cpuarch, hostname, usersid)))
    case (TSdSrv, Cons(VBytes(connectiontoken), Cons(VAddr(clientip),
        Cons(VInt(clientport), Cons(VBytes(data), Nil))))) =>
      Some(ServerSocketData(token, connectiontoken, data, clientip, clientport))
    case (TResolv, Cons(VNames(names), Nil)) => Some(Resolv(token, names))
    case (TFileOpen, Cons(VStr(path), Cons(VStr(mode), Nil))) => Some(FileOpen(token, path, mode))
    case (TFileRead, Cons(VInt(size), Cons(VInt(offset), Nil))) => Some(FileRead(token, size, offset))
    case (TFileData, Cons(VInt(offset), Cons(VBytes(data), Nil))) => Some(FileData(token, data, offset))
    case (TFileEntry, Cons(VStr(root), Cons(VStr(name), Cons(VBool(isDir),
        Cons(VInt(size), Cons(VInt(atime), Cons(VInt(mtime), Cons(VInt(ctime), Nil)))))))) =>
      Some(FileEntry(token, root, name, isDir, size, atime, mtime, ctime))
    case (TFileStat, Nil) => Some(FileStat(token))
    case (_, _) => None
  }

  /** The field values are the message and nothing else is. */
  lemma BuildExact(m: Message, vs: Values)
    ensures Build(TypeOf(m), m.token, vs) == Some(m) <==> vs == BodyFields(m)
  {
    hide ParseInt;
  }

  // ---- frames ----

  /** to_data: the type number, then the fields. */
  function ToData(m: Message): Option<bytes> {
    var b :- Print(FormatOf(TypeOf(m)), FieldsOf(m));
    Some(BigEndian(Code(TypeOf(m)), 2) + b)
  }

  /** CMD.to_bytes: the length counts its own four bytes. */
  function EncodeFrame(m: Message): Option<bytes> {
    var d :- ToData(m);
    var l :- ToBytes(|d| + 4, 4);
    Some(l + d)
  }

  /** The body decoder of a type, and what it leaves in the buffer. */
  function DecodeBody(t: CmdType, bs: bytes): Option<(Message, bytes)> {
    var token, r := Head(bs, 16), Tail(bs, 16);
    var p :- Parse(BodyFormat(t), r);
    var m :- Build(t, token, p.0);
    Some((m, p.1))
  }

  /** CMD.from_buffer: the length is read and not used. */
  function DecodeFrame(bs: bytes): Option<(Message, bytes)> {
    var t :- CmdTypeOf(FromBigEndian(Head(Tail(bs, 4), 2)));
    DecodeBody(t, Tail(Tail(bs, 4), 2))
  }

  /** CMD.from_bytes: what is left after the message is dropped. */
  function DecodeBytes(bs: bytes): Option<Message> {
    var p :- DecodeFrame(bs);
    Some(p.0)
  }

  /** OPCMD.to_bytes: an agent id and a command for that agent. */
  function EncodeOp(agentid: bytes, m: Message): Option<bytes> {
    var c :- EncodeFrame(m);
    var l :- ToBytes(|agentid + c|, 4);
    Some(l + (agentid + c))
  }
}
