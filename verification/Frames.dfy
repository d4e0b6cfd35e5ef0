/** What the wire format promises about whole messages, frames and streams of frames. */
module Frames {
  import opened Bytes
  import opened Text
  import opened Wire

  /** 16-byte token and readable fields; whether the numbers are in range is EncodeFrame(m).Some?. */
  predicate WellFormed(m: Message) {
    |m.token| == 16 && Fits(BodyFormat(TypeOf(m)), BodyFields(m))
  }

  function NormalInfo(i: AgentInfo): AgentInfo {
    i.(pid := NormalNumber(i.pid))
  }

  /** The message as the receiver sees it: integers sent as text are integers again. */
  function Normal(m: Message): Message {
    match m
    case KerberosAuth(_, _, _, credusage, ctxattr, _) =>
      m.(credusage := NormalNumber(credusage), ctxattr := NormalNumber(ctxattr))
    case GetInfoReply(token, info, os, ip) => GetInfoReply(token, NormalInfo(info), os, ip)
    case ListAgentsReply(token, agentid, info) => ListAgentsReply(token, agentid, NormalInfo(info))
    case _ => m
  }

  lemma FieldsOfNormal(m: Message)
    ensures TypeOf(Normal(m)) == TypeOf(m)
    ensures BodyFields(Normal(m)) == NormalValues(BodyFields(m))
    ensures Build(TypeOf(m), m.token, BodyFields(Normal(m))) == Some(Normal(m))
  {
    hide NormalNumber, ParseInt;
    NormalCons();
  }

  lemma NormalCons()
    ensures forall v, ws {:trigger NormalValues(Cons(v, ws))} ::
              NormalValues(Cons(v, ws)) == Cons(NormalValue(v), NormalValues(ws))
  {}

  lemma FormatsArePlaced(t: CmdType)
    ensures Placed(BodyFormat(t))
    ensures SelfDelimiting(BodyFormat(t)) <==> !(t.TSd? || t.TSdSrv?)
  {
    match t
    case TGetInfoReply =>
    case TAgentInfo =>
    case _ =>
  }

  /** A frame is its header, the token and the printed body. */
  lemma FrameParts(m: Message) returns (l: bytes, t: bytes, body: bytes)
    requires EncodeFrame(m).Some?
    ensures |l| == 4 && |t| == 2 && FromBigEndian(t) == Code(TypeOf(m))
    ensures Print(BodyFormat(TypeOf(m)), BodyFields(m)) == Some(body)
    ensures EncodeFrame(m).value == l + t + m.token + body
    ensures FromBigEndian(l) == |EncodeFrame(m).value|
  {
    hide PrintField, BodyFormat, BodyFields, Code, TypeOf;
    WidthBounds();
    var f, vs := BodyFormat(TypeOf(m)), BodyFields(m);
    assert PrintField(Raw(16), VBytes(m.token)) == Some(m.token) by { TokenField(m.token); }
    assert Print(Then(Raw(16), f), Cons(VBytes(m.token), vs)).Some?;
    body := Print(f, vs).value;
    t := BigEndian(Code(TypeOf(m)), 2);
    l := BigEndian(|t + (m.token + body)| + 4, 4);
    BigEndianRoundTrip(Code(TypeOf(m)), 2);
    BigEndianRoundTrip(|t + (m.token + body)| + 4, 4);
    assert l + (t + (m.token + body)) == l + t + m.token + body;
  }

  lemma TokenField(token: bytes)
    ensures PrintField(Raw(16), VBytes(token)) == Some(token)
  {}

  /** What the decoder does after the header it skips and the type number it reads. */
  lemma DecodeAfterHeader(l: bytes, t: bytes, r: bytes)
    requires |l| == 4 && |t| == 2
    ensures DecodeFrame(l + t + r)
         == match CmdTypeOf(FromBigEndian(t)) case None => None case Some(ct) => DecodeBody(ct, r)
  {
    hide CmdTypeOf, DecodeBody, FromBigEndian;
    ReadBack(l, t + r);
    ReadBack(t, r);
    assert l + t + r == l + (t + r);
  }

  /**
   Codec round trip, with anything behind the frame when the type says where it ends: the decoder
   returns the normal form of the message and leaves exactly what followed.
   */
  lemma RoundTrip(m: Message, rest: bytes)
    requires WellFormed(m) && EncodeFrame(m).Some?
    requires SelfDelimiting(BodyFormat(TypeOf(m))) || rest == []
    ensures DecodeFrame(EncodeFrame(m).value + rest) == Some((Normal(m), rest))
  {
    hide BodyFormat, BodyFields, Normal, Parse, Print, Fits, EncodeFrame, CmdTypeOf, Build, Code, TypeOf, NormalValues;
    var ct := TypeOf(m);
    var l, t, body := FrameParts(m);
    FormatsArePlaced(ct);
    FormatRoundTrip(BodyFormat(ct), BodyFields(m), rest);
    FieldsOfNormal(m);
    assert CmdTypeOf(Code(ct)) == Some(ct);
    var r := m.token + (body + rest);
    assert EncodeFrame(m).value + rest == l + t + r;
    DecodeAfterHeader(l, t, r);
    ReadBack(m.token, body + rest);
  }

  lemma BytesRoundTrip(m: Message)
    requires WellFormed(m) && EncodeFrame(m).Some?
    ensures DecodeBytes(EncodeFrame(m).value) == Some(Normal(m))
  {
    RoundTrip(m, []);
    assert EncodeFrame(m).value + [] == EncodeFrame(m).value;
  }

  // ---- the bytes of each type ----

  lemma TwoBytes(n: nat)
    requires n < 0x1_0000
    ensures BigEndian(n, 2) == [(n / 256) as byte, (n % 256) as byte]
  {
    assert BigEndian(n / 256, 1) == BigEndian(n / 256 / 256, 0) + [(n / 256 % 256) as byte];
    assert n / 256 < 256;
  }

  lemma FourBytes(b: bytes)
    requires |b| == 4
    ensures FromBigEndian(b) == 0x100_0000 * b[0] as nat + 0x1_0000 * b[1] as nat + 0x100 * b[2] as nat + b[3] as nat
  {
    assert b[..3][..2] == b[..2] && b[..2][..1] == b[..1] && b[..1][..0] == [];
    assert FromBigEndian(b[..1]) == b[0] as nat;
    assert FromBigEndian(b[..2]) == 256 * FromBigEndian(b[..1]) + b[1] as nat;
    assert FromBigEndian(b[..3]) == 256 * FromBigEndian(b[..2]) + b[2] as nat;
  }

  /** The first six bytes of a frame: its length, most significant byte first, and the number of its type. */
  lemma HeaderBytes(m: Message)
    requires EncodeFrame(m).Some?
    ensures var f := EncodeFrame(m).value;
            && |f| >= 6
            && |f| == 0x100_0000 * f[0] as nat + 0x1_0000 * f[1] as nat + 0x100 * f[2] as nat + f[3] as nat
            && f[4..6] == match m
                          case OK(_, _) => [0, 0]
                          case Err(_, _, _) => [0, 1]
                          case Log(_, _, _) => [0, 2]
                          case Continue(_, _) => [0, 4]
                          case Connect(_, _, _, _, _, _) => [0, 5]
                          case SocketData(_, _) => [0, 7]
                          case GetInfoReply(_, _, _, _) => [0, 9]
                          case KerberosAuth(_, _, _, _, _, _) => [0, 15]
                          case ListAgents(_) => [0, 100]
                          case ListAgentsReply(_, _, _) => [0, 101]
                          case ServerSocketData(_, _, _, _, _) => [0, 200]
                          case Resolv(_, _) => [0, 202]
                          case FileOpen(_, _, _) => [1, 49]
                          case FileRead(_, _, _) => [1, 50]
                          case FileData(_, _, _) => [1, 51]
                          case FileEntry(_, _, _, _, _, _, _, _) => [1, 52]
                          case FileStat(_) => [1, 56]
  {
    hide BigEndian, FromBigEndian, Print, FormatOf, FieldsOf;
    WidthBounds();
    var f, d := EncodeFrame(m).value, ToData(m).value;
    BigEndianRoundTrip(|d| + 4, 4);
    TwoBytes(Code(TypeOf(m)));
    FourBytes(f[..4]);
    assert f[..4] == BigEndian(|d| + 4, 4) && f[4..6] == d[..2];
  }

  /** Text in its encoding, and a number in w bytes. */
  function Coded(e: Encoding, s: Str): bytes {
    match Encode(e, s)
    case None => []
    case Some(b) => b
  }

  function Wide(n: int, w: nat): bytes {
    match ToBytes(n, w)
    case None => []
    case Some(b) => b
  }

  /** Bytes behind their length, and UTF-8 text behind the number of its characters. */
  function Sized(b: bytes): bytes {
    Wide(|b|, 4) + b
  }

  function Charred(s: Str): bytes {
    Wide(|s|, 4) + Coded(Utf8, s)
  }

  function AddressLayout(byChars: bool, a: Address): bytes {
    match a
    case V4(p) => [4] + p
    case V6(p) => [6] + p
    case Host(s) => [255] + if byChars then Charred(s) else Sized(Coded(Utf8, s))
  }

  function NamesLayout(names: seq<Str>): bytes {
    if names == [] then [] else Sized(Coded(Utf8, names[0])) + NamesLayout(names[1..])
  }

  function InfoLayout(i: AgentInfo, rest: bytes): bytes {
    Sized(Coded(Utf8, NumberText(i.pid))) + (Sized(Coded(Utf16LE, i.username)) + (Sized(Coded(Utf16LE, i.domain)) +
    (Sized(Coded(Utf16LE, i.logonserver)) + (Sized(Coded(Utf8, i.cpuarch)) + (Sized(Coded(Utf16LE, i.hostname)) +
    (Sized(Coded(Utf8, i.usersid)) + rest))))))
  }

  /** What follows the token of a message, written out type by type. */
  function Layout(m: Message): bytes {
    match m
    case OK(_, msg) => if msg.Some? then Sized(Coded(Utf8, msg.value)) else []
    case Continue(_, msg) => if msg.Some? then Sized(Coded(Utf8, msg.value)) else []
    case Err(_, reason, extra) => Charred(reason) + Charred(extra)
    case Log(_, level, text) => Wide(level, 2) + Charred(text)
    case Connect(_, protocol, ip, port, bind, bindtype) =>
      Coded(Utf8, protocol) + ([if bind then 1 else 0] +
      (AddressLayout(true, ip) + (Wide(port, 2) + Wide(bindtype, 1))))
    case SocketData(_, data) => data
    case KerberosAuth(_, targetname, username, credusage, ctxattr, authdata) =>
      Sized(Coded(Utf8, username)) + (Sized(Coded(Utf8, NumberText(credusage))) +
      (Sized(Coded(Utf8, NumberText(ctxattr))) + (Sized(Coded(Utf8, targetname)) + Sized(authdata))))
    case GetInfoReply(_, info, os, ip) => InfoLayout(info, Sized(Coded(Utf8, os)) + Sized(Coded(Utf8, ip)))
    case ListAgents(_) => []
    case ListAgentsReply(_, agentid, info) => Sized(agentid) + InfoLayout(info, [])
    case ServerSocketData(_, connectiontoken, data, clientip, clientport) =>
      connectiontoken + (AddressLayout(false, clientip) + (Wide(clientport, 2) + data))
    case Resolv(_, names) => Wide(|names|, 4) + NamesLayout(names)
    case FileOpen(_, path, mode) => Sized(Coded(Utf8, path)) + Sized(Coded(Utf8, mode))
    case FileRead(_, size, offset) => Wide(size, 4) + Wide(offset, 8)
    case FileData(_, data, offset) => Wide(offset, 8) + Sized(data)
    case FileEntry(_, root, name, isDir, size, atime, mtime, ctime) =>
      Sized(Coded(Utf8, root)) + (Sized(Coded(Utf8, name)) + ([if isDir then 1 else 0] +
      (Wide(size, 8) + (Wide(atime, 8) + (Wide(mtime, 8) + Wide(ctime, 8))))))
    case FileStat(_) => []
  }

  function FieldLayout(k: Kind, v: Value): bytes {
    match (k, v)
    case (Raw(_), VBytes(b)) => b
    case (Letters(_), VStr(s)) => Coded(Utf8, s)
    case (UInt(w), VInt(i)) => Wide(i, w)
    case (Flag, VBool(f)) => [if f then 1 else 0]
    case (Blob, VBytes(b)) => Sized(b)
    case (Text(e), VStr(s)) => Sized(Coded(e, s))
    case (CharText, VStr(s)) => Charred(s)
    case (OptText, VOpt(o)) => if o.Some? then Sized(Coded(Utf8, o.value)) else []
    case (Number, VNumber(t)) => Sized(Coded(Utf8, NumberText(t)))
    case (Addr(byChars), VAddr(a)) => AddressLayout(byChars, a)
    case (NameList, VNames(names)) => Wide(|names|, 4) + NamesLayout(names)
    case (Remainder, VBytes(b)) => b
    case (_, _) => []
  }

  lemma {:induction false} NamesShow(names: seq<Str>)
    requires PrintNames(names).Some?
    ensures PrintNames(names).value == NamesLayout(names)
  {
    hide ToBytes, Encode;
    if names != [] {
      NamesShow(names[1..]);
    }
  }

  lemma FieldShows(k: Kind, v: Value)
    requires PrintField(k, v).Some?
    ensures PrintField(k, v).value == FieldLayout(k, v)
  {
    hide ToBytes, Encode, NumberText, PrintNames, NamesLayout;
    if k.NameList? {
      NamesShow(v.names);
    }
  }

  /** The fields of a format one after the other. */
  function Shown(f: Format, vs: Values): bytes
    decreases f
  {
    match (f, vs)
    case (Then(k, g), Cons(v, ws)) => FieldLayout(k, v) + Shown(g, ws)
    case (_, _) => []
  }

  lemma {:induction false} PrintShows(f: Format, vs: Values)
    requires Print(f, vs).Some?
    ensures Print(f, vs).value == Shown(f, vs)
  {
    hide PrintField, FieldLayout;
    match (f, vs)
    case (Then(k, g), Cons(v, ws)) =>
      FieldShows(k, v);
      PrintShows(g, ws);
    case (_, _) =>
  }

  lemma ShownSteps()
    ensures forall k, v {:trigger Shown(Then(k, End), Cons(v, Nil))} ::
              Shown(Then(k, End), Cons(v, Nil)) == FieldLayout(k, v)
    ensures forall k, l, v, w {:trigger Shown(Then(k, Then(l, End)), Cons(v, Cons(w, Nil)))} ::
              Shown(Then(k, Then(l, End)), Cons(v, Cons(w, Nil))) == FieldLayout(k, v) + FieldLayout(l, w)
    ensures Shown(End, Nil) == []
  {
    hide FieldLayout;
    assert Shown(End, Nil) == [];
  }

  lemma ShownHead(f: Format, vs: Values)
    requires f.Then? && vs.Cons?
    ensures Shown(f, vs) == FieldLayout(f.head, vs.head) + Shown(f.tail, vs.tail)
  {
    hide FieldLayout;
  }

  lemma ShownThree(f: Format, vs: Values)
    requires f.Then? && f.tail.Then? && f.tail.tail.Then? && vs.Cons? && vs.tail.Cons? && vs.tail.tail.Cons?
    ensures Shown(f, vs)
         == FieldLayout(f.head, vs.head) + (FieldLayout(f.tail.head, vs.tail.head) +
            (FieldLayout(f.tail.tail.head, vs.tail.tail.head) + Shown(f.tail.tail.tail, vs.tail.tail.tail)))
  {
    hide FieldLayout, Shown;
    ShownHead(f, vs);
    ShownHead(f.tail, vs.tail);
    ShownHead(f.tail.tail, vs.tail.tail);
  }

  lemma InfoShown(i: AgentInfo, f: Format, vs: Values)
    ensures Shown(InfoFormat(f), InfoFields(i, vs)) == InfoLayout(i, Shown(f, vs))
  {
    hide Shown, Sized, Coded, NumberText;
    var g, ws := InfoFormat(f), InfoFields(i, vs);
    ShownThree(g, ws);
    ShownThree(g.tail.tail.tail, ws.tail.tail.tail);
    ShownHead(Then(Text(Utf8), f), Cons(VStr(i.usersid), vs));
  }

  lemma ConnectShown(m: Message)
    requires m.Connect?
    ensures Shown(BodyFormat(TConnect), BodyFields(m)) == Layout(m)
  {
    hide Shown, Sized, Coded, Wide, Charred, NumberText, AddressLayout, NamesLayout, InfoFormat, InfoFields, InfoLayout;
    ShownThree(BodyFormat(TConnect), BodyFields(m));
    ShownSteps();
  }

  lemma KerberosAuthShown(m: Message)
    requires m.KerberosAuth?
    ensures Shown(BodyFormat(TKerberos), BodyFields(m)) == Layout(m)
  {
    hide Shown, Sized, Coded, Wide, Charred, NumberText, AddressLayout, NamesLayout, InfoFormat, InfoFields, InfoLayout;
    ShownThree(BodyFormat(TKerberos), BodyFields(m));
    ShownSteps();
  }

  lemma ServerSocketDataShown(m: Message)
    requires m.ServerSocketData?
    ensures Shown(BodyFormat(TSdSrv), BodyFields(m)) == Layout(m)
  {
    hide Shown, Sized, Coded, Wide, Charred, NumberText, AddressLayout, NamesLayout, InfoFormat, InfoFields, InfoLayout;
    ShownThree(BodyFormat(TSdSrv), BodyFields(m));
    ShownSteps();
  }

  lemma FileEntryShown(m: Message)
    requires m.FileEntry?
    ensures Shown(BodyFormat(TFileEntry), BodyFields(m)) == Layout(m)
  {
    hide Shown, Sized, Coded, Wide, Charred, NumberText, AddressLayout, NamesLayout, InfoFormat, InfoFields, InfoLayout;
    var f, vs := BodyFormat(TFileEntry), BodyFields(m);
    ShownThree(f, vs);
    ShownThree(f.tail.tail.tail, vs.tail.tail.tail);
    ShownSteps();
  }

  lemma InfosShown(m: Message)
    requires m.GetInfoReply? || m.ListAgentsReply?
    ensures Shown(BodyFormat(TypeOf(m)), BodyFields(m)) == Layout(m)
  {
    hide Shown, Sized, Coded, Wide, Charred, NumberText, AddressLayout, NamesLayout, InfoFormat, InfoFields, InfoLayout;
    ShownSteps();
    if m.GetInfoReply? {
      InfoShown(m.info, Then(Text(Utf8), Then(Text(Utf8), End)), Cons(VStr(m.os), Cons(VStr(m.logonserverip), Nil)));
    } else {
      ShownHead(Then(Blob, InfoFormat(End)), Cons(VBytes(m.agentid), InfoFields(m.info, Nil)));
      InfoShown(m.info, End, Nil);
    }
  }

  lemma BodyShown(m: Message)
    ensures Shown(BodyFormat(TypeOf(m)), BodyFields(m)) == Layout(m)
  {
    hide Shown, Sized, Coded, Wide, Charred, NumberText, AddressLayout, NamesLayout, InfoFormat, InfoFields, InfoLayout;
    if m.GetInfoReply? || m.ListAgentsReply? {
      InfosShown(m);
    } else if m.Connect? {
      ConnectShown(m);
    } else if m.KerberosAuth? {
      KerberosAuthShown(m);
    } else if m.ServerSocketData? {
      ServerSocketDataShown(m);
    } else if m.FileEntry? {
      FileEntryShown(m);
    } else {
      ShownSteps();
    }
  }

  /** A frame is its header, its token and the layout of its type. */
  lemma FrameLayout(m: Message)
    requires EncodeFrame(m).Some?
    ensures EncodeFrame(m).value == EncodeFrame(m).value[..6] + m.token + Layout(m)
  {
    hide EncodeFrame, Print, Layout, BodyFormat, BodyFields, Shown, FromBigEndian;
    var l, t, body := FrameParts(m);
    PrintShows(BodyFormat(TypeOf(m)), BodyFields(m));
    BodyShown(m);
    assert (l + t + m.token + body)[..6] == l + t;
  }

  // ---- re-encoding ----

  predicate CanonicalNumber(t: IntText) {
    NumberText(NormalNumber(t)) == NumberText(t)
  }

  /** Every integer sent as text was written the way str() writes it. */
  predicate Canonical(vs: Values) {
    vs.Cons? ==> (vs.head.VNumber? ==> CanonicalNumber(vs.head.t)) && Canonical(vs.tail)
  }

  /** The same bytes read with integers left as text. */
  function AsTextFormat(f: Format): Format {
    match f
    case End => End
    case Then(k, g) => Then(if k.Number? then Text(Utf8) else k, AsTextFormat(g))
  }

  function AsTextValue(v: Value): Value {
    if v.VNumber? then VStr(NumberText(v.t)) else v
  }

  function AsTextValues(vs: Values): Values {
    match vs
    case Nil => Nil
    case Cons(v, ws) => Cons(AsTextValue(v), AsTextValues(ws))
  }

  lemma {:induction false} AsText(f: Format, vs: Values)
    requires Print(f, vs).Some? && Placed(f) && Fits(f, vs)
    ensures Placed(AsTextFormat(f))
    ensures Print(AsTextFormat(f), AsTextValues(vs)) == Print(f, vs)
    ensures Fits(AsTextFormat(f), AsTextValues(vs))
    ensures NormalValues(AsTextValues(vs)) == AsTextValues(vs)
  {
    match (f, vs)
    case (End, Nil) =>
    case (Then(k, g), Cons(v, ws)) =>
      AsText(g, ws);
      AsTextField(k, v);
  }

  lemma AsTextField(k: Kind, v: Value)
    requires PrintField(k, v).Some? && FieldFits(k, v)
    ensures var k' := if k.Number? then Text(Utf8) else k;
            var v' := AsTextValue(v);
            PrintField(k', v') == PrintField(k, v) && FieldFits(k', v') && NormalValue(v') == v'
  {}

  /** Two lists of fields that print the same bytes agree wherever text is compared with text. */
  lemma PrintInjective(f: Format, vs: Values, ws: Values)
    requires Print(f, vs).Some? && Print(f, vs) == Print(f, ws)
    requires Placed(f) && Fits(f, vs) && Fits(f, ws)
    ensures AsTextValues(vs) == AsTextValues(ws)
  {
    hide Print, Fits, Placed, AsTextFormat, AsTextValues;
    AsText(f, vs);
    AsText(f, ws);
    FormatRoundTrip(AsTextFormat(f), AsTextValues(vs), []);
    FormatRoundTrip(AsTextFormat(f), AsTextValues(ws), []);
  }

  lemma {:induction false} CanonicalIsTextual(vs: Values)
    ensures Canonical(vs) <==> AsTextValues(NormalValues(vs)) == AsTextValues(vs)
  {
    match vs
    case Nil =>
    case Cons(v, ws) => CanonicalIsTextual(ws);
  }

  lemma {:induction false} NormalFits(f: Format, vs: Values)
    requires Fits(f, vs)
    ensures Fits(f, NormalValues(vs))
  {
    match (f, vs)
    case (Then(k, g), Cons(v, ws)) => NormalFits(g, ws);
    case (_, _) =>
  }

  lemma {:induction false} PrintTextual(f: Format, vs: Values, ws: Values)
    requires Print(f, vs).Some? && AsTextValues(vs) == AsTextValues(ws)
    requires NormalValues(vs) == ws
    ensures Print(f, ws) == Print(f, vs)
  {
    hide PrintField, NormalValue, AsTextValue;
    match (f, vs)
    case (End, Nil) =>
    case (Then(k, g), Cons(v, us)) =>
      TextualField(k, v);
      PrintTextual(g, us, ws.tail);
  }

  lemma TextualField(k: Kind, v: Value)
    requires PrintField(k, v).Some? && AsTextValue(v) == AsTextValue(NormalValue(v))
    ensures PrintField(k, NormalValue(v)) == PrintField(k, v)
  {
    hide NormalNumber, NumberText, PrintText, PrintBlob, PrintAddress, PrintNameList;
  }

  /** Re-encoding what was decoded gives the same bytes exactly when the integers were canonical text. */
  lemma ReencodingExact(m: Message)
    requires WellFormed(m) && EncodeFrame(m).Some?
    ensures EncodeFrame(Normal(m)) == EncodeFrame(m) <==> Canonical(BodyFields(m))
  {
    hide BodyFormat, BodyFields, Normal, Print, Fits, Canonical, AsTextValues, NormalValues, EncodeFrame;
    hide Placed, Code, TypeOf;
    var f, vs := BodyFormat(TypeOf(m)), BodyFields(m);
    var n := Normal(m);
    FieldsOfNormal(m);
    FormatsArePlaced(TypeOf(m));
    NormalFits(f, vs);
    CanonicalIsTextual(vs);
    var l, t, body := FrameParts(m);
    assert n.token == m.token by { NormalKeepsToken(m); }
    if Canonical(vs) {
      PrintTextual(f, vs, BodyFields(n));
      SameBody(m, n);
    }
    if EncodeFrame(n) == EncodeFrame(m) {
      var l', t', body' := FrameParts(n);
      var h := |l + t + m.token|;
      assert body == EncodeFrame(m).value[h..] && body' == EncodeFrame(n).value[h..];
      PrintInjective(f, vs, BodyFields(n));
    }
  }

  lemma NormalKeepsToken(m: Message)
    ensures Normal(m).token == m.token
  {}

  lemma SameBody(m: Message, n: Message)
    requires TypeOf(m) == TypeOf(n) && m.token == n.token
    requires Print(BodyFormat(TypeOf(m)), BodyFields(m)) == Print(BodyFormat(TypeOf(n)), BodyFields(n))
    ensures EncodeFrame(m) == EncodeFrame(n)
  {
    hide BodyFormat, BodyFields, TypeOf, Code, PrintField;
    var f := BodyFormat(TypeOf(m));
    PrintThen(Raw(16), f, VBytes(m.token), BodyFields(m));
    PrintThen(Raw(16), f, VBytes(m.token), BodyFields(n));
  }

  lemma PrintThen(k: Kind, g: Format, v: Value, ws: Values)
    ensures Print(Then(k, g), Cons(v, ws))
         == (match (PrintField(k, v), Print(g, ws))
             case (Some(h), Some(t)) => Some(h + t)
             case (_, _) => None)
  {}

  // ---- exact conditions of the character-counted messages ----

  /** Fixed widths are met and integers are integers; character counts may be wrong, text may be missing. */
  predicate FieldPlain(k: Kind, v: Value) {
    || (FieldFits(k, v) && (k.Number? && v.VNumber? ==> v.t.Num?))
    || (k.CharText? && v.VStr?)
    || (k.OptText? && v.VOpt?)
    || (k == Addr(true) && v.VAddr? && v.a.Host?)
  }

  predicate Plain(f: Format, vs: Values)
    decreases f
  {
    match (f, vs)
    case (Then(k, g), Cons(v, ws)) => FieldPlain(k, v) && Plain(g, ws)
    case (_, _) => true
  }

  /** A plain field is read back if and only if it fits. */
  lemma FieldExact(k: Kind, v: Value, rest: bytes)
    requires PrintField(k, v).Some? && FieldPlain(k, v)
    requires k.Remainder? ==> rest == []
    ensures var r := ParseField(k, PrintField(k, v).value + rest);
            if FieldFits(k, v) then r == Some((v, rest)) else r.Some? ==> r.value.0 != v
  {
    if FieldFits(k, v) {
      FieldRoundTrip(k, v, rest);
    } else if k.CharText? {
      CharTextExact(v.s, rest);
    } else if k.Addr? {
      HostNotReadBack(v.a.name, rest);
    }
  }

  lemma HostNotReadBack(host: Str, rest: bytes)
    requires PrintAddress(true, Host(host)).Some? && !IsAscii(host)
    ensures var r := ParseAddress(PrintAddress(true, Host(host)).value + rest);
            r.Some? ==> r.value.0 != Host(host)
  {
    hide IsAscii, ParseText, PrintCharText;
    var t := PrintCharText(host).value;
    assert [255] + t + rest == [255] + (t + rest);
    ReadBack([255], t + rest);
    CharTextExact(host, rest);
  }

  lemma {:induction false} FormatExact(f: Format, vs: Values)
    requires Print(f, vs).Some? && Plain(f, vs) && Placed(f)
    ensures var r := Parse(f, Print(f, vs).value); (r.Some? && r.value.0 == vs) <==> Fits(f, vs)
    ensures Fits(f, vs) ==> Parse(f, Print(f, vs).value) == Some((vs, []))
  {
    hide PrintField, ParseField, FieldFits, FieldPlain;
    match (f, vs)
    case (End, Nil) =>
    case (Then(k, g), Cons(v, ws)) =>
      var h, t := PrintField(k, v).value, Print(g, ws).value;
      FieldExact(k, v, t);
      FormatExact(g, ws);
      ParseThen(k, g, h + t);
  }

  lemma ParseThen(k: Kind, g: Format, bs: bytes)
    ensures Parse(Then(k, g), bs)
         == match ParseField(k, bs)
            case None => None
            case Some(h) => match Parse(g, h.1) case None => None case Some(t) => Some((Cons(h.0, t.0), t.1))
  {}

  /** Decoding the frame of m is building a message of its type from its body. */
  lemma DecodeOwnFrame(m: Message, l: bytes, t: bytes, body: bytes)
    requires |m.token| == 16 && |l| == 4 && |t| == 2 && FromBigEndian(t) == Code(TypeOf(m))
    requires EncodeFrame(m) == Some(l + t + m.token + body)
    ensures DecodeFrame(EncodeFrame(m).value)
         == match Parse(BodyFormat(TypeOf(m)), body)
            case None => None
            case Some(p) => match Build(TypeOf(m), m.token, p.0) case None => None case Some(n) => Some((n, p.1))
  {
    hide Parse, BodyFormat, Build, EncodeFrame, CmdTypeOf, Code, TypeOf;
    var r := m.token + body;
    assert l + t + m.token + body == l + t + r;
    DecodeAfterHeader(l, t, r);
    ReadBack(m.token, body);
    assert CmdTypeOf(Code(TypeOf(m))) == Some(TypeOf(m));
  }

  /**
   A message with the widths its format wants comes back as it was sent if and only if its character counts
   are byte counts and its optional text is there; and then nothing is left over.
   */
  lemma ReadBackExact(m: Message)
    requires |m.token| == 16 && EncodeFrame(m).Some? && Plain(BodyFormat(TypeOf(m)), BodyFields(m))
    ensures DecodeBytes(EncodeFrame(m).value) == Some(m) <==> Fits(BodyFormat(TypeOf(m)), BodyFields(m))
    ensures Fits(BodyFormat(TypeOf(m)), BodyFields(m)) ==> DecodeFrame(EncodeFrame(m).value) == Some((m, []))
  {
    hide Parse, Print, Build, EncodeFrame, DecodeFrame, BodyFormat, BodyFields, TypeOf, Code, FromBigEndian;
    var l, t, body := FrameParts(m);
    FormatsArePlaced(TypeOf(m));
    FormatExact(BodyFormat(TypeOf(m)), BodyFields(m));
    DecodeOwnFrame(m, l, t, body);
    var p := Parse(BodyFormat(TypeOf(m)), body);
    if p.Some? {
      BuildExact(m, p.value.0);
    }
  }

  /** WSNErr comes back as it was sent if and only if both texts are ASCII. */
  lemma ErrExact(token: bytes, reason: Str, extra: Str)
    requires |token| == 16 && EncodeFrame(Err(token, reason, extra)).Some?
    ensures DecodeBytes(EncodeFrame(Err(token, reason, extra)).value) == Some(Err(token, reason, extra))
       <==> IsAscii(reason) && IsAscii(extra)
  {
    hide EncodeFrame, DecodeFrame, IsAscii;
    ReadBackExact(Err(token, reason, extra));
  }

  /** WSNLog comes back as it was sent if and only if the message is ASCII. */
  lemma LogExact(token: bytes, level: int, text: Str)
    requires |token| == 16 && EncodeFrame(Log(token, level, text)).Some?
    ensures DecodeBytes(EncodeFrame(Log(token, level, text)).value) == Some(Log(token, level, text))
       <==> IsAscii(text)
  {
    hide EncodeFrame, DecodeFrame, IsAscii;
    ReadBackExact(Log(token, level, text));
  }

  /** WSNConnect to a host name comes back as it was sent if and only if the name is ASCII. */
  lemma ConnectExact(m: Message)
    requires m.Connect? && m.ip.Host? && |m.token| == 16 && EncodeFrame(m).Some?
    requires FieldFits(Letters(3), VStr(m.protocol))
    ensures DecodeBytes(EncodeFrame(m).value) == Some(m) <==> IsAscii(m.ip.name)
  {
    hide EncodeFrame, DecodeFrame, IsAscii, Encode;
    ReadBackExact(m);
  }

  /** WSNOK without a message comes back with the empty message, so it comes back iff it has one. */
  lemma OkExact(token: bytes, msg: Option<Str>)
    requires |token| == 16 && EncodeFrame(OK(token, msg)).Some?
    ensures DecodeBytes(EncodeFrame(OK(token, msg)).value) == Some(OK(token, msg)) <==> msg.Some?
  {
    hide EncodeFrame, DecodeFrame, Encode;
    ReadBackExact(OK(token, msg));
  }

  // ---- two readers of one format ----

  /** Whatever the bytes, a frame that decodes has the token the router cuts out at fixed offsets. */
  lemma TokenAgreement(bs: bytes)
    requires DecodeFrame(bs).Some?
    ensures DecodeFrame(bs).value.0.token == Slice(bs, 6, 22)
  {
    hide CmdTypeOf, Parse, BodyFormat, FromBigEndian, Head, Tail, Slice, Build;
    HeaderThenToken(bs);
  }

  /** The token is behind the six bytes of the header. */
  lemma HeaderThenToken(bs: bytes)
    ensures Head(Tail(Tail(bs, 4), 2), 16) == Slice(bs, 6, 22)
  {}

  /** Whatever a frame decodes to has the type and the token it was made with: texts cut short change neither. */
  lemma TypeStays(m: Message)
    requires |m.token| == 16 && EncodeFrame(m).Some?
    ensures var r := DecodeBytes(EncodeFrame(m).value);
            r.Some? ==> TypeOf(r.value) == TypeOf(m) && r.value.token == m.token
  {
    hide EncodeFrame, Parse, FromBigEndian, Code, BodyFormat, BodyFields, TypeOf, Build, Print;
    var l, t, body := FrameParts(m);
    DecodeOwnFrame(m, l, t, body);
  }

  /**
   The router's slices of an operator's frame are the agent id, the inner frame and its token; the length in
   front does not count itself.
   */
  lemma OpAgreement(agentid: bytes, m: Message)
    requires |agentid| == 16 && |m.token| == 16 && EncodeOp(agentid, m).Some?
    ensures var d := EncodeOp(agentid, m).value;
            && Slice(d, 4, 20) == agentid
            && d[20..] == EncodeFrame(m).value
            && Slice(d, 26, 42) == m.token
            && |d| == 4 + FromBigEndian(d[..4])
  {
    hide EncodeFrame, BodyFormat, BodyFields, TypeOf, Code, Print, FromBigEndian, BigEndian, Pow256;
    var l, t, body := FrameParts(m);
    var c := EncodeFrame(m).value;
    var d := EncodeOp(agentid, m).value;
    WidthBounds();
    BigEndianRoundTrip(|agentid + c|, 4);
    assert d[..4] == BigEndian(|agentid + c|, 4);
    assert d == d[..4] + agentid + c;
    assert c[6..22] == m.token;
    assert d[26..42] == c[6..22];
  }

  // ---- streams of frames ----

  /** Repeated CMD.from_buffer until the buffer is empty. */
  function DecodeStream(bs: bytes): Option<seq<Message>>
    decreases |bs|
  {
    if bs == [] then Some([])
    else
      var p :- DecodeFrame(bs);
      if |p.1| >= |bs| then None
      else
        var t :- DecodeStream(p.1);
        Some([p.0] + t)
  }

  predicate Streamable(m: Message) {
    WellFormed(m) && EncodeFrame(m).Some? && !m.SocketData? && !m.ServerSocketData?
  }

  function EncodeStream(ms: seq<Message>): Option<bytes> {
    if ms == [] then Some([])
    else
      var h :- EncodeFrame(ms[0]);
      var t :- EncodeStream(ms[1..]);
      Some(h + t)
  }

  function NormalAll(ms: seq<Message>): seq<Message> {
    if ms == [] then [] else [Normal(ms[0])] + NormalAll(ms[1..])
  }

  /** Frames laid end to end are recovered one by one, for every type but the two that take the rest. */
  lemma {:induction false} StreamRoundTrip(ms: seq<Message>)
    requires forall i :: 0 <= i < |ms| ==> Streamable(ms[i])
    ensures EncodeStream(ms).Some? && DecodeStream(EncodeStream(ms).value) == Some(NormalAll(ms))
  {
    hide DecodeFrame, EncodeFrame, Normal, WellFormed, SelfDelimiting, BodyFormat, Streamable, TypeOf;
    if ms == [] {
    } else {
      StreamRoundTrip(ms[1..]);
      StreamStep(ms[0], EncodeStream(ms[1..]).value);
    }
  }

  lemma StreamStep(m: Message, rest: bytes)
    requires Streamable(m)
    ensures EncodeFrame(m).Some? && EncodeFrame(m).value != []
    ensures DecodeFrame(EncodeFrame(m).value + rest) == Some((Normal(m), rest))
  {
    hide DecodeFrame, EncodeFrame, Normal, WellFormed, SelfDelimiting, BodyFormat;
    FormatsArePlaced(TypeOf(m));
    RoundTrip(m, rest);
    var l, t, body := FrameParts(m);
  }

  /** The message with more bytes behind it in the same buffer. */
  function Extended(m: Message, rest: bytes): Message {
    match m
    case SocketData(token, data) => SocketData(token, data + rest)
    case ServerSocketData(token, ctoken, data, ip, port) => ServerSocketData(token, ctoken, data + rest, ip, port)
    case _ => m
  }

  /** A socket-data frame swallows whatever is behind it. */
  lemma RemainderSwallows(m: Message, rest: bytes)
    requires WellFormed(m) && EncodeFrame(m).Some? && (m.SocketData? || m.ServerSocketData?)
    requires EncodeFrame(Extended(m, rest)).Some?
    ensures DecodeFrame(EncodeFrame(m).value + rest) == Some((Extended(m, rest), []))
  {
    hide EncodeFrame, DecodeFrame, BodyFormat, BodyFields, Code, DecodeBody, FromBigEndian, CmdTypeOf;
    hide Print, WellFormed;
    var n := Extended(m, rest);
    var l, t, body := FrameParts(m);
    var l', t', body' := FrameParts(n);
    assert WellFormed(n) by { ExtendedFits(m, rest); }
    assert Normal(n) == n && TypeOf(m) == TypeOf(n) && n.token == m.token;
    RoundTrip(n, []);
    RemainderExtends(m, rest);
    SameType(m, n, l, t, body, l', t', body');
    DecodeAfterHeader(l, t, m.token + body');
    DecodeAfterHeader(l', t, m.token + body');
    assert EncodeFrame(m).value + rest == l + t + (m.token + body');
    assert EncodeFrame(n).value + [] == l' + t + (m.token + body');
  }

  lemma ExtendedFits(m: Message, rest: bytes)
    requires WellFormed(m)
    ensures WellFormed(Extended(m, rest))
  {}

  lemma SameType(m: Message, n: Message, l: bytes, t: bytes, body: bytes, l': bytes, t': bytes, body': bytes)
    requires TypeOf(m) == TypeOf(n) && EncodeFrame(m).Some? && EncodeFrame(n).Some?
    requires |l| == |l'| == 4 && |t| == |t'| == 2
    requires EncodeFrame(m).value == l + t + m.token + body && EncodeFrame(n).value == l' + t' + n.token + body'
    ensures t == t'
  {
    hide Print, FormatOf, FieldsOf, TypeOf, Code;
    var c := BigEndian(Code(TypeOf(m)), 2);
    var dm, dn := ToData(m).value, ToData(n).value;
    assert dm[..2] == c && dn[..2] == c;
    assert EncodeFrame(m).value[4..6] == dm[..2] && EncodeFrame(n).value[4..6] == dn[..2];
    assert EncodeFrame(m).value[4..6] == t && EncodeFrame(n).value[4..6] == t';
  }

  lemma RemainderExtends(m: Message, rest: bytes)
    requires m.SocketData? || m.ServerSocketData?
    requires Print(BodyFormat(TypeOf(m)), BodyFields(m)).Some?
    ensures Print(BodyFormat(TypeOf(m)), BodyFields(Extended(m, rest)))
         == Some(Print(BodyFormat(TypeOf(m)), BodyFields(m)).value + rest)
  {
    hide PrintAddress;
    if m.ServerSocketData? {
      var a, p := PrintAddress(false, m.clientip).value, ToBytes(m.clientport, 2).value;
      var f := Then(UInt(2), Then(Remainder, End));
      PrintThen(Raw(16), Then(Addr(false), f), VBytes(m.connectiontoken),
          Cons(VAddr(m.clientip), Cons(VInt(m.clientport), Cons(VBytes(m.data), Nil))));
      PrintThen(Addr(false), f, VAddr(m.clientip), Cons(VInt(m.clientport), Cons(VBytes(m.data), Nil)));
      PrintThen(UInt(2), Then(Remainder, End), VInt(m.clientport), Cons(VBytes(m.data), Nil));
      assert m.connectiontoken + (a + (p + (m.data + rest + [])))
          == m.connectiontoken + (a + (p + (m.data + []))) + rest;
    } else {
      assert m.data + [] + rest == m.data + rest + [];
    }
  }
}
