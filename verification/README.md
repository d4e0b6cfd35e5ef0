# WSNet: verified models of framing, tunnels, router, remote files and record splitting

WSNet carries TCP tunnels, listening servers and remote files over one websocket. Every frame names its
stream by a 16-byte token; servers name each accepted connection by a second one. What the system is for is
that byte streams which are chopped, framed, interleaved, routed and put together again come out as they
went in. This project models the parts that do this and proves it over all runs.

Each part has two layers. One is a pure specification: functions and step relations over values, with the
theorems about them. The other is the program in the form of the source: classes and methods with the
source's fields, loops and branches, each proved to compute the specification. A step of a step relation is
what the source does between two `await`s; random tokens and agent ids are fresh values; a websocket is a
FIFO queue; `Option` stands for a Python result or an exception.

| module | part of the system |
|---|---|
| `Bytes`, `Text` | big-endian integers and slices; UTF-8 and UTF-16LE with strict decoding, `str(int)` and `int(str)` |
| `Wire`, `Frames` | the message types as lists of fields, one printer and parser for all; round trips and when they fail |
| `Codec` | `BytesIO` and every `to_data` and `from_buffer` over it, proved to be the printer and parser |
| `Chunker` | the chunk loops of the two writers and the frames they send |
| `Reader`, `ServerRead` | the buffered reader; many connections on one wire under any schedule of calls |
| `Connections`, `ServerWrite`, `Agent` | connection identifiers, the stop of a connection, and the write path to the accepted sockets |
| `Tunnel`, `Client`, `TunnelWrite` | CONNECT tasks, the replies they send, the client's dispatch and both directions of a tunnel |
| `Router` | both servers of the router with their queues and registries |
| `FileAgent`, `RemoteFile`, `FileSession` | the agent's files, the client's chunked operations, and sessions compared with a local file |
| `Tls` | cutting a byte stream into TLS records (section 6.2.1 of RFC 5246, section 5.1 of RFC 8446) |

## Where the code differs from what it says or intends

The models follow the code.

- The length field of a frame is read and ignored (`wsnet/protocol/__init__.py:32`); a frame ends where its
  fields do.
- `WSNErr`, `WSNLog` and a host name in `WSNConnect` send a character count in front of UTF-8 bytes, so they
  come back as sent exactly when they are ASCII (`Frames.ErrExact`, `Frames.LogExact`, `Frames.ConnectExact`).
- `WSNOK` without a message decodes to one with the empty message (`Frames.OkExact`).
- The 286295 in the chunkers bounds a payload. A frame may exceed it by 21 bytes (`Chunker.FrameBound`), or by
  44 on the way to a server's connection (`Chunker.ServerDataFrame`).
- The record loop of the data phase does not advance on a partial record of more than 5 bytes; it ends exactly
  on buffers whose decomposition into records leaves at most 5 bytes (`Tls.TerminatesExactly`). A message that
  leaves more makes the connection spin for ever (`Tls.SpinsExactly`, `Tls.ConnectionSpins`).
- At the end of a peer's data `run` sends an empty payload and then `stop` sends the same frame again as its
  notice (`ServerWrite.EofLooksLikeNotice`).
- An IPv6 peer's address has four parts, which `run` unpacks into two names. It raises, and raises again where it
  would log that, so the connection stays registered without an announcement and without a stop
  (`Agent.TCPServerConnection.constructor`).
- A stop whose notice cannot be sent leaves its connection registered (`ServerWrite.CompletedStop`,
  `ServerWrite.LostNoticeStaysRegistered`).
- When a send to an operator fails the lookup entry is deleted even if it names another operator by then
  (`Router.NewerEntryIsDropped`). So an agent and token have an entry exactly when they were addressed since the
  last failed send of theirs (`Router.LookupExact`).
- A remote `seek` accepts negative landings and refuses some a file object would take; `read(n)` with n below
  -1 returns nothing instead of raising. `RemoteFile.Agrees` is the exact condition, and
  `RemoteFile.NegativeSeekDiffers`, `RemoteFile.NegativeReadDiffers` and `RemoteFile.SeekFromEndDiffers` are
  inputs outside it. `write` returns 0, the length of what is left, and None for an exception it swallowed.

## Model

| member | source | states |
|---|---|---|
| Text.TextRoundTrip | wsnet/protocol/utils.py:13-24 | text that encodes is decoded to the same characters, in both encodings in use |
| Text.TextCanonical | wsnet/protocol/utils.py:15 | bytes that decode are the encoding of what they decode to, so decoding is injective |
| Text.Utf8Length | wsnet/protocol/common/err.py:34-37 | UTF-8 text has at least as many bytes as characters, and as many exactly when it is ASCII |
| Text.Utf8Form | wsnet/protocol/utils.py:13-24 | the bytes of a code point in UTF-8: how many, the lead byte, and six bits in each of the others |
| Text.Utf16Form | wsnet/protocol/common/listagentsreply.py:26-55 | in UTF-16LE: one unit or a surrogate pair, low byte first |
| Text.DecimalRoundTrip | wsnet/protocol/authentication/kerberosauth.py:27-28 | `int(str(n))` is n for every integer |
| Text.DecimalForm | wsnet/protocol/authentication/kerberosauth.py:36-42 | `str(n)` is a minus sign for a negative number and digits without leading zeros |
| Wire.CharTextExact | wsnet/protocol/common/err.py:18-39 | text sent under a character count is read back exactly when it is ASCII, whatever follows it |
| Wire.AddressRoundTrip | wsnet/protocol/connection/serversocketdata.py:23-66 | each of the three address forms is read back with what follows left in the buffer |
| Wire.NameListRoundTrip | wsnet/protocol/connection/resolv.py:20-39 | the counted list written by one loop is the list read by the other |
| Wire.FieldRoundTrip | wsnet/protocol/utils.py:3-24 | every kind of field that fits is read back in its normal form and leaves what follows |
| Wire.FormatRoundTrip | wsnet/protocol/__init__.py:18-34 | the same for any list of fields in which only the last may take the rest of the buffer |
| Frames.FrameParts | wsnet/protocol/__init__.py:18-20 | a frame is its length, counting itself, the type number, the token and the body |
| Frames.HeaderBytes | wsnet/protocol/cmdtypes.py:3-54 | the first six bytes of a frame of each type: its length, most significant byte first, and the number of its type, written out |
| Frames.FrameLayout | wsnet/protocol/__init__.py:18-20 | what follows the token, written out type by type: which fields, in which order and how wide, and whether text is counted in bytes or in characters |
| Frames.RoundTrip | wsnet/protocol/__init__.py:18-34 | decoding an encoded message gives its normal form and leaves exactly what followed the frame |
| Frames.BytesRoundTrip | wsnet/protocol/__init__.py:26-28 | `from_bytes(to_bytes(m))` is the normal form of m |
| Frames.ReencodingExact | wsnet/protocol/authentication/kerberosauth.py:23-46 | re-encoding a decoded message gives the same bytes exactly when its integers were sent as `str()` writes them |
| Frames.PrintInjective | wsnet/protocol/__init__.py:18-34 | two lists of field values with the same bytes agree in every value, integers compared as the text they are sent as |
| Frames.ReadBackExact | wsnet/protocol/__init__.py:18-34 | a message comes back as sent exactly when its character counts are byte counts and its optional text is there, and then nothing is left over |
| Frames.ErrExact | wsnet/protocol/common/err.py:18-39 | WSNErr comes back as sent exactly when reason and extra are ASCII |
| Frames.LogExact | wsnet/protocol/common/log.py:19-38 | WSNLog comes back as sent exactly when its message is ASCII |
| Frames.ConnectExact | wsnet/protocol/connection/connect.py:22-61 | WSNConnect to a host name comes back as sent exactly when the name is ASCII |
| Frames.OkExact | wsnet/protocol/common/ok.py:19-35 | WSNOK comes back as sent exactly when it has a message |
| Frames.TokenAgreement | wsnet/router/router.py:52 | for any bytes that decode, the router's slice 6:22 is the decoded token |
| Frames.TypeStays | wsnet/protocol/common/err.py:18-39 | whatever a frame decodes to has the type and the token it was made with, even when texts are cut short |
| Frames.OpAgreement | wsnet/router/router.py:169-171 | the router's slices of an operator frame are the agent id, the inner frame and the inner token; its length does not count itself |
| Frames.StreamRoundTrip | wsnet/protocol/__init__.py:30-34 | decoding concatenated frames again and again recovers the list of messages, for types that say where they end |
| Frames.RemainderSwallows | wsnet/protocol/connection/socketdata.py:18-21 | SD and SDSRV are the exception: whatever follows such a frame becomes part of its data |
| Codec.BytesIO.constructor | wsnet/protocol/__init__.py:28 | a buffer starts with its bytes and the cursor at zero |
| Codec.BytesIO.Read | wsnet/protocol/utils.py:4-5 | a read returns up to n bytes from the cursor and moves behind them |
| Codec.BytesIO.ReadAll | wsnet/protocol/connection/socketdata.py:20 | a read without a size returns all that is left |
| Codec.BytesIO.Write | wsnet/protocol/utils.py:10-11 | a write at the end of the buffer appends |
| Codec.BytesIO.Rewind | wsnet/protocol/connection/resolv.py:36-38 | after seek(0) everything written can be read |
| Codec.ReadBytes | wsnet/protocol/utils.py:3-6 | reads a length and that many bytes, as the parser of a blob does |
| Codec.WriteBytes | wsnet/protocol/utils.py:8-11 | appends the printed blob, or fails when the length does not fit |
| Codec.ReadStr | wsnet/protocol/utils.py:13-16 | reads a length and text, or fails when it does not decode |
| Codec.WriteStr | wsnet/protocol/utils.py:18-24 | appends the printed text, or fails when it does not encode |
| Codec.ReadInt | wsnet/protocol/authentication/kerberosauth.py:27-28 | reads text and the integer it stands for, or fails |
| Codec.ReadCounted | wsnet/protocol/common/err.py:20-23 | reads a count and that many bytes of text, or fails |
| Codec.PrintOntoIs | wsnet/protocol/common/err.py:27-39 | growing an accumulator field by field gives what was there followed by the printed fields |
| Codec.DataByAccumulation | wsnet/protocol/__init__.py:18-20 | the accumulated bytes of a message are its `to_data` |
| Codec.DecodedIsDecodeBody | wsnet/protocol/__init__.py:30-34 | reading the token and the fields in turn is the body decoder |
| Codec.ErrToData | wsnet/protocol/common/err.py:27-39 | the encoder of WSNErr is the printer of its fields |
| Codec.ErrFromBuffer | wsnet/protocol/common/err.py:18-25 | the decoder of WSNErr is the parser of its fields, buffer position included |
| Codec.LogToData | wsnet/protocol/common/log.py:27-38 | the encoder of WSNLog is the printer of its fields |
| Codec.LogFromBuffer | wsnet/protocol/common/log.py:19-25 | the decoder of WSNLog is the parser of its fields |
| Codec.OkToData | wsnet/protocol/common/ok.py:24-35 | the encoder of WSNOK is the printer of its fields, with or without a message |
| Codec.OkFromBuffer | wsnet/protocol/common/ok.py:19-22 | the decoder of WSNOK is the parser of its fields |
| Codec.ContinueToData | wsnet/protocol/common/wsncontinue.py:23-34 | the encoder of WSNContinue is the printer of its fields |
| Codec.ContinueFromBuffer | wsnet/protocol/common/wsncontinue.py:18-21 | the decoder of WSNContinue is the parser of its fields |
| Codec.ConnectToData | wsnet/protocol/connection/connect.py:38-61 | the encoder of WSNConnect is the printer of its fields in all address forms |
| Codec.ConnectFromBuffer | wsnet/protocol/connection/connect.py:22-36 | the decoder of WSNConnect is the parser of its fields |
| Codec.AddressFromBuffer | wsnet/protocol/connection/connect.py:26-33 | the branches on the version byte are the parser of an address |
| Codec.SocketDataToData | wsnet/protocol/connection/socketdata.py:23-30 | the encoder of WSNSocketData is the printer of its fields |
| Codec.SocketDataFromBuffer | wsnet/protocol/connection/socketdata.py:18-21 | the decoder of WSNSocketData takes the token and all the rest |
| Codec.ServerSocketDataToData | wsnet/protocol/connection/serversocketdata.py:41-66 | the encoder of WSNServerSocketData is the printer of its fields |
| Codec.ServerSocketDataFromBuffer | wsnet/protocol/connection/serversocketdata.py:23-39 | the decoder of WSNServerSocketData is the parser of its fields |
| Codec.WriteNames | wsnet/protocol/connection/resolv.py:33-35 | the loop appends the printed names |
| Codec.ResolvToData | wsnet/protocol/connection/resolv.py:28-39 | the encoder of WSNResolv is the printer of its fields |
| Codec.NamesFromBuffer | wsnet/protocol/connection/resolv.py:22-25 | the loop reads as many names as the count says, or fails |
| Codec.ResolvFromBuffer | wsnet/protocol/connection/resolv.py:20-26 | the decoder of WSNResolv is the parser of its fields |
| Codec.KerberosAuthToData | wsnet/protocol/authentication/kerberosauth.py:32-46 | the encoder of WSNKerberosAuth is the printer of its fields |
| Codec.KerberosAuthFromBuffer | wsnet/protocol/authentication/kerberosauth.py:23-30 | the decoder of WSNKerberosAuth is the parser of its fields, integers recovered from text |
| Codec.ListAgentsReplyToData | wsnet/protocol/common/listagentsreply.py:38-55 | the encoder of WSNListAgentsReply is the printer of its fields, in both encodings |
| Codec.ListAgentsReplyFromBuffer | wsnet/protocol/common/listagentsreply.py:26-36 | the decoder of WSNListAgentsReply is the parser of its fields |
| Codec.GetInfoReplyToData | wsnet/protocol/common/inforeply.py:41-59 | the encoder of WSNGetInfoReply is the printer of its fields |
| Codec.GetInfoReplyFromBuffer | wsnet/protocol/common/inforeply.py:28-39 | the decoder of WSNGetInfoReply is the parser of its fields |
| Codec.ListAgentsToData | wsnet/protocol/common/listagents.py:20-26 | the encoder of WSNListAgents is type and token |
| Codec.ListAgentsFromBuffer | wsnet/protocol/common/listagents.py:16-18 | the decoder of WSNListAgents takes the token |
| Codec.FileOpenToData | wsnet/protocol/fileop/fileopen.py:25-36 | the encoder of WSNFileOpen is the printer of its fields |
| Codec.FileOpenFromBuffer | wsnet/protocol/fileop/fileopen.py:19-23 | the decoder of WSNFileOpen is the parser of its fields |
| Codec.FileReadToData | wsnet/protocol/fileop/fileread.py:25-36 | the encoder of WSNFileRead is the printer of its fields, failing outside 4 and 8 bytes |
| Codec.FileReadFromBuffer | wsnet/protocol/fileop/fileread.py:19-23 | the decoder of WSNFileRead is the parser of its fields |
| Codec.FileDataToData | wsnet/protocol/fileop/filedata.py:25-36 | the encoder of WSNFileData is the printer of its fields |
| Codec.FileDataFromBuffer | wsnet/protocol/fileop/filedata.py:19-23 | the decoder of WSNFileData is the parser of its fields |
| Codec.WriteLongs | wsnet/protocol/fileop/fileentry.py:47-50 | appends four 8-byte numbers, or fails when one does not fit |
| Codec.FileEntryToData | wsnet/protocol/fileop/fileentry.py:36-52 | the encoder of WSNFileEntry is the printer of its fields |
| Codec.FileEntryFromBuffer | wsnet/protocol/fileop/fileentry.py:25-34 | the decoder of WSNFileEntry is the parser of its fields |
| Codec.FileStatToData | wsnet/protocol/fileop/filestat.py:21-30 | the encoder of WSNFileStat is type and token |
| Codec.FileStatFromBuffer | wsnet/protocol/fileop/filestat.py:17-19 | the decoder of WSNFileStat takes the token |
| Codec.ToDataOf | wsnet/protocol/__init__.py:18-19 | every message type has its own encoder, and it is the printer of its format |
| Codec.ToFrame | wsnet/protocol/__init__.py:18-20 | `to_bytes` is the frame encoder, failing when a field or the length does not fit |
| Codec.BodyFromBuffer | wsnet/protocol/__init__.py:152-197 | the dispatch by type number goes to the decoder of that type |
| Codec.FromBuffer | wsnet/protocol/__init__.py:30-34 | `from_buffer` is the frame decoder and leaves the cursor where it stopped |
| Codec.FromBytes | wsnet/protocol/__init__.py:26-28 | `from_bytes` is the frame decoder without what is left |
| Codec.OpToBytes | wsnet/protocol/__init__.py:41-45 | an operator frame is length, agent id and the inner frame |
| Chunker.ChunkArithmetic | wsnet/pyodide/interface.py:106-122 | the payloads of a non-empty write concatenate to it, have 1 to 286294 bytes each, are one below 286295 bytes and ceil(n/286200) otherwise, and all but the last have 286200 |
| Chunker.SplitArithmetic | wsnet/pyodide/tcpserver.py:172-179 | the read loop cuts data into ceil(n/286200) non-empty pieces, all but the last of 286200 bytes |
| Chunker.FrameBound | wsnet/pyodide/interface.py:109-122 | every frame that carries a chunk of a tunnel write exists and has at most 286316 bytes |
| Chunker.SocketDataFrame | wsnet/protocol/connection/socketdata.py:23-30 | a tunnel payload always encodes, to 22 bytes more than it has, below the size the length field can count |
| Chunker.ServerDataFrame | wsnet/pyodide/tcpserver.py:169-170 | a server payload without an address always encodes, to 45 bytes more than it has, below the size the length field can count |
| Chunker.ServerDataBytes | wsnet/protocol/connection/serversocketdata.py:41-66 | behind its length that frame is the type number, the two tokens, an empty host name, port 0 and the payload |
| Chunker.ServerWriter.SendPayload | wsnet/pyodide/tcpserver.py:168-170 | exactly the frame of one payload is sent |
| Chunker.ServerWriter.Write | wsnet/pyodide/tcpserver.py:165-179 | a write sends the frames of its chunks in order and nothing else |
| Chunker.ServerWriter.Close | wsnet/pyodide/tcpserver.py:188-190 | close sends the one frame with the empty payload and sets the event the reader shares |
| Chunker.SendSocketData | wsnet/pyodide/interface.py:102-127 | nothing is sent for no data, else the frames of its chunks in order |
| Reader.FindFromIsFirst | wsnet/pyodide/tcpserver.py:104-109 | find gives the first occurrence at or after a position, or none exists |
| Reader.RefusedCalls | wsnet/pyodide/tcpserver.py:41-78 | a closed reader gives nothing to read and refuses the other calls; readexactly below 1 raises and closes the reader |
| Reader.ReadGives | wsnet/pyodide/tcpserver.py:45-64 | read, begun or resumed, of the buffer or the first payload: all for -1, the first n bytes from 0 up, all but the last -n below -1; what it does not give stays, and nothing else is taken |
| Reader.ReadWaits | wsnet/pyodide/tcpserver.py:47-60 | with an empty buffer read waits for an item, and a fault makes it raise and closes the reader |
| Reader.ExactlyGives | wsnet/pyodide/tcpserver.py:80-90 | readexactly returns the first n bytes of the stream exactly when it has that many; else it raises at a fault, or waits with everything in the buffer |
| Reader.RaisingCloses | wsnet/pyodide/tcpserver.py:66-118 | a call closes the reader exactly when it raises |
| Reader.CallTakesLeast | wsnet/pyodide/tcpserver.py:80-107 | a call takes items from the front of the queue, and one that returns takes none it does not need |
| Reader.CallConserves | wsnet/pyodide/tcpserver.py:39-118 | what a call returns followed by what the reader holds is what it held, also when the call raises or is suspended |
| Reader.AnswerIsCut | wsnet/pyodide/tcpserver.py:39-118 | a call that returns, at once or resumed, returns what its need cuts off everything received and not returned |
| Reader.AwaitIsFlat | wsnet/pyodide/tcpserver.py:80-90 | a call completes exactly when the stream meets its need, with what the need cuts off the stream; else everything in front of a fault is in the buffer |
| Reader.FlatExtends | wsnet/pyodide/tcpserver.py:71-118 | more bytes behind a stream do not change the results of calls it has met |
| Reader.FlatResultsMean | wsnet/pyodide/tcpserver.py:71-118 | every result on a stream is what its need cuts off behind the results before it |
| Reader.FlatUntilIsFirst | wsnet/pyodide/tcpserver.py:97-118 | among the results on a stream a readuntil goes through the first occurrence in what was left then |
| Reader.UntilIsFirst | wsnet/pyodide/tcpserver.py:97-118 | readuntil, begun or resumed, returns exactly through the first occurrence in the remaining stream, across messages, if and only if there is one |
| Reader.ServerReader.ReadOne | wsnet/pyodide/tcpserver.py:27-37 | takes one item: its data goes behind the buffer, a fault closes the reader |
| Reader.ServerReader.ReadSome | wsnet/pyodide/tcpserver.py:39-69 | read is the specified call from its check on |
| Reader.ServerReader.ResumeSome | wsnet/pyodide/tcpserver.py:45-64 | read that was suspended goes on as specified |
| Reader.ServerReader.Exactly | wsnet/pyodide/tcpserver.py:71-95 | readexactly is the specified call from its checks on |
| Reader.ServerReader.ResumeExactly | wsnet/pyodide/tcpserver.py:80-90 | readexactly that was suspended goes on as specified |
| Reader.ServerReader.Until | wsnet/pyodide/tcpserver.py:97-118 | readuntil is the specified call from its check on |
| Reader.ServerReader.ResumeUntil | wsnet/pyodide/tcpserver.py:103-113 | readuntil that was suspended goes on as specified |
| ServerRead.ReadSideConservation | wsnet/pyodide/tcpserver.py:27-118 | in every reachable state, per connection: bytes returned, then buffered and queued, then in flight are the payloads sent for it, in order and with none of another connection |
| ServerRead.ResultsAreFlat | wsnet/pyodide/tcpserver.py:39-118 | in every run the results of the calls a connection has completed, begun and resumed at any time, are those of the same calls on the plain stream of what has arrived, and of what was sent |
| ServerRead.UntilResults | wsnet/pyodide/tcpserver.py:97-118 | in every run a completed readuntil, suspended or not, went exactly through the first occurrence in what the calls before it had left of the agent's bytes |
| ServerRead.ExactlyResults | wsnet/pyodide/tcpserver.py:71-90 | in every run a completed readexactly returned the next n bytes of what the agent sent |
| ServerRead.ReadResults | wsnet/pyodide/tcpserver.py:39-64 | in every run a completed read, suspended or not, gave of what was at hand, which is what the agent sent next: all for -1, up to n bytes from 0 up, all but the last -n below -1 |
| ServerRead.ReadCompletes | wsnet/pyodide/tcpserver.py:45-64 | a read, begun or resumed, completes as soon as the buffer or the queue has something, and all of that was at hand |
| ServerRead.LockIsFair | wsnet/pyodide/tcpserver.py:45-81 | a call on an open reader waits behind those that wait, and the one that goes on is the first of them |
| ServerRead.OneItemPerFrame | wsnet/pyodide/tcpserver.py:277-285 | in every run the items taken from the queue of a connection and those in it are one for every frame received for it, empty ones included but for the first, and one fault for every close of the server |
| ServerRead.ReceivedMeans | wsnet/pyodide/tcpserver.py:309-331 | a frame with data is on record for its connection, and OK, ERR and frames that do not decode end the receiving task |
| ServerRead.EmptyPayloadWakes | wsnet/pyodide/tcpserver.py:45-57 | a read that waits on an empty reader is resumed with no bytes by an empty payload |
| ServerRead.ChopIndependence | wsnet/pyodide/tcpserver.py:71-118 | two runs in which a connection completes the same calls on the same bytes give the same results, however these were cut, sent beside others and waited for |
| ServerRead.WaitingCallIsFlat | wsnet/pyodide/tcpserver.py:80-113 | a suspended call completes exactly when what has arrived and was not returned meets its need |
| ServerRead.StepKeeps | wsnet/pyodide/tcpserver.py:27-118 | what every step keeps: receiving, dispatching, calling, resuming, giving up a call that waits, closing |
| ServerRead.DispatchHolds | wsnet/pyodide/tcpserver.py:277-285 | dispatch gives a payload to its connection and changes what no other one holds |
| ServerRead.DispatchAgrees | wsnet/pyodide/tcpserver.py:277-285 | the class and the system dispatch alike |
| ServerRead.TCPServer.HandleNewConnection | wsnet/pyodide/tcpserver.py:260-274 | a new connection gets a fresh queue, and a reader on it and a writer that share a fresh event, for the client's callback; the others keep theirs |
| ServerRead.TCPServer.OpenWith | wsnet/pyodide/tcpserver.py:278-281 | the data of a first message is queued unless it is empty |
| ServerRead.TCPServer.HandleNewMsg | wsnet/pyodide/tcpserver.py:277-285 | a message is queued for its connection, which is opened if new and then gets no item for an empty payload; no other queue changes |
| Connections.IdsAreDistinct | wsnet/agent/agent.py:323-326 | identifiers of different counters differ, and they have 16 bytes exactly below 10^16 |
| Connections.IdForm | wsnet/agent/agent.py:323-326 | an identifier is the decimal digits of the counter, padded with the letter L to 16 characters |
| Connections.LifeKeepsStopsOnce | wsnet/agent/agent.py:113-128 | every transition of a connection keeps one notice per begun stop and ties registration to the fate of the notice |
| ServerWrite.ChunkingKeepsMeaning | wsnet/pyodide/tcpserver.py:165-190 | chunking neither makes nor hides the empty payload that means close |
| ServerWrite.OwnTakes | wsnet/agent/agent.py:130-134 | a payload written to a registered connection keeps its socket in step with what has arrived |
| ServerWrite.OwnDrains | wsnet/agent/agent.py:134-140 | going on after drain, with or without a stop, keeps it too |
| ServerWrite.OwnStops | wsnet/agent/agent.py:113-120 | so does a stop by another task |
| ServerWrite.OwnNotice | wsnet/agent/agent.py:120-128 | and so does the end of a stop |
| ServerWrite.StepKeeps | wsnet/agent/agent.py:113-167 | what every step keeps: chunks written are those arrived and those in flight, one notice on the agent's wire, a socket bounded by what arrived up to the first empty payload, and equal to it if undisturbed |
| ServerWrite.DeliveryMeans | wsnet/agent/agent.py:758-770 | a payload reaches the socket of its registered connection unless that is closed; for any other connection one empty payload goes back |
| ServerWrite.DrainMeans | wsnet/agent/agent.py:134-140 | after drain an empty payload and an exception stop the connection, with a notice if that is its first stop, and its socket is closed when the stop is over |
| ServerWrite.WritePathDelivers | wsnet/agent/agent.py:130-140 | in every reachable state the socket of any connection holds a prefix of its writes up to the first empty one, and all of it once nothing is in flight, unless a stop began before the empty one had arrived |
| ServerWrite.OneNotice | wsnet/agent/agent.py:113-167 | the agent announces every connection once; however many tasks stop it, it sends one frame as its stop notice once its stop has begun, and none before |
| ServerWrite.EofLooksLikeNotice | wsnet/agent/agent.py:154-167 | a run in which the end of the peer's data and the notice are the same frame, sent twice |
| ServerWrite.CompletedStop | wsnet/agent/agent.py:113-128 | a completed stop leaves the connection unregistered exactly when its notice could be sent |
| ServerWrite.LostNoticeStaysRegistered | wsnet/agent/agent.py:118-126 | the run that shows the other case |
| ServerWrite.RegistrationIsFresh | wsnet/agent/agent.py:142-146 | in every reachable state the next identifier is not in use, so a registration replaces none |
| Agent.WSNETAgent.GetConnectionId | wsnet/agent/agent.py:323-326 | gives the identifier of the counter and advances it |
| Agent.TCPServerConnection.constructor | wsnet/agent/agent.py:103-167 | a new connection takes the next identifier, registers itself and announces its IPv4 peer with an empty payload, if that encodes; for an IPv6 peer it ends there, registered and silent |
| Agent.AnnouncementEncodes | wsnet/protocol/connection/serversocketdata.py:41-66 | the announcement of an IPv4 peer always encodes |
| Agent.TCPServerConnection.SendPayload | wsnet/agent/agent.py:154-157 | exactly the frame of one payload is sent, or none when it does not encode, which needs a token of another width |
| Agent.WSNETAgent.SendData | wsnet/agent/agent.py:338-339 | frames leave in the order they are sent |
| Agent.TCPServerConnection.StopBegin | wsnet/agent/agent.py:113-120 | the first stop sends the notice, a later one only closes; a notice that does not encode ends the stop |
| Agent.TCPServerConnection.StopEnd | wsnet/agent/agent.py:121-128 | a sent notice is followed by deregistration, a failed one is not |
| Agent.TCPServerConnection.HandleWrite | wsnet/agent/agent.py:130-134 | up to drain: the data goes behind what the socket got, unless the writer is closed |
| Agent.TCPServerConnection.HandleWriteDrained | wsnet/agent/agent.py:134-140 | after drain: an empty payload and an exception begin to stop the connection, anything else does nothing |
| Tunnel.ReplyGrammar | wsnet/agent/agent.py:410-430 | in every run no CONNECT task's replies have data before CONTINUE or after OK |
| Tunnel.FramesAreReplies | wsnet/agent/agent.py:410-430 | in every run the frames sent under a token are those of its replies as far as they encode; these are CONTINUE, OK, ERR and data of 1 to 65536 bytes, the chunks read in order; OK is among them exactly when EOF was read, ERR when the task failed |
| Tunnel.TaskEnds | wsnet/agent/agent.py:425-427 | EOF is answered with OK and a failure with ERR and its texts, and each ends the task |
| Tunnel.EndingIsQueued | wsnet/pyodide/client.py:41-50 | each OK and each ERR received for a registered tunnel puts one end marker behind what is queued |
| Tunnel.EndMarkers | wsnet/pyodide/client.py:38-56 | in every run, errors included, the end markers queued and in flight for a registered tunnel are as many as the OK and ERR replies of its tasks that decode and the times the websocket closed |
| Tunnel.TunnelDelivers | wsnet/pyodide/client.py:38-56 | in every run, errors or not, the queue of a registered tunnel and what is in flight carry all bytes its task has read, in order; without an error, and while the websocket has not closed, they are just that and, after EOF, one end marker at the end |
| Tunnel.ReplyKeeps | wsnet/agent/agent.py:421-430 | a reply adds its frame, its data and its end marker to what is in flight for its token, and nothing for another |
| Tunnel.StepKeeps | wsnet/agent/agent.py:410-430 | what every step keeps: the grammar of the replies, the frames on record, what the replies amount to, and that queue and wire together hold it |
| Tunnel.ScanMeans | wsnet/agent/agent.py:421-430 | a trace the grammar accepts has data only behind CONTINUE and not behind OK |
| Tunnel.ReplyItems | wsnet/pyodide/client.py:38-56 | a reply that was encoded and sent puts into the queue of its token what the message amounts to |
| Tunnel.OtherToken | wsnet/pyodide/interface.py:71-72 | and nothing into the queue of any other token |
| Client.WSNetworkTCP.OnDataReceived | wsnet/pyodide/client.py:38-59 | each type of reply has its effect on the queue, the error and the established flag |
| Client.WSNetworkTCP.HandleOut | wsnet/pyodide/client.py:62-73 | the queue of writes is sent chunk by chunk up to its end marker |
| Client.WSNETWSInterface.OnData | wsnet/pyodide/interface.py:64-79 | a message reaches the queue of its token and no other; an unknown token is answered with OK |
| Client.WSNETWSInterface.RegisterConnection | wsnet/pyodide/interface.py:140-146 | the table has the new tunnel, the others as before, and the CONNECT goes out under the token drawn, if it encodes |
| Client.WSNETWSInterface.DeregisterConnection | wsnet/pyodide/interface.py:151-155 | the table loses that tunnel only |
| Client.WSNETWSInterface.Terminate | wsnet/pyodide/interface.py:97-100 | every registered tunnel gets exactly one end marker behind what it had |
| Client.ReceiveAgrees | wsnet/pyodide/interface.py:64-79 | the class and the system of the tunnels receive alike |
| Client.SocketDataIn | wsnet/agent/agent.py:602-621 | the socket gets the data messages in front of the first OK |
| Client.QueueFramesHead | wsnet/pyodide/interface.py:102-122 | the frames of a queue are those of its items one after the other, up to the last one the task takes |
| TunnelWrite.ItemInbound | wsnet/pyodide/interface.py:102-122 | chunked, framed and decoded, an item is its data for its own token and nothing for another, and OK when it ends a connection |
| TunnelWrite.StepKeeps | wsnet/agent/agent.py:602-621 | what every step of the whole keeps: establishing, sending, other traffic, queueing while the task runs, writing, ending |
| TunnelWrite.EstablishedIsHeard | wsnet/agent/agent.py:418-421 | a tunnel is established on the client only after the agent made its queue |
| TunnelWrite.WriterAgrees | wsnet/agent/agent.py:602-621 | the passes of the writing task write what its loop writes and end on an OK as it does |
| TunnelWrite.TunnelWritePath | wsnet/agent/agent.py:602-621 | in every run, among any other traffic and whatever ends the writing task, the socket of a tunnel holds a prefix of what its sending task took; while the writing task runs, written, queued and in flight are all of it in order |
| Client.ConnectionHandlerOut | wsnet/pyodide/asyncio_helper.py:253-284 | data is sent chunk by chunk up to the first empty write or None, and then OK |
| TunnelWrite.HandlerDelivers | wsnet/pyodide/asyncio_helper.py:253-284 | in every run in which nothing else ends the writing task, OK is under way, with no data behind it, exactly when the handler has ended, and when the task is over the socket holds all the handler took |
| Router.DeliverySafety | wsnet/router/router.py:139-157 | in every run a delivered frame came from its agent under its header's token and went to the operator that had addressed both last when it was looked up; per agent and token deliveries are an in-order subsequence of what was sent |
| Router.CommandIntegrity | wsnet/router/router.py:30-38 | in every run what agents are sent is an in-order subsequence of the accepted commands, each the bytes behind the first 20 of an operator's frame that names its agent |
| Router.InnerCommand | wsnet/router/router.py:167-206 | for a frame made by OPCMD the command is the inner command byte for byte, and the token its own |
| Router.RegistryAgreement | wsnet/router/router.py:105-135 | in every run replaying the pending signals over the listed agents gives exactly the connected agents that announced themselves, so these are the listed ones once the queue is drained |
| Router.LookupExact | wsnet/router/router.py:145-151 | in every run an agent and token have a lookup entry exactly when they were addressed since the last failed send of theirs, and it names the last operator to do so |
| Router.ListIsInformed | wsnet/router/router.py:111-135 | in every run an agent is listed exactly when the last signal taken about it was an announcement, with what that said; the signals taken and those pending are the ones the agents gave |
| Router.OperatorsMean | wsnet/router/router.py:159-213 | an operator is registered from its connection to its end, which a frame for the router that cannot be read brings about |
| Router.ZerosAre | wsnet/router/router.py:52-176 | the zero token and the zero agent id are sixteen zero bytes at their offsets |
| Router.NewerEntryIsDropped | wsnet/router/router.py:147-151 | a run in which the send to one operator fails and the entry of a newer one is deleted |
| Router.NothingIsLost | wsnet/router/router.py:139-157 | in every run the sends to operators, good or bad, are exactly those due: each frame taken while its agent and token had been addressed since their last failed send; a connected agent none of whose sends failed has every command taken for it |
| Router.StreamIsComplete | wsnet/router/router.py:139-157 | whatever failed for others, an agent and token without a failed send had every frame taken after they were addressed delivered in order |
| Router.StepKeeps | wsnet/router/router.py:30-206 | what every step keeps: the registries agree, lookups name the last addresser since the last failed send, frames and commands are accounted for |
| Router.StepKeepsRegistries | wsnet/router/router.py:44-135 | every step keeps the listed agents, pending signals replayed, equal to the connected ones that announced themselves |
| Router.OnlyDataIsQueued | wsnet/router/router.py:50-58 | a frame from an agent adds itself to the data queue or nothing |
| Router.LookedUp | wsnet/router/router.py:145-148 | the lookup table names the operator that addressed an agent and token last |
| Router.WSNETRouter.Connect | wsnet/router/router.py:44-45 | the agent is registered |
| Router.WSNETRouter.Disconnect | wsnet/router/router.py:64-67 | an agent that is registered is forgotten and its departure signalled, once |
| Router.WSNETRouter.HandleFrame | wsnet/router/router.py:48-61 | a frame with the zero token becomes an arrival, any other is queued for operators, and an unreadable announcement ends the agent |
| Router.WSNETRouter.HandleInQueue | wsnet/router/router.py:30-38 | a command is taken and reaches its agent exactly when that is connected and the send succeeds |
| Router.OPServer.HandleFrame | wsnet/router/router.py:166-206 | a frame for a listed agent is queued and its sender remembered; for another it is refused with an error under its token |
| Router.OPServer.TakeFromQueue | wsnet/router/router.py:139-148 | a data frame is taken and its operator looked up |
| Router.OPServer.Sent | wsnet/router/router.py:147-151 | a failed send deletes the lookup entry, nothing else changes |
| Router.OPServer.HandleSignal | wsnet/router/router.py:105-135 | an arrival lists the agent with its information, a departure strikes it off |
| FileAgent.WriteAtMeans | wsnet/agent/agent.py:706-711 | position by position a file holds the data written, what was there before, or zero in the gap |
| FileAgent.WriteInPieces | wsnet/pyodide/fileops.py:166-178 | writing data in two pieces at consecutive offsets is writing it at once |
| FileAgent.ReadRequest | wsnet/protocol/fileop/fileread.py:25-36 | a FILEREAD encodes exactly when size and offset fit 4 and 8 bytes |
| FileAgent.ErrStaysErr | wsnet/agent/agent.py:720-721 | an ERR reply that decodes is an ERR, whatever its texts |
| FileAgent.ExchangeRead | wsnet/agent/agent.py:699-705 | a read request is answered with the bytes at its offset, as far as there are any, exactly when the offset is one a file can have |
| FileAgent.ExchangeWrite | wsnet/agent/agent.py:706-711 | a write request changes that file at that offset only and is confirmed, exactly when it ends within the offsets there are |
| FileAgent.ExchangeRefused | wsnet/agent/agent.py:699-721 | without a handle of the right kind a read, write or stat request fails and changes nothing |
| FileAgent.ExchangeOpen | wsnet/agent/agent.py:688-698 | an open request is confirmed exactly when the agent could open the file |
| FileAgent.ExchangeStat | wsnet/agent/agent.py:712-717 | a stat request is answered with the size of the open file exactly when its times fit their fields |
| FileAgent.ExchangeClose | wsnet/agent/agent.py:737-742 | OK forgets the handle and is not answered |
| FileAgent.FileService.ProcessFileop | wsnet/agent/agent.py:688-742 | each file command has its effect on files and handles and its answer, errors included |
| FileAgent.FileService.Serve | wsnet/agent/agent.py:723-742 | request and reply travel as frames |
| RemoteFile.ReadPass | wsnet/pyodide/fileops.py:109-124 | inside the file each request for up to 1 MiB fits its fields and is answered with exactly the bytes asked for, at least one, so that the remaining size falls |
| RemoteFile.WritePass | wsnet/pyodide/fileops.py:166-178 | up to 1 MiB goes out in a request that fits its fields, is written at the offset and confirmed |
| RemoteFile.ReadLoopExact | wsnet/pyodide/fileops.py:109-124 | the read loop gives the bytes from the offset exactly when the file has that many; otherwise it raises with the offset at the end |
| RemoteFile.WriteLoopExact | wsnet/pyodide/fileops.py:166-178 | the write loop is one write of all the data, exactly when that ends within the offsets there are |
| RemoteFile.ReadStep | wsnet/pyodide/fileops.py:143-155 | every read gives the bytes a local file would give and moves as far, refuses in a file that is written, and gives nothing below -1 |
| RemoteFile.WriteStep | wsnet/pyodide/fileops.py:157-181 | every write that ends within the offsets there are changes the file as a local write would |
| RemoteFile.StepExact | wsnet/pyodide/fileops.py:129-181 | seek, read and write do what a local byte array with a cursor does, with the same outcome, exactly under Agrees, and change nothing else at the agent |
| RemoteFile.NegativeSeekDiffers | wsnet/pyodide/fileops.py:129-131 | seek(-1) is accepted where a local file refuses it |
| RemoteFile.NegativeReadDiffers | wsnet/pyodide/fileops.py:143-155 | read(-2) gives nothing where a local file refuses it |
| RemoteFile.SeekFromEndDiffers | wsnet/pyodide/fileops.py:134-139 | a seek from the end is refused in a file that is written |
| RemoteFile.WSNETFile.constructor | wsnet/pyodide/fileops.py:62-67 | a new file has offset and size zero |
| RemoteFile.WSNETFile.OpenFile | wsnet/pyodide/fileops.py:79-95 | open asks for the file, and for its size when it is read |
| RemoteFile.WSNETFile.Stat | wsnet/pyodide/fileops.py:97-107 | fstat keeps the size the agent reports |
| RemoteFile.WSNETFile.CloseFile | wsnet/pyodide/fileops.py:76-77 | close sends OK |
| RemoteFile.WSNETFile.SeekTo | wsnet/pyodide/fileops.py:129-141 | the offset moves as whence says, or an exception leaves it |
| RemoteFile.WSNETFile.ReadChunks | wsnet/pyodide/fileops.py:109-124 | the loop terminates with the bytes of the specified read loop |
| RemoteFile.WSNETFile.ReadUpTo | wsnet/pyodide/fileops.py:143-155 | read is the specified read in every case of its argument |
| RemoteFile.WSNETFile.WriteAll | wsnet/pyodide/fileops.py:157-181 | write is the specified write, with 0 for success and None for an exception it swallowed |
| FileSession.OpenExact | wsnet/pyodide/fileops.py:79-95 | open succeeds exactly for a mode and path the agent can open, and then the handle is there and the size known |
| FileSession.OpenModes | wsnet/agent/agent.py:688-698 | an existing file that can be opened is opened for reading with r and rb, emptied and opened for writing with w and wb, and with no other text |
| FileSession.CloseExact | wsnet/agent/agent.py:737-742 | close forgets the handle of this session and nothing else |
| FileSession.SessionExact | wsnet/pyodide/fileops.py:129-181 | over any run, others at work in between, a remote file matches the local one throughout exactly when every operation is one they agree on |
| FileSession.WritingSession | wsnet/pyodide/fileops.py:157-181 | a session that writes has the outcomes of a local file and leaves its content behind, without a handle |
| FileSession.ReadingSession | wsnet/pyodide/fileops.py:143-155 | a session that reads knows the size, has the outcomes of a local file and leaves the content alone |
| FileSession.WriteThenRead | wsnet/pyodide/fileops.py:79-181 | a session that writes, its close and a session that reads have the outcomes of a local file |
| FileSession.ReadsEverything | wsnet/pyodide/fileops.py:143-155 | `read(-1)` at the start gives everything written in any number of writes |
| Tls.RecordsUnique | wsnet/pyodide/asyncio_helper.py:290-314 | a stream has one decomposition into records, and any cutting into records is a prefix of it |
| Tls.RecordMeans | wsnet/pyodide/asyncio_helper.py:290-293 | a record is a header of five bytes and as many bytes as its last two say |
| Tls.DrainIsRecords | wsnet/pyodide/asyncio_helper.py:400-404 | what the loop writes and leaves is the record decomposition of its buffer, save an empty record of 5 bytes at its end |
| Tls.TerminatesExactly | wsnet/pyodide/asyncio_helper.py:400-404 | the record loop ends exactly on buffers whose record decomposition leaves at most 5 bytes |
| Tls.SpinsExactly | wsnet/pyodide/asyncio_helper.py:396-404 | a message of the data phase makes the connection spin exactly when more than 5 bytes of a partial record are left |
| Tls.ConnectionSpins | wsnet/pyodide/asyncio_helper.py:396-404 | a run from the start of the handshake that ends spinning |
| Tls.StuckForEver | wsnet/pyodide/asyncio_helper.py:400-404 | on a partial record of more than 5 bytes no number of passes changes anything |
| Tls.PartialRecordSpins | wsnet/pyodide/asyncio_helper.py:400-404 | a buffer on which it does not end |
| Tls.DrainCuts | wsnet/pyodide/asyncio_helper.py:400-404 | what the loop writes followed by what it leaves is its buffer, and it writes whole records |
| Tls.StepConserves | wsnet/pyodide/asyncio_helper.py:287-404 | every answer of the engine and every message keeps written and carried bytes equal to those received |
| Tls.AnswerMeans | wsnet/pyodide/asyncio_helper.py:331-371 | success of the engine takes just the bytes carried into the data phase; otherwise a whole record carried goes to the engine, a partial one waits in the first receive, nothing in the second |
| Tls.ReceiveMeans | wsnet/pyodide/asyncio_helper.py:294-360 | up to 5 bytes wait; a whole first record goes to the engine and the next pass begins; a partial one or an exception in the first receive leads to the second |
| Tls.BreaksExactly | wsnet/pyodide/asyncio_helper.py:287-375 | a run has ended in an exception exactly when one of its events is an abort, a fault in the second receive or the data phase, or a message that leaves the second receive with more than 5 bytes and no whole record |
| Tls.HandshakeHandsOver | wsnet/pyodide/asyncio_helper.py:363-371 | in every run whose handshake succeeds the data phase begins with just the bytes not given to the engine |
| Tls.OneRecordPerPass | wsnet/pyodide/asyncio_helper.py:329-360 | while a handshake goes on, the engine has got one record for every time it asked, or waits for it |
| Tls.DriveIsRun | wsnet/pyodide/asyncio_helper.py:328-371 | the handshake loop is a run that takes answers and messages in order and stops only for a missing one or at its end |
| Tls.FeedIsRun | wsnet/pyodide/asyncio_helper.py:377-404 | the data phase is a run that takes the messages in order until there are none or it is over |
| Tls.SplitterIsFaithful | wsnet/pyodide/asyncio_helper.py:287-404 | over handshake and data phase the bytes written followed by those carried are those received, each write is one record, and the writes are a prefix of the stream's decomposition |
| Tls.DataPhaseKeepsUp | wsnet/pyodide/asyncio_helper.py:396-404 | after a message of the data phase everything whole has been written, save an empty record of 5 bytes, which is then all that is carried |
| Tls.DriveConserves | wsnet/pyodide/asyncio_helper.py:328-371 | a handshake run over any answers and messages conserves the bytes |
| Tls.FeedConserves | wsnet/pyodide/asyncio_helper.py:377-404 | a data phase run over any messages conserves the bytes |
| Tls.TlsConnection.SslRecvOne | wsnet/pyodide/asyncio_helper.py:287-318 | a whole record and the rest, or none and everything, or nothing after an exception |
| Tls.TlsConnection.DoHandshake | wsnet/pyodide/asyncio_helper.py:320-375 | the loop moves through the phases of the machine as engine and queue dictate |
| Tls.TlsConnection.RecordLoop | wsnet/pyodide/asyncio_helper.py:400-404 | the loop writes the drained records and leaves the rest, and spins exactly when it does not terminate |
| Tls.TlsConnection.HandlerInSsl | wsnet/pyodide/asyncio_helper.py:377-404 | the data phase feeds every message to the machine, starting from what the handshake left |

## Left out

- Message types outside the seventeen modelled, `WSNProcessInfo` among them. The router's model allows for them; elsewhere a frame of another type counts as one that does not decode.
- Tokens given as text: tokens are bytes, as the generators in the source make them.
- IPv6 scope ids, the text parser of `ipaddress`, and host names whose text is an address: an address is a parsed value or a name.
- Digits and white space outside ASCII in `int()`, and its limit on the number of digits.
- The TLS engine and what it writes: only the bytes fed to it and carried over are modelled; its answers are arbitrary. The disconnect event ends a run at any point.
- Tls.TlsConnection.DoHandshake: is run up to the first answer or message that is missing; resuming it there is modelled by the machine, not by the method. What the engine writes meanwhile is not part of it.
- Tls.TlsConnection.HandlerInSsl: does not read the decrypted data and hand it to the protocol.
- Client.ConnectionHandlerOut: does not check the disconnect event, and has no websocket that refuses a frame, after which the source sends OK as well.
- Chunker.SendSocketData: does not wait for the websocket to open, and has none that refuses a frame, for which the source returns False.
- Client.WSNETWSInterface.Terminate: does not destroy the proxies or close the websocket.
- Server shutdown (`wsnet/agent/agent.py:748-750`) is modelled as calls of stop on any connections; that its loop raises when a connection leaves meanwhile is not.
- The frames a listening server sends when it closes (`wsnet/pyodide/tcpserver.py:234-246`): its close is the step that puts a fault into every queue.
- `terminate` of a listening server, which awaits the result of a plain call and raises.
- Tunnel.TunnelDelivers: says nothing of tunnels taken out of the dispatch table; timeouts do that to a tunnel.
- The handshake of a TLS connection sends its own data frames; the sending tasks of module TunnelWrite are those of plain connections.
- Router.OPServer.HandleFrame: does not answer LISTAGENTS, which leaves the router's state alone; the listing iterates a dictionary that may change between its sends.
- Router.OPServer.HandleSignal: does not notify the operators of an arrival, whose loop may delete from the dictionary it iterates. An operator it drops leaves in a step of its own.
- Reverse operators of the router, which are operators like any other.
- Files whose writes the platform buffers: a write is visible at once, so a handle that reads while another writes sees more than it may in the source. Writing and reading in turn is not affected.
- A limit on file sizes below the largest file offset, file deletion and renaming, and errors other than a path that cannot be opened, a wrong mode, a missing handle and an offset out of range.
- Timeouts of file requests and replies that arrive after one: every request is answered or raises.
- RemoteFile.WSNETFile.WriteAll: takes bytes; the source encodes text first.
- FileAgent.FileService.ProcessFileop: does not say what an ERR reply tells, and has no directory commands.
- Directory operations, process operations, name resolution, certificates, UDP and multicast binding, authentication sessions, the fake address tables and argument parsing.
- SMB pipe framing, whose reader takes four bytes too many.
