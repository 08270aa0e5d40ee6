# sacrificial-socket, modelled in Dafny

sacrificial-socket is a Go WebSocket server with a small JavaScript
client. Both sides exchange named events over the `sac-sock` WebSocket
sub-protocol:

- A server frame is `name SOH flag STX payload`. The flag is `S` (string), `B` (bytes) or `J` (JSON).
- A client frame is `name STX payload`. It is sent as text, or as a binary buffer when the payload is an `ArrayBuffer`.
- A hub goroutine owns the socket table and the rooms. It delivers roomcasts and broadcasts to local sockets.
- A hub can have one "multihome" backend, which forwards roomcasts and broadcasts to other server instances. The Redis backend carries them as a JSON `transmission` record. The gRPC backend sends them to peers over mutually authenticated connections, with bearer tokens signed by a shared key.
- A small logging package offers colour and JSON formatters gated by level bits.

This project models each of these parts in the form the code has:

- Pure functions become Dafny functions with their properties proved as lemmas.
- Loops become methods with invariants.
- Objects whose fields are updated become classes with `modifies` frames.

| file | models |
|---|---|
| `server.dfy` | `server.go`: frame constants, the read loop's frame parse and dispatch, handler registration, sub-protocol check |
| `hub.dfy` | `hub.go`: the hub's socket table, rooms, roomcast/broadcast delivery and backend forwarding |
| `socket.dfy` | `socket.go`: socket IDs, `emitData`, room membership, `Close` |
| `clientcodec.dfy` | the client's frame decoder (text and binary) and encoder |
| `client.dfy` | the client object: option merging, handler registry, `emit`, `close`, the reconnect state machine |
| `wire.dfy` | lemmas joining both ends: server frames decode in the client, client frames parse in the server |
| `transmission.dfy` | `backend/ssredis/transmission.go` |
| `grpc_backend.dfy`, `grpc_server.dfy`, `token.dfy`, `cred.dfy` | the gRPC backend, its server side, its tokens and its per-RPC credentials |
| `log.dfy`, `log_stdout.dfy`, `log_json.dfy`, `log_default.dfy` | the `log` package |
| `wrappers.dfy`, `seqs.dfy`, `text.dfy`, `utf8.dfy`, `base64.dfy`, `godata.dfy` | shared definitions: `Option`/`Result`, sequence lemmas, bytes and Latin-1 text, UTF-8 (RFC 3629), standard base64 (section 4 of RFC 4648), Go values |

Libraries the code calls without defining them become function parameters of the model:

- `encoding/json` and `JSON.parse` / `JSON.stringify`;
- jose signing;
- gRPC dialling;
- the clock and `runtime.Caller`.

The properties a library promises, such as "unmarshal inverts marshal", become `requires` clauses of the lemmas that need them.

The JavaScript client's edge cases are modelled as the code handles them:

- A server-bound frame without STX has an empty event name and is dropped (`server.go:171-183`). A client-bound text frame without STX is still dispatched, with the empty string as payload (`examples/not-so-simple-examples/redis-multihome/webroot/js/sacrificial-socket.js:53-74`).
- When `JSON.parse` throws on a `J` frame, no handler runs (`examples/not-so-simple-examples/redis-multihome/webroot/js/sacrificial-socket.js:97`).
- `emit` refuses to send only in `readyState` 0, 2 and 3 (`examples/not-so-simple-examples/redis-multihome/webroot/js/sacrificial-socket.js:199-206`).
- A reconnect timer already pending when `close()` is called still creates a new socket when it fires (`examples/not-so-simple-examples/redis-multihome/webroot/js/sacrificial-socket.js:106-125` and `examples/not-so-simple-examples/redis-multihome/webroot/js/sacrificial-socket.js:235-237`).

## Model

| member | source | states |
|---|---|---|
| Server.ParseFrame | server.go:171-183 | a frame has an event exactly when it holds STX and does not start with it; then the message is name, STX, payload, with a non-empty, STX-free name |
| Server.ParseFrameInverse | server.go:171-183 | any non-empty STX-free name followed by STX and any payload parses back to exactly that name and payload |
| Server.ScanFrame | server.go:174-180 | the byte loop yields the empty name exactly when there is no event, and otherwise the name and the index just after the first STX |
| Server.ProtocolSupported | server.go:195-202 | the handshake accepts exactly when `sac-sock` is among the offered sub-protocols |
| Server.SocketServer.constructor | server.go:44-52 | a new server has a fresh, empty hub without a backend, and no handlers |
| Server.SocketServer.On | server.go:100-102 | registering a handler replaces any earlier one for that event name and changes nothing else |
| Server.SocketServer.OnConnect | server.go:106-108 | the connect slot holds the last handler given |
| Server.SocketServer.OnDisconnect | server.go:112-114 | the disconnect slot holds the last handler given |
| Server.SocketServer.Dispatch | server.go:171-191 | a handler runs exactly when the frame has an event registered with the server; it is called with the payload after the first STX |
| Hub.RemoveMember | hub.go:99-105 | leaving an unknown room changes nothing; otherwise the room keeps its other members and is deleted exactly when the socket was its last one; every other room is untouched |
| Hub.AddMember | hub.go:94-98 | after a join the room exists, keeps its earlier members and maps the ID to the socket; a missing room is created with the socket alone; every other room is untouched |
| Hub.AddMemberNoEmptyRooms | hub.go:94-98 | joining keeps every room non-empty |
| Hub.RemoveMemberNoEmptyRooms | hub.go:99-105 | leaving keeps every room non-empty, because an emptied room is deleted |
| Hub.RemoveAbsentMember | hub.go:99-105 | leaving a room one is not in, or that does not exist, changes nothing |
| Hub.JoinThenLeave | hub.go:94-105 | a join by a non-member followed by the leave restores the rooms exactly |
| Hub.LeaveAll | socket.go:177-181 | after leaving a set of rooms the socket is in none of them |
| Hub.LeaveNone | socket.go:177-181 | leaving no rooms changes nothing |
| Hub.LeaveOneMore | socket.go:179-181 | leaving rooms one at a time equals leaving the whole set at once |
| Hub.EmitOneMore | hub.go:108-110 | one more emission to a pending member keeps the delivery loop's account |
| Hub.EmittedAll | hub.go:108-110 | when the delivery loop finishes, every member got exactly one emission and nobody else got any |
| Hub.Hub.constructor | hub.go:142-162 | a new hub has no sockets, no rooms, no backend, and has emitted and forwarded nothing |
| Hub.Hub.SetMultihomeBackend | hub.go:73-85 | only the first backend is installed, and later calls keep it; afterwards multihome is on and nothing else changes |
| Hub.Hub.AddSocket | hub.go:90-91 | the socket table maps the ID to the socket, and every other entry is unchanged |
| Hub.Hub.RemoveSocket | hub.go:92-93 | the ID is removed from the socket table, and every other entry is unchanged |
| Hub.Hub.JoinRoom | hub.go:94-98 | the rooms become `AddMember` of the old rooms, and no room is ever empty |
| Hub.Hub.LeaveRoom | hub.go:99-105 | the rooms become `RemoveMember` of the old rooms, and no room is ever empty |
| Hub.Hub.EmitToAll | hub.go:108-110 | the appended emissions reach each socket of the set exactly once, with the event and data |
| Hub.Hub.Roomcast | hub.go:106-114 | each member of an existing room gets the event exactly once, and nobody gets it for a missing room; the message goes to the backend exactly when multihome is on |
| Hub.Hub.RoomcastFromBackend | hub.go:115-120 | members of the room get the event exactly once, and nothing is forwarded back |
| Hub.Hub.Broadcast | hub.go:121-127 | every registered socket gets the event exactly once; the message goes to the backend exactly when multihome is on |
| Hub.Hub.BroadcastFromBackend | hub.go:128-131 | every registered socket gets the event exactly once, and nothing is forwarded back |
| Hub.Hub.SocketList | hub.go:132-137 | the shutdown list holds one entry per registered ID, and holds exactly the registered sockets |
| Socket.NewSocketID | socket.go:51-55 | an ID is 32 characters of unpadded standard base64 that decodes back to the 24 random bytes |
| Socket.EmitData | socket.go:130-159 | every outgoing frame is name, SOH, type flag, STX, payload; byte slices go out as binary messages and everything else as text |
| Socket.EmitDataMarshalFailure | socket.go:148-157 | a value that cannot be marshalled still yields a `J` text frame that ends right after STX |
| Socket.Socket.constructor | socket.go:37-49 | a new socket is open, in no room, has the base64 ID of its random bytes, and is registered with the hub under that ID |
| Socket.Socket.GetRooms | socket.go:77-86 | the list holds exactly the socket's rooms, each once |
| Socket.Socket.Join | socket.go:90-95 | the socket is in the room, and the hub's rooms gain the socket under its ID |
| Socket.Socket.Leave | socket.go:100-105 | the socket is no longer in the room, the hub's rooms lose it, and leaving a room not joined leaves the hub as it was |
| Socket.Socket.Close | socket.go:163-189 | a second close does nothing; the first closes the connection, leaves every room, and returns the disconnect handler to run while the socket is still registered with the hub |
| Socket.Socket.Unregister | socket.go:191 | after the disconnect handler, the hub forgets the socket and keeps its rooms and everything else |
| ClientCodec.FoldTextClosed | examples/not-so-simple-examples/redis-multihome/webroot/js/sacrificial-socket.js:61-74 | reading a text message character by character yields the closed forms: the name before the first SOH or STX, the flags between SOH and STX, and the payload after STX |
| ClientCodec.NameByHead | examples/not-so-simple-examples/redis-multihome/webroot/js/sacrificial-socket.js:63-70 | the name and the flags depend only on the text before the first STX |
| ClientCodec.PrefixStep | examples/not-so-simple-examples/redis-multihome/webroot/js/sacrificial-socket.js:63-68 | before STX a character extends the name, or the flags once SOH has been seen |
| ClientCodec.StopsAtData | examples/not-so-simple-examples/redis-multihome/webroot/js/sacrificial-socket.js:69-70 | the first STX settles the name and the flags |
| ClientCodec.DataStepSettled | examples/not-so-simple-examples/redis-multihome/webroot/js/sacrificial-socket.js:71-73 | after STX the name and the flags never change |
| ClientCodec.DataStepPayload | examples/not-so-simple-examples/redis-multihome/webroot/js/sacrificial-socket.js:65-73 | after STX every character goes to the payload, except a first SOH when none came before STX |
| ClientCodec.TextDataAfter | examples/not-so-simple-examples/redis-multihome/webroot/js/sacrificial-socket.js:65-73 | the payload is the text after the first STX, with the first SOH removed when no SOH preceded STX |
| ClientCodec.NoDataParts | examples/not-so-simple-examples/redis-multihome/webroot/js/sacrificial-socket.js:61-74 | without STX the text is name and flags, and the payload is empty |
| ClientCodec.DecodeText | examples/not-so-simple-examples/redis-multihome/webroot/js/sacrificial-socket.js:57-74 | the text loop computes the decoded name, flags and payload of the whole message |
| ClientCodec.DecodeBinary | examples/not-so-simple-examples/redis-multihome/webroot/js/sacrificial-socket.js:75-93 | the byte loop computes the name and flags read one character per byte, stops at the first STX and keeps the bytes after it as a buffer |
| ClientCodec.BinaryStopsAtData | examples/not-so-simple-examples/redis-multihome/webroot/js/sacrificial-socket.js:88-91 | at the first STX the decoded binary frame is settled: the name and flags so far and the remaining bytes |
| ClientCodec.DecodeTextHeaderFrame | examples/not-so-simple-examples/redis-multihome/webroot/js/sacrificial-socket.js:57-74 | a text frame `name SOH flags STX payload` decodes to exactly that name, the set of flag characters and the payload |
| ClientCodec.DecodeTextNoData | examples/not-so-simple-examples/redis-multihome/webroot/js/sacrificial-socket.js:53 | a text frame without STX carries the empty string |
| ClientCodec.DecodeTextNoHeader | examples/not-so-simple-examples/redis-multihome/webroot/js/sacrificial-socket.js:57-74 | a frame `name STX payload` without SOH decodes to no flags, with a first SOH in the payload dropped |
| ClientCodec.DecodeBinaryHeaderFrame | examples/not-so-simple-examples/redis-multihome/webroot/js/sacrificial-socket.js:75-93 | a binary frame `name SOH flags STX payload` decodes to the name and flags read byte by byte and exactly the payload bytes |
| ClientCodec.EncodeBinary | examples/not-so-simple-examples/redis-multihome/webroot/js/sacrificial-socket.js:208-221 | the buffer written byte by byte has length name + 1 + data, and is the name's low bytes, STX, then the data |
| ClientCodec.EmitFrame | examples/not-so-simple-examples/redis-multihome/webroot/js/sacrificial-socket.js:207-226 | an `ArrayBuffer` becomes a binary frame and anything else a text frame; a string is sent as name, STX, string and an object as name, STX, its JSON; nothing is sent when `JSON.stringify` throws |
| Client.OwnPropsMeaning | examples/not-so-simple-examples/redis-multihome/webroot/js/sacrificial-socket.js:38-41 | a user option is taken exactly when some own property has its key, and the last such property's value wins |
| Client.MergeReconnectOpts | examples/not-so-simple-examples/redis-multihome/webroot/js/sacrificial-socket.js:24-42 | the merged options are the defaults overridden by the user's own properties |
| Client.SS.constructor | examples/not-so-simple-examples/redis-multihome/webroot/js/sacrificial-socket.js:19-46 | a new client has the merged options, no events, one connecting `arraybuffer` socket with no-op connect and disconnect slots, and nothing sent or pending |
| Client.SS.OnConnect | examples/not-so-simple-examples/redis-multihome/webroot/js/sacrificial-socket.js:134-143 | only the live socket's `onopen` slot changes |
| Client.SS.OnDisconnect | examples/not-so-simple-examples/redis-multihome/webroot/js/sacrificial-socket.js:152-163 | only the live socket's `onclose` slot changes |
| Client.SS.On | examples/not-so-simple-examples/redis-multihome/webroot/js/sacrificial-socket.js:175-177 | the last registration for a name wins |
| Client.SS.Off | examples/not-so-simple-examples/redis-multihome/webroot/js/sacrificial-socket.js:185-189 | the name is forgotten, and an unknown name changes nothing |
| Client.SS.Emit | examples/not-so-simple-examples/redis-multihome/webroot/js/sacrificial-socket.js:198-228 | nothing is sent unless the socket is open; otherwise exactly the encoded frame goes to the live socket, or nothing when `JSON.stringify` throws |
| Client.SS.Close | examples/not-so-simple-examples/redis-multihome/webroot/js/sacrificial-socket.js:235-238 | reconnecting is switched off for good, and a connecting or open socket starts closing |
| Client.SS.TransportOpen | examples/not-so-simple-examples/redis-multihome/webroot/js/sacrificial-socket.js:135-142 | an opened socket marks the client connected and not reconnecting, and runs the user's connect callback if one is set |
| Client.SS.TransportClose | examples/not-so-simple-examples/redis-multihome/webroot/js/sacrificial-socket.js:153-162 | the disconnect callback runs only after a connection and when not already reconnecting; a reconnect timer is scheduled exactly when reconnecting is enabled, so never after `close()` |
| Client.SS.TimerFire | examples/not-so-simple-examples/redis-multihome/webroot/js/sacrificial-socket.js:106-125 | a fired timer creates a new connecting socket that inherits the message, close and binary-type settings, and the connect slot unless replay is off after a first connection |
| Client.SS.Receive | examples/not-so-simple-examples/redis-multihome/webroot/js/sacrificial-socket.js:95-97 | a handler runs only for a non-empty registered name, with the parsed JSON when the `J` flag is set (nothing when parsing throws) and the raw payload otherwise |
| Wire.ServerTextFrameDecodes | socket.go:130-159 | a text frame the server emits decodes in the client to the event name, exactly its one type flag, and the payload text |
| Wire.TextFrameArrives | socket.go:130-159 | the UTF-8 of a server text frame decodes to the name, SOH, the flag, STX and the payload text |
| Wire.SingleFlagDecodes | examples/not-so-simple-examples/redis-multihome/webroot/js/sacrificial-socket.js:57-74 | a one-flag header frame decodes to exactly that name, flag and payload |
| Wire.EncodeHeaderFrame | socket.go:132-139 | the UTF-8 of a header frame is the UTF-8 of its parts around the three ASCII bytes |
| Wire.ServerBinaryFrameDecodes | socket.go:142-146 | a binary frame the server emits is a binary message that the client decodes to the name read byte by byte, the `B` flag and exactly the payload bytes |
| Wire.BinaryNamesAreLatin1 | examples/not-so-simple-examples/redis-multihome/webroot/js/sacrificial-socket.js:82-83 | in a binary frame, any event name with a non-ASCII character reaches the client as a different string of Latin-1 characters |
| Wire.AsciiNamesAgree | examples/not-so-simple-examples/redis-multihome/webroot/js/sacrificial-socket.js:83 | an ASCII name reads the same byte by byte as in UTF-8 |
| Wire.ClientTextFrameParses | server.go:171-183 | a client text frame parses on the server to the UTF-8 name and the UTF-8 payload |
| Wire.ClientBinaryFrameParses | server.go:171-183 | a client binary frame parses on the server to the name's low bytes and exactly the data |
| Wire.BinaryNameTruncatesToStx | examples/not-so-simple-examples/redis-multihome/webroot/js/sacrificial-socket.js:213-216 | when some name character's low byte is STX, the server cuts the frame there: if it is the first character the frame is dropped, otherwise the name before it is dispatched, with the rest of the name, STX and the data as the payload |
| RedisTransmission.GetDataType | backend/ssredis/transmission.go:73-87 | the tag is one of string, bytes and JSON, and it is bytes exactly for a byte slice |
| RedisTransmission.RoundTrip | backend/ssredis/transmission.go:31-71 | when the JSON codec round-trips the record, decoding restores the event, room and server names and yields the data `getDataType` classified |
| RedisTransmission.TagCheckedFirst | backend/ssredis/transmission.go:45-51 | a record with neither tag nor event name fails as a bad data type, not as a missing name |
| RedisTransmission.UnknownTagAccepted | backend/ssredis/transmission.go:58-70 | an unknown non-zero tag is accepted without setting the data |
| RedisTransmission.Transmission.constructor | backend/ssredis/transmission.go:22-29 | a new record has zero fields and nil data |
| RedisTransmission.Transmission.ToJSON | backend/ssredis/transmission.go:31-37 | the record is tagged and given its base64 payload, then marshalled |
| RedisTransmission.Transmission.FromJSON | backend/ssredis/transmission.go:39-71 | a JSON error is returned as such; otherwise the fields are read and the data is decoded by tag, with the bad-tag, missing-name and base64 errors in that order |
| GrpcBackend.GetDataType | backend/ssgrpc/ssgrpc.go:214-228 | the type is one of STR, BIN and JSON, and it is BIN exactly for a byte slice |
| GrpcBackend.ParsePeer | backend/ssgrpc/ssgrpc.go:74-82 | a parsed peer's host and name never contain `@` |
| GrpcBackend.ParsePeerWithName | backend/ssgrpc/ssgrpc.go:74-78 | `cn@host` gives exactly that name and host |
| GrpcBackend.ParsePeerWithoutName | backend/ssgrpc/ssgrpc.go:78-82 | without `@` the whole string is dialled, and the name is its part before the first `:` |
| GrpcBackend.ParsePeerWithManyAts | backend/ssgrpc/ssgrpc.go:74-82 | with two or more `@` the host dialled is the text before the first `@` |
| GrpcBackend.DialCredentials | backend/ssgrpc/ssgrpc.go:84-97 | an insecure dial has no TLS and no tokens, and a secure one has both |
| GrpcBackend.Backend.NewBackend | backend/ssgrpc/ssgrpc.go:37-48 | a TLS backend keeps its key files, shared key, address and peer list, and has no peer connected |
| GrpcBackend.Backend.NewInsecureBackend | backend/ssgrpc/ssgrpc.go:55-63 | an insecure backend has no key material and no peer connected |
| GrpcBackend.Backend.ConstructClient | backend/ssgrpc/ssgrpc.go:65-107 | a failed dial exits and changes no peer; a successful one stores the client under the host, dialled with the backend's credentials |
| GrpcBackend.BroadcastRequest | backend/ssgrpc/ssgrpc.go:152-159 | the request carries the timestamp, the event name, and the data as bytes with a type tag that is BIN exactly for a byte slice |
| GrpcBackend.RoomcastRequest | backend/ssgrpc/ssgrpc.go:175-183 | as for broadcasts, with the room name kept |
| GrpcServer.CheckCreds | backend/ssgrpc/server.go:34-59 | insecure servers accept all; otherwise a missing context, a missing or repeated authorization value, and a bad bearer value are rejected, and acceptance means the token validated |
| GrpcServer.SplitBearer | backend/ssgrpc/server.go:48-52 | a header whose token has no space splits into `Bearer` and that token |
| GrpcServer.BearerMetadataChecked | backend/ssgrpc/server.go:34-59 | a well-formed bearer header is accepted exactly when its token validates, and otherwise fails with the validation's error |
| GrpcServer.SpacedTokenRejected | backend/ssgrpc/server.go:48-52 | a token containing a space is a bad bearer value |
| GrpcServer.DataRoundTrip | backend/ssgrpc/server.go:78-92 | data sent through `getDataType` is delivered as the same bytes, string or unmarshalled JSON |
| GrpcServer.PropagateServer.constructor | backend/ssgrpc/ssgrpc.go:130 | a new server has both channels nil and nothing delivered |
| GrpcServer.PropagateServer.OpenBroadcastChannel | backend/ssgrpc/ssgrpc.go:200-204 | the broadcast channel is set |
| GrpcServer.PropagateServer.OpenRoomcastChannel | backend/ssgrpc/ssgrpc.go:208-212 | the roomcast channel is set |
| GrpcServer.PropagateServer.DoBroadcast | backend/ssgrpc/server.go:61-104 | the result echoes the timestamp and reports success exactly when there is no error; a message is delivered only with valid credentials, a set channel and decodable data |
| GrpcServer.PropagateServer.DoRoomcast | backend/ssgrpc/server.go:106-147 | as for broadcasts, on the roomcast channel and with the room name kept |
| GrpcServer.BroadcastArrives | backend/ssgrpc/ssgrpc.go:152-172 | a broadcast sent to an insecure peer whose channel is set is accepted with the caller's timestamp, and delivered with the same event and the data the peer decodes |
| GrpcServer.RoomcastArrives | backend/ssgrpc/ssgrpc.go:175-196 | a roomcast sent to an insecure peer whose channel is set is accepted with the caller's timestamp, and delivered with the same room, event and the data the peer decodes |
| Token.UnixSeconds | backend/ssgrpc/token/token.go:34 | the Unix time is the whole seconds at or before the instant |
| Token.MonotoneSeconds | backend/ssgrpc/token/token.go:34 | later instants never have smaller Unix seconds |
| Token.GenUserToken | backend/ssgrpc/token/token.go:31-38 | the claims name the user and expire at the Unix second of now plus the lifetime; signing fails exactly when jose fails |
| Token.ValidateUserToken | backend/ssgrpc/token/token.go:43-64 | a token is valid exactly when it decodes, unmarshals, names a user and an expiry, and has not expired; each failure gives its own error, in that order |
| Token.GenThenValidate | backend/ssgrpc/token/token.go:31-64 | a generated token validates to its claims until its expiry second, and is expired after it |
| Token.FreshTokenValid | backend/ssgrpc/token/token.go:31-64 | a token with a non-negative lifetime is valid in the second it was made |
| GrpcCred.RefreshedExpiry | backend/ssgrpc/cred.go:32-36 | a refreshed token expires exactly 3600 seconds after the current Unix second |
| GrpcCred.RefreshedTokenAccepted | backend/ssgrpc/cred.go:18-52 | the metadata of a refreshed token passes the server's credential check for the next hour |
| GrpcCred.PerRPCCreds.constructor | backend/ssgrpc/ssgrpc.go:93 | the credentials start with no cached token |
| GrpcCred.PerRPCCreds.GetRequestMetadata | backend/ssgrpc/cred.go:18-52 | a new token is made when the cached one is within 300 seconds of expiry; a successful one is cached with an expiry one hour ahead and sent as `Bearer` metadata; a failure returns its error, empty metadata and the old cache |
| GrpcCred.PerRPCCreds.RequireTransportSecurity | backend/ssgrpc/cred.go:54-56 | the token is only sent over TLS |
| Log.BaseLevels | log/log.go:7-35 | the base levels are four distinct single bits, and they are the levels with names |
| Log.CanLog | log/std-out.go:90-92 | a formatter writes exactly when its level's bits are contained in the allowed level |
| Log.CombinedLevels | log/log.go:14-19 | Std lets all but debug through, Warn warnings and errors, Err errors, Dbg everything, None nothing |
| Log.CanLogMonotone | log/json.go:36-38 | widening the allowed level never silences a formatter |
| Log.Writer.Write | log/std-out.go:158 | a write appends the bytes to the output |
| LogStdout.PadStr | log/std-out.go:173-182 | the result is the string followed by spaces up to the length, and is never shortened |
| LogStdout.Record | log/std-out.go:94-105 | every record written ends in a newline |
| LogStdout.ColorLogFmt.constructor | log/std-out.go:73-88 | the prefix is the level name padded to six bytes; every level but INFO also logs the caller's file |
| LogStdout.ColorLogFmt.SetColor | log/std-out.go:153-159 | the colour code is written only when colour is enabled |
| LogStdout.ColorLogFmt.WriteColored | log/std-out.go:107-121 | a record is written between the colour and the reset, or alone without colour |
| LogStdout.ColorLogFmt.DoPrint | log/std-out.go:107-122 | a fatal kind writes in the error colour whatever the level and exits with status 1; a print kind writes in its level's colour only when the level allows it |
| LogJson.NewJLog | log/json.go:46-64 | the record keeps the message, level, fatal mark and time, with file `???` and line -1 when the caller is unknown |
| LogJson.TrimNewlines | log/json.go:71 | only trailing newlines are removed, all of them |
| LogJson.TrimNewlinesIdempotent | log/json.go:71 | trimming twice is trimming once |
| LogJson.TrimNewlinesAppend | log/json.go:91-92 | a message with any number of newlines appended trims to the same record |
| LogJson.Marshal | log/json.go:22-28 | a record JSON can encode is its encoding; otherwise it is the hand-built object holding the error, the line and the file |
| LogJson.JsonLogFmt.constructor | log/json.go:121-144 | a formatter keeps its writer, its allowed level and its own level |
| LogJson.JsonLogFmt.Line | log/json.go:40-44 | every record ends in a newline |
| LogJson.JsonLogFmt.LineIsOneLine | log/json.go:22-44 | a record is exactly one line: its only newline is the last byte, as long as the JSON encoding, the encoder's error text and the caller's file name hold no raw newline |
| LogJson.JsonLogFmt.WriteJLog | log/json.go:40-44 | one line is appended, labelled with the formatter's level name |
| LogJson.JsonLogFmt.Print | log/json.go:66-95 | when the level allows it, exactly one non-fatal record of the trimmed message is written, and nothing otherwise |
| LogJson.JsonLogFmt.Fatal | log/json.go:97-119 | whatever the level, one fatal record is written, then the program exits with status 1 |
| LogDefault.NewLogger | log/std-out.go:45-63 | a colour or plain logger has one formatter per base level, all sharing the writer and allowed level |
| LogDefault.NewJSONLogger | log/json.go:121-152 | a JSON logger has one formatter per base level, all sharing the writer and allowed level |
| LogDefault.Globals.constructor | log/log.go:22-28 | the default logger is a colour logger on standard output at the debug level, and the exposed formatters are its own |
| LogDefault.Globals.SetDefaultLogger | log/log.go:42-48 | the default logger and all four exposed formatters become the given logger's |
| Base64.DecodeEncode | socket.go:54 | decoding the standard base64 of any bytes gives them back |
| Base64.EncodeLength | socket.go:54 | base64 takes four characters per three bytes, rounded up |
| Utf8.DecodeEncode | socket.go:132 | decoding the UTF-8 of any string of scalar values gives it back |
| Utf8.EncodeLonger | socket.go:132 | the UTF-8 of a string with a non-ASCII character is longer than the string |

## Left out

- Concurrency is not modelled: goroutines, channels and mutexes are absent. Each hub `select` case is one atomic method, and the server's handler goroutines are returned calls.
- Network I/O is not modelled: `WebHandler`, the read loop's `receive`, `Socket.Emit`'s write, and the gRPC server's listener. The read loop is modelled as `Dispatch` on one received message.
- `Shutdown` and `EnableSignalShutdown` in `server.go` are left out, because they consist only of channel sends, OS signals and calls into the backend. The hub's half of shutdown is `SocketList`.
- The multihome `Init` is left out, because it only starts listeners and dials peers. So is the loop in `BroadcastToBackend` and `RoomcastToBackend` that sends the request to each peer. The request each peer gets is modelled, as `BroadcastRequest` and `RoomcastRequest`, and its delivery as `BroadcastArrives` and `RoomcastArrives`.
- `encoding/json`, jose, `JSON.parse`, `JSON.stringify` and gRPC dialling are parameters. Their promises appear only as lemma preconditions.
- `roundTrip` floating point is not modelled. Timestamps are parameters.
- `fmt` formatting is not modelled: `Print`, `Printf` and `Println` take the message already formatted. The standard logger's date, time and file header is a parameter. `os.Exit` is a returned status, and `runtime.Caller` is a parameter.
- GrpcCred.PerRPCCreds.GetRequestMetadata: the two clock reads of `cred.go` are collapsed into one instant.
- RedisTransmission.Transmission.FromJSON: the fields a failed `json.Unmarshal` may have partly filled in are not modelled; on that error the model leaves the record unchanged.
- ClientCodec.EncodeBinary: a model character is a Unicode scalar value, while a JavaScript string is a sequence of UTF-16 code units. A character outside the Basic Multilingual Plane is one character in the model but two code units in the client. So `EncodeBinary`, `EmitFrame` and `Client.SS.Receive` follow the client only for names and payloads made of Basic Multilingual Plane characters.
- Client.SS.Receive: JavaScript numbers are integers only.
- Client.SS.Receive: the client's `events` table is a plain object, so a name such as `toString` or `__proto__` finds a function inherited from `Object.prototype` even when nothing was registered. The model's table is a map with nothing inherited, and `On`, `Off` and `Receive` see only registered names.
- Blob frames (the client supports only `arraybuffer`) are left out, as are the `intervalMS` timing and console logging. The text a browser decodes from a text frame is modelled by UTF-8 decoding.
- Hub.Hub.EmitToAll: the order of emissions follows Go's unspecified map order. The model states which sockets get each event, not in what order.
- `backend/ssmongo`, `backend/ssdummy`, the Redis publish and subscribe plumbing of `ssredis.go`, `rng.go`, the example applications and `client/ng-ss.js` are not part of this model.
