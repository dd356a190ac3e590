# OSCAR server core, modelled in Dafny

This project models the protocol engine of an AIM/OSCAR server written in Go, plus the TypeScript codec of its earlier prototype, and proves properties of that model.

The Go side covers:

- **Wire structures.** The cursor `Buffer` (oscar/buf.go), type-length-value records (oscar/tlv.go), the SNAC envelope (oscar/snac.go) and the FLAP frame (flap.go).
- **Connection handling.** The session and its sequence counter, the session and service registries, the loop that cuts FLAP frames out of the byte stream, and the per-frame dispatcher (server.go).
- **Services.** Authorization (0x17), generic service controls (0x01), location (0x02), buddy list (0x03), ICBM (0x04) and feedbag (0x13).
- **Background routines.** Message delivery and online notification.

The TypeScript side covers src/structures: `bytes.ts`, `TLV.ts`, `SNAC.ts` and `FLAP.ts`, together with the Node `Buffer` primitives they call.

## How the pieces fit

- **Wire values.** Bytes are `seq<uint8>`. Go strings are byte strings.
- **Classes where the source mutates state.** The buffer, SNAC, FLAP, session, registries, store and channels are classes, and their methods state the whole new state.
- **Handlers.** Each service handler is a pure `HandleSpec` function returning an effect record: the frames sent, the context and error returned, and what the store and channels receive. An imperative `HandleSNAC` method is proved to have exactly that effect.
- **Properties.** Lemmas about the specification functions state what the source promises: round trips of every encoding, what a client reads back from each reply, loop invariants of the name lists and routines, registry behaviour and counter monotonicity.
- **The connection loop.** `Server.FrameHandler.Handle` runs the loop of server.go:42-113 over what the client offers to each read. It is proved equal to `Server.Run`, a fold of `Server.RoundSpec` passes. The frame and pass functions enter `Run` and `HandleAll` as values, so the lemmas about the loop hold whatever a frame does.
- **Panics.** A Go panic (nil dereference, short slice, `PanicIfError`, `log.Panicf`) is the error `Panic`. The server reports it as `crashed`.
- **Outside inputs.** The network, the SQL database, the clock, MD5, JSON and randomness enter as parameters or as an abstract `Store`.

## Model

| member | source | states |
|---|---|---|
| Util.Word | util/util.go:51-55 | two bytes whose big-endian value is `x` |
| Util.Dword | util/util.go:57-61 | four bytes whose big-endian value is `x` |
| Util.LPString | util/util.go:63-69 | defined exactly when the string has at most 255 bytes (Go panics otherwise); then a length byte followed by the string |
| Util.LPUint16String | util/util.go:71-77 | defined exactly when the string has at most 65535 bytes; then a 2-byte big-endian length followed by the string |
| Util.LPStringExample | util/util_test.go:9-15 | `LPString("toof")` is `04 74 6f 6f 66` |
| Util.LPUint16StringExample | util/util_test.go:17-23 | `LPUint16String("toof")` is `00 04 74 6f 6f 66` |
| Util.SplitBy | util/util.go:13-24 | the loop as written (including the reset `i = 1`) computes the chunk list `Loop(s, 1, n)`; it needs `n != 0` only when the loop body runs |
| Util.LoopConcat | util/util.go:13-24 | for every accepted `n`, the chunks join back to the input string |
| Util.LoopIsChunks | util/util.go:13-24 | for `|n| >= 2`, resuming the scan anywhere before the next multiple of `n` cuts chunks of exactly `|n|` |
| Util.SplitByIsChunks | util/util.go:13-24 | for `|n| >= 2`, `SplitBy` yields chunks of `|n|` bytes and a final remainder |
| Util.ChunksShape | util/util.go:11-12 | every chunk but the last has exactly `m` bytes; the last has at most `m`, and is empty exactly when the input is |
| Util.SplitByUnitShape | util/util.go:13-24 | for `n = ±1` the loop as written yields a one-byte chunk and then two-byte chunks |
| Util.SplitByOneCounterexample | util/util.go:13-24 | `SplitBy("abcde", 1)`, as ASCII bytes, is `["a", "bc", "de"]`, not single bytes |
| Util.SplitByFixed | util/util.go:11-24 | with the reset evidently intended (`i = 0`) the chunks are exactly `Chunks(s, n)` for every positive `n`, and join back to `s` |
| Util.ChunksConcat | util/util.go:11-12 | chunks of `m` join back to the string |
| OscarUtil.Word | oscar/util.go:56-59 | defined exactly when at least two bytes are given (Go's bounds check panics otherwise); the value is `b[0]·256 + b[1]` |
| OscarUtil.DWord | oscar/util.go:61-64 | defined exactly when at least four bytes are given; the value is the big-endian number of the first four |
| OscarUtil.DecodersReadPrefix | oscar/util.go:56-64 | bytes after the first two (four) do not change the decoded value |
| OscarUtil.WordRoundTrip | oscar/util.go:56-59 | decoding `util.Word(x)` followed by anything gives `x` |
| OscarUtil.DWordRoundTrip | oscar/util.go:61-64 | decoding `util.Dword(x)` followed by anything gives `x` |
| OscarUtil.WordInverse | oscar/util.go:56-59 | re-encoding a decoded word gives back the two bytes it was read from |
| OscarUtil.DWordInverse | oscar/util.go:61-64 | re-encoding a decoded dword gives back the four bytes it was read from |
| OscarUtil.SplitByEmpty | oscar/util.go:12-23 | `splitBy("", n)` is one empty chunk for every `n`, including 0 |
| OscarUtil.SplitByJoins | oscar/util.go:12-23 | the chunks returned by `splitBy` join back to the input |
| Wire.Be16RoundTrip | util/util.go:51-55 | reading a big-endian word back from `Word(x)` gives `x`, whatever follows |
| Wire.Be32RoundTrip | util/util.go:57-61 | reading a big-endian dword back from `Dword(x)` gives `x`, whatever follows |
| Wire.Be64RoundTrip | oscar/buf.go:61-68 | reading a big-endian 64-bit value back gives the value written |
| Wire.Uint16AtInverse | oscar/buf.go:43-50 | re-encoding the word read from two bytes gives those bytes |
| Wire.Uint32AtInverse | oscar/buf.go:52-59 | re-encoding the dword read from four bytes gives those bytes |
| Wire.WordsAt | services/0x13_feedbag.go:91-94 | in a run of words written one after another, word `i` sits at bytes `2i..2i+2` |
| Wire.Trunc16 | oscar/tlv.go:25 | Go's `uint16(len(x))` keeps every length below 65536 unchanged |
| Wire.Trunc8 | oscar/buf.go:110-111 | Go's `uint8(len(x))` keeps every length below 256 unchanged |
| Wire.Be16 | oscar/buf.go:91-94 | a word takes two bytes |
| Wire.Be32 | oscar/buf.go:96-99 | a dword takes four bytes |
| Wire.Be64 | oscar/buf.go:101-104 | a 64-bit value takes eight bytes |
| Wire.Words | services/0x13_feedbag.go:91-94 | a run of words takes two bytes per word |
| Wire.WordsSnoc | services/0x13_feedbag.go:92-94 | one more word appends its two bytes |
| Wire.WordsAll | services/0x13_feedbag.go:91-94 | every word of a run sits at twice its index |
| OscarBuffer.Buffer.constructor | oscar/buf.go:10-13 | the zero buffer holds no bytes |
| OscarBuffer.Buffer.Seek | oscar/buf.go:15-23 | drops `n` bytes from the front, or empties the buffer when `n` exceeds its length |
| OscarBuffer.Buffer.Read | oscar/buf.go:25-32 | EOF exactly when more bytes are asked for than remain; otherwise copies the first `len` bytes without consuming them |
| OscarBuffer.Buffer.ReadUint8 | oscar/buf.go:34-41 | EOF exactly on an empty buffer (nothing consumed); otherwise the first byte, consumed |
| OscarBuffer.Buffer.ReadUint16 | oscar/buf.go:43-50 | EOF exactly when fewer than 2 bytes remain; otherwise the big-endian word, 2 bytes consumed |
| OscarBuffer.Buffer.ReadUint32 | oscar/buf.go:52-59 | EOF exactly when fewer than 4 bytes remain; otherwise the big-endian dword, 4 bytes consumed |
| OscarBuffer.Buffer.ReadUint64 | oscar/buf.go:61-68 | EOF exactly when fewer than 8 bytes remain; otherwise the big-endian 64-bit value, 8 bytes consumed |
| OscarBuffer.Buffer.ReadLPString | oscar/buf.go:70-85 | an empty buffer gives "" and no error; a length byte that overruns gives EOF after consuming the length byte; otherwise the prefixed string, consumed |
| OscarBuffer.Buffer.WriteUint8 | oscar/buf.go:87-89 | appends the byte |
| OscarBuffer.Buffer.WriteUint16 | oscar/buf.go:91-94 | appends the big-endian word |
| OscarBuffer.Buffer.WriteUint32 | oscar/buf.go:96-99 | appends the big-endian dword |
| OscarBuffer.Buffer.WriteUint64 | oscar/buf.go:101-104 | appends the big-endian 64-bit value |
| OscarBuffer.Buffer.WriteString | oscar/buf.go:106-108 | appends the string's bytes |
| OscarBuffer.Buffer.WriteLPString | oscar/buf.go:110-113 | appends the length truncated to one byte, then the string |
| OscarBuffer.Buffer.Write | oscar/buf.go:115-118 | appends the bytes and reports their count and no error |
| OscarBuffer.WriteThenReadIntegers | oscar/buf_test.go:11-42 | integers written in order are read back unchanged in the same order and the buffer ends empty |
| OscarBuffer.WriteThenReadLPString | oscar/buf_test.go:44-55 | a length-prefixed string of at most 255 bytes reads back unchanged and leaves exactly what was written after it |
| Tlv.NewTLV | oscar/tlv.go:22-28 | keeps type and data; the declared length is `len(data)` truncated to 16 bits, so the record is well formed whenever the data fits |
| Tlv.Len | oscar/tlv.go:30-32 | a record occupies at least its 4 header bytes, and exactly 4 plus its data when well formed |
| Tlv.Fit | oscar/tlv.go:35-38 | `copy` into a zeroed slice of the declared size: truncates longer data, zero-pads shorter data |
| Tlv.Marshal | oscar/tlv.go:30-40 | the encoding occupies exactly `Len` = 4 + declared length bytes |
| Tlv.Unmarshal | oscar/tlv.go:42-54 | succeeds exactly when the header and the declared data are all present; the result is well formed, read from the front, and ignores what follows |
| Tlv.UnmarshalTLVs | oscar/tlv.go:60-74 | fails (with a nil list) exactly when some record in the stream is truncated; otherwise returns all records in order, each well formed |
| Tlv.MarshalAll | oscar/tlv.go:60-74 | at least 4 bytes per record, and no bytes exactly for no records |
| Tlv.ParseAll | oscar/tlv.go:60-74 | 1 to 3 bytes never parse; a parsed list has at most one record per 4 input bytes, each well formed |
| Tlv.ParseAllStep | oscar/tlv.go:62-72 | a non-empty stream that parses is its first record followed by the parse of the rest |
| Tlv.MarshalCons | oscar/tlv.go:60-74 | bytes holding one marshalled record followed by the marshalled rest are the marshalled list |
| Tlv.FirstIndex | oscar/tlv.go:76-83 | the position of the first record of the type, with no earlier record of it |
| Tlv.Find | oscar/tlv.go:76-83 | nil exactly when no record has the type; otherwise the first record of the list with that type |
| Tlv.MarshalRoundTrip | oscar/tlv.go:34-54 | unmarshalling a marshalled well-formed record gives it back, whatever follows |
| Tlv.MarshalAllRoundTrip | oscar/tlv.go:60-74 | a stream of marshalled well-formed records parses back to the same list |
| Tlv.TruncatedTailFails | oscar/tlv.go:65-69 | whole records followed by a record cut short make the whole parse fail, with no partial list |
| Tlv.CutRecordFails | oscar/tlv.go:42-50 | a record cut short after at least one byte does not parse |
| Tlv.WholeThenFails | oscar/tlv.go:65-72 | a good record in front of unparseable bytes does not make them parse |
| Tlv.UnmarshalInverse | oscar/tlv.go:34-54 | a record read from the front re-marshals to exactly the bytes it was read from |
| Tlv.ParseAllInverse | oscar/tlv.go:60-74 | a parsed stream is well formed and re-marshals to exactly the input bytes |
| Snac.HeaderBytes | oscar/snac.go:13-18 | the header occupies 10 bytes |
| Snac.Encode | oscar/snac.go:36-50 | the 10-byte header followed by exactly the body |
| Snac.ParseHeader | oscar/snac.go:52-56 | reading the header fails exactly when fewer than 10 bytes are present |
| Snac.HeaderRoundTrip | oscar/snac.go:36-61 | the header read back from an encoded SNAC is the header written, and the body follows it unchanged |
| Snac.Snac.NewSNAC | oscar/snac.go:25-34 | family and subtype as given, flags and request id 0, an empty body |
| Snac.Snac.Empty | oscar/snac.go:20-23 | the zero SNAC: zero header, empty body |
| Snac.Snac.MarshalBinary | oscar/snac.go:36-50 | the encoding is the 10-byte header followed by the unread body |
| Snac.Snac.UnmarshalBinary | oscar/snac.go:52-61 | fails exactly on fewer than 10 bytes, changing nothing; otherwise sets the header and appends the remaining bytes to the existing body |
| Snac.Snac.WriteTLV | oscar/snac.go:67-69 | appends the marshalled record to the body |
| Snac.Snac.AppendTLVs | oscar/snac.go:71-76 | appends the record count truncated to 16 bits, then every marshalled record in order |
| Snac.MarshalAllSnoc | oscar/snac.go:73-75 | appending one more record's bytes extends the marshalled list by that record |
| Snac.MarshalThenUnmarshal | oscar/snac.go:36-61 | unmarshalling a marshalled SNAC into a zero SNAC recovers its header and body |
| Flap.HeaderBytes | flap.go:13-17 | the header occupies 5 bytes |
| Flap.Frame | flap.go:34-50 | a frame is the 0x2a marker, the header and the payload: 6 bytes more than the payload |
| Flap.Decode | flap.go:52-68 | fails exactly on input shorter than 6 bytes or not starting with 0x2a, telling an empty input and a missing marker apart; otherwise the payload is everything after byte 6, whatever the declared length says |
| Flap.Flap.NewFLAP | flap.go:24-32 | the channel as given, sequence number and data length 0, an empty payload |
| Flap.Flap.Empty | flap.go:19-22 | the zero frame: zero header, empty payload |
| Flap.Flap.MarshalBinary | flap.go:34-50 | stores the payload length truncated to 16 bits as the declared length; fails exactly when that truncation loses bytes; otherwise returns the frame, whose length is `Len()` |
| Flap.Flap.UnmarshalBinary | flap.go:52-68 | fails exactly when `Decode` does, with its reason, changing nothing; otherwise replaces the header and appends the rest of the input to the payload |
| Flap.DecodeFrame | flap.go:34-68 | decoding the wire form of a frame recovers its header and payload exactly |
| Flap.FrameOfDecode | flap.go:52-68 | every input that decodes is the wire form of what it decoded to |
| Flap.DecodeTestVector | flap_test.go:24-44 | `2a 01 00 01 00 04 00 00 00 01` decodes to channel 1, sequence 1, length 4, payload `00 00 00 01` |
| Flap.MarshalTestVector | flap_test.go:8-22 | a channel-1 frame with sequence 1 and payload `00 00 00 01` marshals to `2a 01 00 01 00 04 00 00 00 01` |
| Flap.MarshalThenUnmarshal | flap.go:34-68 | for payloads of at most 65535 bytes, marshalling then unmarshalling into a zero frame recovers channel, sequence and payload, with the payload length declared |
| Flap.MarshalOversized | flap.go:38-44 | a payload longer than 65535 bytes cannot be marshalled |
| Session.Framed | oscar/session.go:49-52 | a frame stamped with the given sequence number, 6 bytes longer than its payload |
| Session.SnacPayload | oscar/snac.go:25-50 | a SNAC with zero flags and request id: 10 bytes longer than its body |
| Session.Session.NewSession | oscar/session.go:28-34 | sequence number 0, not yet greeted, nothing written, connection open |
| Session.Session.Send | oscar/session.go:49-60 | advances the 16-bit counter (wrapping) before stamping the frame; fails exactly on an oversized payload or a closed connection, writing nothing; otherwise writes exactly the marshalled frame |
| Session.Session.Write | oscar/session.go:58-59 | fails exactly on a closed connection; otherwise records the bytes written |
| Session.Session.Disconnect | server.go:69 | closes the connection; closing it twice is an error; nothing is written |
| Session.ContextWithSession | oscar/session.go:36-39 | a context whose current session is the new session and which carries nothing else |
| Session.CurrentSession | oscar/session.go:41-47 | "no session in context" exactly when the context holds none; otherwise that session |
| Session.SendSnac | oscar/session.go:49-60 | one send of a channel-2 frame carrying the SNAC: the counter advances; fails exactly on a closed connection or an oversized payload; otherwise the frame stamped with the new counter is written |
| Session.SendFrame | oscar/session.go:49-60 | one send of a frame on the given channel, with the same counter and error behaviour |
| Session.FirstTwoSends | oscar/session.go:28-60 | on a new session two sends are stamped 1 and then 2, and exactly those two frames are written, in order |
| Session.NextIterated | oscar/session.go:50-51 | after `k` sends from counter `n` the counter is `(n + k) mod 65536` |
| Managers.SessionManager.constructor | session_manager.go:14-20 | an empty registry: every name finds nil |
| Managers.SessionManager.GetSession | session_manager.go:28-37 | nil for a name never set; for a name set, exactly the session stored under it (nil after a removal) |
| Managers.SessionManager.SetSession | session_manager.go:22-26 | the name now finds the given session; every other name finds what it found before |
| Managers.SessionManager.RemoveSession | session_manager.go:39-43 | the name keeps its key but finds nil; every other name is unchanged |
| Managers.SessionRegistryScenario | session_manager.go:22-43 | set, overwrite, remove and look up on a fresh registry: the lookups give the set session, the replacement, nil, and nil for an untouched name |
| Managers.ServiceManager.constructor | service_manager.go:9-13 | no family has a handler |
| Managers.ServiceManager.GetService | service_manager.go:19-22 | a handler is found exactly when the family was registered, and it is the handler registered for that family |
| Managers.ServiceManager.RegisterService | service_manager.go:15-17 | the family now maps to the handler; every other family is unchanged |
| Managers.ServiceRegistryScenario | main.go:70-75 | after the registrations of the server's start-up and an overwrite of family 1, family 1 has the later handler, family 4 the ICBM handler, and family 0x13 none |
| Models.FirstUser | models/User.go:35-44 | the position of the first row matching the query column, with no earlier match |
| Models.FindUser | models/User.go:35-55 | a failure exactly when the database does not answer; "no row" (`nil, nil`) exactly when no row matches; otherwise a stored row that matches |
| Models.UserByUsername | models/User.go:35-44 | a store failure exactly when reads fail; not found exactly when no row has the username; a found user is a row with that username |
| Models.UserByScreenName | services/0x02_location_services.go:93 | the same three outcomes keyed by the screen name; the Go definition of `models.UserByScreenName` is not part of this model |
| Models.UserByUIN | models/User.go:46-55 | the same three outcomes keyed by the UIN |
| Models.SameFirstUser | models/User.go:35-55 | two row lists that agree on which rows match a key give the same first match |
| Models.Replace | models/User.go:69-74 | an update keyed by UIN rewrites every row with that UIN and no other |
| Models.MarkCookie | models/Message.go:41-47 | every message row with the cookie is marked delivered; the other rows are unchanged |
| Models.AfterUpdate | models/User.go:69-74 | `User.Update` rewrites only the user rows, and only when the database accepts writes |
| Models.Assign | services/0x02_location_services.go:73 | a partial update copies exactly the named columns and keeps every other column, including the identifying ones |
| Models.ReplaceColumns | services/0x01_generic_service_controls.go:41 | a partial update keyed by UIN changes the named columns of that user's rows only |
| Models.FindAfterUpdate | models/User.go:35-74 | with unique UINs, writing back the row a query found (still matching it) makes the same query find the new row |
| Models.FindAfterColumns | services/0x02_location_services.go:73-93 | a partial update never moves a row in or out of a lookup: the same row is found, carrying the new columns when it is the updated user |
| Models.Without | services/0x03_buddy_list_management.go:100 | the buddy rows after a delete: exactly the rows other than the deleted pair |
| Models.SourceNames | online_routine.go:32-39 | at most one watcher name per buddy row (the join drops rows whose source user is missing) |
| Models.WatchersOf | online_routine.go:32-37 | the buddy query fails exactly when the database does not answer; otherwise at most one name per buddy row |
| Models.Store.Update | models/User.go:69-74 | fails exactly when writes are refused, changing nothing; otherwise every row with the user's UIN becomes the user |
| Models.Store.UpdateColumns | services/0x01_generic_service_controls.go:41-43 | fails exactly when writes are refused; otherwise only the named columns of the user's rows change |
| Models.Store.InsertBuddy | services/0x03_buddy_list_management.go:59-67 | fails exactly when writes are refused; otherwise the buddy row is appended |
| Models.Store.DeleteBuddy | services/0x03_buddy_list_management.go:100-103 | fails exactly when writes are refused; otherwise every row with that source and target is removed |
| Models.Store.InsertMessage | models/Message.go:23-35 | fails exactly when writes are refused; otherwise stores and returns an undelivered message with the given cookie, sender, recipient and text |
| Models.Store.MarkDelivered | models/Message.go:41-47 | fails exactly when writes are refused; otherwise marks every message with the cookie delivered |
| Models.Channels.PushOnline | services/0x01_generic_service_controls.go:45 | the user is appended to what the online channel has received; the message channel is untouched |
| Models.Channels.PushComm | 0x04_ICBM.go:185 | the message is appended to what the message channel has received; the online channel is untouched |
| Server.ServiceSpec | server.go:182-183 | a service's handling of a SNAC, read off that service's own model: no service touches the session registry, and only the authorization service asks for a disconnect |
| Server.GenericStep | server.go:182-183 | generic service controls never disconnect or touch the registry; the user is held exactly when the context had one, under the same screen name |
| Server.LocationStep | server.go:182-183 | location services never disconnect or touch the registry; the user is held exactly when the context had one, under the same screen name |
| Server.BuddyListStep | server.go:182-183 | the buddy list service never disconnects or touches the registry, and holds the context's user |
| Server.IcbmStep | server.go:182-183 | ICBM never disconnects or touches the registry, and holds the context's user |
| Server.FeedbagStep | server.go:182-183 | the feedbag service changes nothing in the world and never disconnects |
| Server.AuthStep | server.go:182-183 | authorization never touches the registry and holds the context's user |
| Server.TouchSpec | server.go:124-135 | without a user nothing changes; with one, its last activity becomes now, the session takes its screen name and is registered under it; the store and channels are untouched |
| Server.CloseSpec | server.go:206-223 | without a user nothing happens; with one, the away status is written when the store accepts writes (failures only logged), the away user is pushed to the online channel, and, with a session, the connection is closed and the name's registry entry set to nil |
| Server.FrameSpec | server.go:116-204 | a crash needs a nil context or a frame on channel 1 or 2; without a session nothing happens; only channels 1 and 2 send, and channels other than 1, 2 and 4 neither send nor close |
| Server.ChannelOne | server.go:145-172 | never closes nor touches the world; crashes exactly when a non-hello payload fails the cookie check with a panic (always under 4 bytes); sends exactly when the cookie authenticates, and then only the family list, with the user in the context and its screen name on the session |
| Server.ChannelTwo | server.go:173-191 | under 10 bytes: no crash, no frame, a close and the close handler on the context; only a registered family can crash or send; an unregistered family changes nothing |
| Server.Served | server.go:182-190 | the service's context and frames are kept; it crashes exactly on a panic; it closes exactly on a disconnect or another error, which runs the close handler on the held user; without an error the world is the service's |
| Server.AwayEditSurvivesClose | server.go:182-223 | a 2:4 with away TLVs but no profile encoding closes the connection, and the user pushed to the online channel carries the new away message |
| Server.LocationProfileError | services/0x02_location_services.go:46-65 | the location step for that SNAC fails with the missing TLV 1, returns a nil context, and holds the user with the new away message |
| Server.FamiliesListed | server.go:162-170 | the SNAC 1:3 sent after login lists each family of `ServiceVersions` exactly once as a word, 10 bytes in all |
| Server.CrashIff | server.go:116-204 | the server crashes on a frame exactly when the context is nil, a channel-1 cookie check panics, or a SNAC goes to a registered family whose handler panics |
| Server.HandlerErrorCloses | server.go:183-188 | a handler error other than a panic closes the connection without crashing; the user the service left behind is unregistered and pushed, away, to the online channel |
| Server.KeepAliveTouches | server.go:124-135 | a keep-alive on channel 5 from a signed-on user stamps its activity and registers its session, and sends and closes nothing |
| Server.FrameHandler.constructor | server.go:36-40 | the handler holds the given store, channels and registries |
| Server.FrameHandler.HandleFn | server.go:116-204 | the returned context, the crash flag and the new world are those of `FrameSpec`; the session has written exactly the frames sent, stamped in order, and is closed when the frame closed it |
| Server.FrameHandler.NoteActivity | server.go:124-135 | the context and the world become those of `TouchSpec`; nothing is written to the connection |
| Server.FrameHandler.ChannelOneFn | server.go:145-172 | context, crash flag and frames sent are those of `ChannelOne`; the world is untouched and the connection stays open |
| Server.FrameHandler.FamilyList | server.go:163-166 | one word per family, in the map's iteration order |
| Server.FrameHandler.ChannelTwoFn | server.go:173-191 | a payload too short for a SNAC header disconnects and runs the close handler; an unregistered family is ignored; otherwise the registered service handles the SNAC |
| Server.FrameHandler.DecodeSnac | server.go:174-175 | unmarshalling the SNAC fails exactly under 10 bytes; otherwise the header is the one encoded |
| Server.FrameHandler.Serve | server.go:182-190 | context, crash flag, world and frames sent are those of `Served` for the registered service |
| Server.FrameHandler.Abort | server.go:177-178 | disconnects, runs the close handler, and writes nothing |
| Server.FrameHandler.Dispatch | server.go:182-183 | the context, error, world, held user and frames sent are those of `ServiceSpec` for the registered service |
| Server.FrameHandler.DispatchOffline | server.go:182-183 | for the buddy list, feedbag and authorization services, the context, error, world, held user and frames sent are those of `ServiceSpec` |
| Server.FrameHandler.HandleFrame | server.go:111 | `ctx = h.handleFn(ctx, flap)` on the connection's session: the context, crash flag, world and session become `HandleOne` of the state before, and the context still holds that session or none |
| Server.FrameHandler.HandleFrames | server.go:89-111 | the extracted frames go to `handleFn` in order, each with the context the previous one returned; the result is `HandleAll`, so nothing happens after a crash |
| Server.FrameHandler.Round | server.go:53-112 | one pass of the outer loop (greeting, read, and what follows) leaves exactly the state `RoundSpec` gives for what the client offered |
| Server.FrameHandler.AfterGreeting | server.go:62-112 | once the hello is out, a read on a closed connection disconnects the session again and runs the close handler (or crashes on a nil context); a timeout reads again; an empty read or another error returns; otherwise the bytes are appended and the frames handled, as `RoundSpec` says |
| Server.FrameHandler.Handle | server.go:42-112 | a new connection starts with a context holding its session alone, and the loop goes on over the client's offers until a round returns or crashes: the final state is `Run` of the offers |
| Server.HandleOne | server.go:111 | handing a frame to `handleFn` keeps the greeting, only appends to what the connection has written, and writes nothing on a closed connection, which stays closed |
| Server.FrameWithoutSession | server.go:116-122 | for the modelled handler, a nil context crashes the server, and a context without the session changes nothing |
| Server.HandleAll | server.go:89-111 | once the server has crashed nothing more happens; the greeting is kept, writes only append, and a closed connection stays closed with nothing more written |
| Server.HandleAllNext | server.go:91-111 | one more frame is handed to `handleFn` unless the server has crashed |
| Server.HandleAllAppend | server.go:89-111 | handing over the frames `a` and then `b` leaves what handing over `a + b` leaves |
| Server.CrashStops | server.go:111 | after a frame crashes the server, the frames after it change nothing |
| Server.Greeting | server.go:54-60 | the first pass sends the hello with the next sequence number (not written once closed) and marks the client greeted; later passes change nothing |
| Server.RoundSpec | server.go:53-112 | every pass leaves the client greeted; on a closed connection the pass returns, the close handler runs again (a nil context crashes) and nothing is written; a timeout goes round again and an empty read or other error returns, both changing nothing but the greeting; a read of bytes leaves in the buffer what `Cut` leaves |
| Server.Run | server.go:53-113 | once `Handle` has returned, further offers change nothing |
| Server.RunGreets | server.go:54-60 | after the first read, the client has been greeted |
| Server.RunNext | server.go:53-113 | one more read is made unless `Handle` has returned |
| Server.RunAppend | server.go:53-113 | running the offers `a` and then `b` is running `a + b` |
| Server.RunStops | server.go:53-113 | once a pass returns, the later offers are never made |
| Server.GreetedRound | server.go:54-60 | a pass acts exactly as it would after the hello has gone out |
| Server.GotRound | server.go:83-111 | a pass on an open, greeted connection that reads bytes hands the frames `Cut` extracts from the grown buffer to the handler, and returns exactly when the server crashes |
| Server.ReadsSplitFreely | server.go:87-111 | reading `x` and then `y` handles the same frames, with the same outcome, as one read of `x + y`, as long as the first read leaves the connection open |
| Server.SignOffClosesTwice | server.go:68-70 | after a sign-off frame closes a signed-on user's connection, the next read fails on the closed connection and the close handler runs again: the away user reaches the online channel twice, whatever the client offered |
| Server.FrameKeepsSession | server.go:116-204 | a frame leaves in the context either the session it found there or none |
| Server.ServiceKeepsSession | server.go:182-183 | no service puts a session other than its own into the context it returns |
| Reassembly.Arrived | server.go:66-68 | a read on a closed connection fails as closed whatever the client offered; otherwise what the client offered arrives |
| Server.FrameHandler.CloseFn | server.go:206-223 | the world becomes that of `CloseSpec` on the context: without a user nothing happens; with one, the user is set away and pushed even when the context holds no session; the context's own session is closed exactly when a user is present; nothing is written |
| Reassembly.Cut | server.go:91-112 | the frames extracted, in order, and the rest of the buffer, which holds no complete frame at its front and is no longer than the input |
| Reassembly.Connection.constructor | server.go:46-52 | a connection on the session with an empty accumulation buffer |
| Reassembly.Connection.Greet | server.go:54-60 | the first time round, one channel-1 hello frame is sent (written unless the connection is closed) and the client marked greeted; afterwards nothing is sent |
| Reassembly.Connection.Extract | server.go:91-112 | the frames cut off the buffer and what remains are exactly `Cut` of the buffer |
| Reassembly.Connection.Receive | server.go:83-87 | an empty read ends the connection and changes nothing; otherwise the chunk is appended and the frames are those `Cut` finds in the grown buffer |
| Reassembly.DecodeNeverFails | oscar/server.go:84-92 | bytes handed to `UnmarshalBinary` inside the loop always decode, so the branch that discards the buffer is never taken |
| Reassembly.CutFramesConsistent | oscar/server.go:74-86 | every extracted frame's payload is exactly as long as its header declares |
| Reassembly.CutAppend | oscar/server.go:70-95 | the frames extracted do not depend on how the bytes were split across reads |
| Reassembly.CutEncodeAll | oscar/server.go:74-95 | whole frames followed by an incomplete tail are extracted exactly and in order, leaving the tail |
| Reassembly.FrameDeclares | oscar/server.go:76 | bytes 4 and 5 of a frame hold its declared length |
| Reassembly.CutFront | oscar/server.go:74-94 | a whole frame at the front of the buffer is the first frame extracted |
| Reassembly.BadHeadStallsForever | oscar/server.go:74 | a buffer whose first byte is not 0x2a is never consumed or cleared, whatever arrives later |
| Reassembly.GreetTwice | oscar/server.go:37-43 | greeting twice sends the hello once, stamped 1 |
| Reassembly.SplitFrame | oscar/server.go:70-95 | a frame split across two reads is delivered once, after the second read, and leaves the buffer empty |
| Handler.SendResult | oscar/session.go:49-60 | `Send` returns an error exactly when the connection is closed or the payload is over 65535 bytes |
| Handler.Delivered | oscar/session.go:49-60 | a run of sends writes at most one frame per send, and nothing on a closed connection |
| Handler.DeliveredAppend | oscar/session.go:49-60 | sending `a` then `b` writes what sending `a` writes, then what `b` writes from the counter `a` left |
| Handler.TransmitSnac | oscar/session.go:49-60 | one more SNAC send extends the written frames and the counter as sending the longer list would, and reports its failure |
| Handler.SendOne | oscar/session.go:49-60 | a handler's single SNAC send: exactly that SNAC is emitted, and the error is that of the send |
| Handler.SendSnacThenFrame | services/0x17_authorization_registration_service.go:162-174 | a SNAC followed by a raw frame, emitted in that order; the error is the second send's |
| Handler.TransmitFrame | oscar/session.go:49-60 | one more raw-frame send extends the written frames and counter as sending the longer list would |
| Handler.TwoSendsOpen | oscar/session.go:49-51 | two sends on an open connection write two frames stamped with consecutive sequence numbers |
| Auth.HexDigit | services/0x17_authorization_registration_service.go:60 | one lower-case hexadecimal digit |
| Auth.Hex | services/0x17_authorization_registration_service.go:60 | `%x` writes two digits per byte: byte k becomes the lower-case hex digit of its high nibble then that of its low nibble, at positions 2k and 2k+1 |
| Auth.HexInjective | services/0x17_authorization_registration_service.go:60-65 | distinct digests have distinct hex forms, so comparing the hex strings compares the digests |
| Auth.AuthenticateFLAPCookie | services/0x17_authorization_registration_service.go:33-68 | as written: a payload under 4 bytes panics; a cookie naming a UIN with no user row panics; it authenticates exactly when the payload carries a cookie whose UIN finds a user whose MD5 digest, in hex, is the cookie's hash, and then returns that user |
| Auth.AuthenticateCookie | services/0x17_authorization_registration_service.go:33-68 | corrected: never panics, and accepts exactly the cookies the original accepts, returning the same user |
| Auth.UnknownUinPanics | services/0x17_authorization_registration_service.go:51-58 | a well-formed cookie for a UIN with no user row crashes the original and is rejected as an unknown user by the corrected check |
| Auth.CarriedCookie | services/0x17_authorization_registration_service.go:36-49 | four bytes followed by a single TLV 6 carry the cookie the TLV encodes |
| Auth.CookieIn | services/0x17_authorization_registration_service.go:36-49 | no cookie from a payload under 4 bytes; a cookie only from TLVs that parse and include TLV 6 |
| Auth.CookieVerifies | services/0x17_authorization_registration_service.go:181-187 | a cookie minted at login authenticates the user its UIN finds later, as long as that user's cipher and password are unchanged |
| Auth.KeyReply | services/0x17_authorization_registration_service.go:116-118 | the key reply is the cipher's length as a word followed by the cipher |
| Auth.HandleSNAC | services/0x17_authorization_registration_service.go:79-200 | the context, error, stored user row and frames sent are those of `HandleSpec`: no session panics; 0x06 and 0x02 are handled; any other subtype does nothing |
| Auth.HandleSpec | services/0x17_authorization_registration_service.go:79-200 | a nil context or no session panics with nothing sent; only 0x06 updates the store and only 0x02 disconnects or changes the context; other subtypes do nothing |
| Auth.KeyRequest | services/0x17_authorization_registration_service.go:87-122 | unparseable TLVs panic; a missing username TLV is an error; an unknown user gets the 0x17:0x03 error reply; a known user's row gets the new cipher and the 0x17:0x07 reply carries it; a failed write sends nothing |
| Auth.KeySpec | services/0x17_authorization_registration_service.go:87-122 | keeps the context and never disconnects; a stored cipher needs a parsed username TLV naming a known user, and is that user with the new cipher; without an error the reply is sent |
| Auth.KeyAccepted | services/0x17_authorization_registration_service.go:87-122 | a key request for a known user with a writable store stores the cipher and replies with it |
| Auth.Login | services/0x17_authorization_registration_service.go:125-148 | unparseable TLVs panic; a missing username TLV is an error; from the user lookup on the context returned is the background context; an unknown user gets the error reply |
| Auth.LoginSpec | services/0x17_authorization_registration_service.go:125-148 | never updates the store; once the username TLV is read, the context becomes the background context; a disconnect needs a known user |
| Auth.LoginAccepted | services/0x17_authorization_registration_service.go:125-196 | a login of a known user whose TLV 0x25 is its digest replies with the BOS address and a cookie, then disconnects |
| Auth.CheckProof | services/0x17_authorization_registration_service.go:150-196 | a missing TLV 0x25 is an error; a wrong proof gets the error reply and a channel-4 frame; a right one gets TLVs 1, 5, 6 (the cookie) and 0x11, a channel-4 frame, and a disconnect |
| Auth.ProofSpec | services/0x17_authorization_registration_service.go:150-196 | disconnects exactly when TLV 0x25 is present and equals the digest, after the login reply with a fresh cookie; a present proof always ends with the disconnect frame |
| Auth.ChallengeThenLogin | services/0x17_authorization_registration_service.go:87-196 | after a key request stores cipher `k` for a known user and replies with it, a login whose proof is MD5 of `k`, the password and the salt is accepted with a cookie for that user, and disconnects |
| Generic.ServiceVersionsSize | services/0x01_generic_service_controls.go:15-24 | five families are offered: 1, 2, 3, 4 and 17 |
| Generic.EnumeratesSize | services/0x01_generic_service_controls.go:135 | any iteration order of the map visits exactly as many families as it holds |
| Generic.VersionPairs | services/0x01_generic_service_controls.go:134-138 | four bytes per visited family |
| Generic.ReadPairs | services/0x01_generic_service_controls.go:133-141 | a reader of the reply gets one pair per whole four bytes |
| Generic.ReadVersionPairs | services/0x01_generic_service_controls.go:135-138 | reading the pairs back gives the version of exactly the visited families |
| Generic.VersionsReadBack | services/0x01_generic_service_controls.go:133-141 | whatever the map's iteration order, the 0x17 reply holds 4 bytes per family and reads back as exactly `ServiceVersions` |
| Generic.VersionsBody | services/0x01_generic_service_controls.go:134-138 | the loop writes each visited family's pair, in visiting order |
| Generic.RateClass | services/0x01_generic_service_controls.go:58-68 | the rate class occupies 35 bytes |
| Generic.SubtypePairs | services/0x01_generic_service_controls.go:79-82 | four bytes per subtype |
| Generic.GroupPairs | services/0x01_generic_service_controls.go:78-83 | 0x21 pairs of four bytes per visited family |
| Generic.RateGroup | services/0x01_generic_service_controls.go:72-83 | the group id and pair count, then the pairs: 4 + 4·0x21 bytes per family |
| Generic.RateBody | services/0x01_generic_service_controls.go:54-84 | one class count, the class and the group: 41 bytes plus the pairs |
| Generic.SubtypePairsAt | services/0x01_generic_service_controls.go:79-82 | pair `j` of a family's run is that family with subtype `j` |
| Generic.GroupPairsAt | services/0x01_generic_service_controls.go:78-83 | pair `0x21·q + r` of the group is the `q`-th visited family with subtype `r` |
| Generic.RateHeader | services/0x01_generic_service_controls.go:54-84 | the 0x06 reply declares one class and group 1, and its declared pair count (165) is exactly the number of pairs that follow |
| Generic.RateLayout | services/0x01_generic_service_controls.go:75-84 | every visited family appears with every subtype below 0x21, at the position its loop indices give |
| Generic.RateGroupOf | services/0x01_generic_service_controls.go:72-83 | the nested loops write exactly the rate group |
| Generic.SelfInfoTlvs | services/0x01_generic_service_controls.go:112-120 | six well-formed TLVs |
| Generic.ReadSelfInfo | services/0x01_generic_service_controls.go:97-122 | a client reads back the screen name, warning level 0, six TLVs, and a status TLV carrying the user's status code |
| Generic.SendReply | services/0x01_generic_service_controls.go:86-88 | a fixed reply goes to the context's session; without one it panics |
| Generic.HandleSNAC | services/0x01_generic_service_controls.go:31-145 | the context, error, status write, online push and frames sent are those of `HandleSpec`, for subtypes 0x02, 0x06, 0x0e, 0x16, 0x17 and any other |
| Generic.HandleSpec | services/0x01_generic_service_controls.go:31-145 | a nil context panics; at most one frame; only 0x02 pushes and only 0x02 or 0x0e write; an unknown subtype does nothing |
| Generic.RateBodyOf | services/0x01_generic_service_controls.go:54-84 | the 0x06 reply body is exactly `RateBody` |
| Generic.GoOnline | services/0x01_generic_service_controls.go:37-50 | without a user nothing happens; with one, the context's user becomes online even if the write fails; on success the status column is written and the user pushed to the online channel; nothing is sent |
| Generic.OnlineSpec | services/0x01_generic_service_controls.go:37-50 | sends nothing; the context's user is set online even when the write fails; the user is written and pushed exactly when present and the store accepts writes, and the error is the failed write |
| Generic.SendSelfInfo | services/0x01_generic_service_controls.go:91-126 | without a user `NoUserInSession`; the status is written before anything is sent; a failed write sends nothing; otherwise the user info SNAC 1:0xf is sent; nothing is pushed |
| Generic.SelfInfoSpec | services/0x01_generic_service_controls.go:91-126 | pushes nothing; the user is set online; the status is written exactly when the store accepts writes; any reply is SNAC 1:0x0f describing the written user |
| Generic.OnlineThenSelfInfo | services/0x01_generic_service_controls.go:37-126 | going online and then asking for one's own info stores the online status, pushes the online user, and reports the online status code |
| Location.ReadParams | services/0x02_location_services.go:25-32 | the 0x02 reply holds one TLV of type 1 whose word is 256 |
| Location.EditOf | services/0x02_location_services.go:46-65 | TLV 4 without TLV 3 is refused (checked first), then TLV 2 without TLV 1; otherwise the away message and profile, each with its encoding, are taken from the TLVs present and every other field is kept |
| Location.StatusFor | services/0x02_location_services.go:67-71 | online exactly when the away message is empty, away exactly when it is not |
| Location.ReadQuery | services/0x02_location_services.go:83-91 | refused exactly when the body has fewer than 2 bytes or the name's length byte overruns; nothing after the type reads as the empty name; otherwise the type word and the prefixed name |
| Location.QueryRoundTrip | services/0x02_location_services.go:83-91 | a query a client writes is read back as written, whatever follows |
| Location.InfoTlvs | services/0x02_location_services.go:115-122 | five well-formed TLVs |
| Location.ReadInfoReply | services/0x02_location_services.go:106-138 | a client reads back the screen name, five block TLVs, then the profile and its encoding for type 1, the away message and its encoding for type 3, and nothing more otherwise |
| Location.SendReply | services/0x02_location_services.go:29-32 | a fixed reply goes to the context's session; without one it panics |
| Location.HandleSNAC | services/0x02_location_services.go:19-163 | the context, error, column write, online push and frames sent are those of `HandleSpec` for 0x02, 0x04, 0x05, 0x0b and any other subtype |
| Location.HandleSpec | services/0x02_location_services.go:19-163 | a nil context panics; at most one frame; only 0x04 writes or pushes or changes the context; an unknown subtype does nothing |
| Location.Answer | services/0x02_location_services.go:25-32 | the subtypes other than 0x04 keep the context and touch neither store nor channel; their reply is what `HandleSpec` sends |
| Location.ParamsBodyOf | services/0x02_location_services.go:26-27 | the 0x02 body is one TLV 1 carrying the word 256 |
| Location.UnknownBodyOf | services/0x02_location_services.go:154-156 | the 0x0b body is the words 1 and 0 |
| Location.SetInfo | services/0x02_location_services.go:35-79 | without a user `NoUserInSession`; malformed TLVs or a missing encoding return a nil context; otherwise the edits and derived status are kept in the context, the four profile columns are written, and on success the user is pushed to the online channel; nothing is sent |
| Location.SetInfoSpec | services/0x02_location_services.go:35-79 | sends nothing; a nil context exactly for a signed-on user with malformed TLVs or a missing encoding; a kept user has the status its away message calls for; the user is written and pushed exactly on success |
| Location.EditUser | services/0x02_location_services.go:46-65 | the TLV lookups produce exactly `EditOf`: the missing TLV and the partly edited user, or the edited user |
| Location.HeldAfterSetInfo | services/0x02_location_services.go:35-79 | the shared user is left alone by malformed TLVs, and otherwise changes only in the away message, profile, their encodings and status |
| Location.Held | services/0x02_location_services.go:19-163 | only subtype 0x04 writes to the shared user; a user is held exactly when the context has one |
| Location.HeldIsReturned | services/0x02_location_services.go:35-79 | when 0x04 returns a context, its user is the held user |
| Location.AwayKeptOnProfileError | services/0x02_location_services.go:46-65 | TLVs 4, 3 and 2 without TLV 1 fail for the missing TLV with a nil context, yet the held user already carries the new away message |
| Location.Query | services/0x02_location_services.go:82-145 | a bad request or a store failure is an error; an unknown name gets SNAC 2:1 with code 0x14 and no error; a known user gets SNAC 2:6 with the info reply; the context is kept |
| Location.QuerySpec | services/0x02_location_services.go:82-145 | keeps the context and writes nothing; a reply needs a session and a readable request; a known name gets SNAC 2:6 about that user; an unknown name gets the no-match error |
| Location.ParseQuery | services/0x02_location_services.go:83-91 | reading the type and name from a buffer gives exactly `ReadQuery` |
| Location.InfoReplyOf | services/0x02_location_services.go:106-138 | the reply body built on a fresh SNAC is exactly `InfoReply` |
| Location.AppendExtra | services/0x02_location_services.go:126-138 | appends the profile TLVs for type 1, the away message TLVs for type 3, nothing otherwise |
| Location.SetAway | services/0x02_location_services.go:46-79 | setting an away message with its encoding changes exactly the away message, its encoding and the status |
| Location.QueryAway | services/0x02_location_services.go:135-145 | asking for a stored user's away message sends that row's info with the away message |
| Location.AssignProfile | services/0x02_location_services.go:73 | writing the four profile columns copies exactly those fields |
| Location.StoredAfterAway | services/0x02_location_services.go:73-93 | after the away message is written, the stored row carries it and keeps its old status |
| Location.SetAwayDispatch | services/0x02_location_services.go:35-79 | a 0x04 SNAC setting an away message has the effect of `SetAway` |
| Location.QueryAwayDispatch | services/0x02_location_services.go:82-145 | a 0x05 query of type 3 for a stored user sends that row's info |
| Location.SetThenQueryAway | services/0x02_location_services.go:35-145 | setting an away message and then asking for it returns the new message and encoding, with the stored row's status, which 0x04 does not write |
| BuddyList.Limits | services/0x03_buddy_list_management.go:24-27 | three well-formed limit TLVs |
| BuddyList.ReadLimits | services/0x03_buddy_list_management.go:24-31 | a client reads back TLV 1 = 500, TLV 2 = 750, TLV 3 = 512, in that order |
| BuddyList.Apply | services/0x03_buddy_list_management.go:59-100 | adding appends the row (user, buddy); removing keeps exactly the rows other than (user, buddy); users, messages and the store's availability are unchanged |
| BuddyList.Edits | services/0x03_buddy_list_management.go:40-106 | the name loop leaves the users alone, sends nothing or exactly one "no match" with no error, fails only as malformed, store failure or panic (the panic only without a session), and on a store that cannot answer changes nothing |
| BuddyList.AddedRows | services/0x03_buddy_list_management.go:46-62 | when every name is known, one row per name |
| BuddyList.EditsStep | services/0x03_buddy_list_management.go:40-70 | a known name on a working store writes its row and the loop continues on the rest of the bytes |
| BuddyList.AddAll | services/0x03_buddy_list_management.go:34-72 | adding a list of known names appends one row per name, in the order listed, and sends nothing |
| BuddyList.AddFirst | services/0x03_buddy_list_management.go:40-67 | the first known name appends its row and the loop goes on with the rest of the list |
| BuddyList.AddThenRemove | services/0x03_buddy_list_management.go:34-108 | after adding and then removing one known name, the user has no row to that buddy and every other row is as before |
| BuddyList.UnknownNameStops | services/0x03_buddy_list_management.go:50-98 | an unknown first name sends SNAC 3:1 with code 0x14, returns no error, and writes nothing, whatever follows it |
| BuddyList.HandleSNAC | services/0x03_buddy_list_management.go:17-112 | the context, error, database and frames sent are those of `HandleSpec`: the limits for 0x02, `NoUserInSession` without a user, the name loop for 0x04 (add) and 0x05 (remove), nothing for other subtypes |
| BuddyList.HandleSpec | services/0x03_buddy_list_management.go:17-112 | keeps the context; a nil context panics; only 0x04 and 0x05 change the store, and then exactly as `Edits` on the body; an unknown subtype does nothing |
| BuddyList.LimitsBodyOf | services/0x03_buddy_list_management.go:24-27 | the body written TLV by TLV equals the three limit records back to back |
| BuddyList.ApplyEdit | services/0x03_buddy_list_management.go:64-103 | fails exactly when the store refuses writes, and otherwise leaves the database as `Apply` says |
| BuddyList.EditList | services/0x03_buddy_list_management.go:40-106 | the loop's error, database and frames sent are those of `Edits` |
| BuddyList.EditOne | services/0x03_buddy_list_management.go:41-103 | one round either stops with the outcome of `Edits` or writes one row, consumes bytes, and leaves the remaining loop's outcome unchanged |
| Icbm.ChannelBytes | 0x04_ICBM.go:42-50 | the parameter record takes 16 bytes |
| Icbm.ParseChannel | 0x04_ICBM.go:68-72 | reading the record succeeds exactly when the body has at least 16 bytes |
| Icbm.ChannelRoundTrip | 0x04_ICBM.go:42-72 | a record written big-endian in field order reads back as itself, whatever follows |
| Icbm.ChannelInverse | 0x04_ICBM.go:68-87 | writing a parsed record reproduces the 16 bytes it was read from |
| Icbm.ReadIncoming | 0x04_ICBM.go:102-104 | with enough bytes, the message id is the first 8 bytes and the channel the next 2; read errors are ignored and never lengthen the rest |
| Icbm.ReadIncomingFrom | 0x04_ICBM.go:102-104 | the three reads on the body buffer give `ReadIncoming` and leave its unread bytes |
| Icbm.Skip | oscar/buf.go:17-23 | seeking never lengthens the unread bytes |
| Icbm.ParseText | 0x04_ICBM.go:148-177 | text is accepted only after id 1 and version 1, and its length is the declared length minus 4 in 16-bit arithmetic |
| Icbm.ReadFragment | 0x04_ICBM.go:122-177 | the cursor reads of both fragments give exactly `ParseFragment` |
| Icbm.ReadText | 0x04_ICBM.go:148-177 | the cursor reads of the text fragment give exactly `ParseText` |
| Icbm.AckCarries | 0x04_ICBM.go:191-194 | the acknowledgement reads back as the message id, channel 2 and the sender's username |
| Icbm.HandleSNAC | 0x04_ICBM.go:52-204 | context, error, stored and queued message and frames sent are those of `HandleSpec`: 0x02 stores the settings in the context, 0x04 echoes them (panicking without them), 0x06 sends a message, others do nothing |
| Icbm.HandleSpec | 0x04_ICBM.go:52-204 | a nil context panics; at most one frame; only 0x06 stores; only 0x02 changes the context, to the parsed settings; an unknown subtype does nothing |
| Icbm.SendMessage | 0x04_ICBM.go:96-200 | without a user `NoUserInSession`; a channel other than 1 is ignored; otherwise the outcome of `ParsedSpec` |
| Icbm.MessageSpec | 0x04_ICBM.go:96-200 | keeps the context; a stored message needs a user, channel 1 and a writable store, and is an undelivered message from the user to the named recipient with the request cookie |
| Icbm.ParseAndAccept | 0x04_ICBM.go:111-200 | malformed TLVs, a missing TLV 2 or a refused fragment fail with nothing stored; otherwise the message is accepted as `AcceptSpec` says |
| Icbm.ParsedSpec | 0x04_ICBM.go:111-200 | a stored message needs TLV 2, and its text is the text of TLV 2's fragments |
| Icbm.Accept | 0x04_ICBM.go:179-200 | a store that refuses writes fails with nothing queued; otherwise the message is stored and queued for delivery, and acknowledged with SNAC 4:0x0c exactly when TLV 3 is present |
| Icbm.AcceptSpec | 0x04_ICBM.go:179-200 | stores the message exactly when the store accepts writes; acknowledges with SNAC 4:0x0c exactly when it was stored, TLV 3 asked for it and a session exists |
| Icbm.SettingsEcho | 0x04_ICBM.go:57-93 | setting the parameters and then asking for them sends back exactly the 16 bytes set |
| Icbm.MessageStored | 0x04_ICBM.go:96-185 | a well-formed channel-1 message with a parsable TLV 2 is stored and queued with its id, the sender's username, the recipient and the fragment's text |
| Icbm.IncomingOf | 0x04_ICBM.go:102-104 | the head a client writes reads back as written and leaves the TLV bytes |
| Feedbag.ItemBytes | services/0x13_feedbag.go:38-55 | an item has a wire form exactly when its name fits a 16-bit length (`LPUint16String` panics otherwise) |
| Feedbag.Bytes | services/0x13_feedbag.go:38-55 | the bytes written field by field and record by record are exactly `ItemBytes` |
| Feedbag.MarshalAllSize | services/0x13_feedbag.go:47-52 | the marshalled records take 4 bytes plus their data each |
| Feedbag.ItemLength | services/0x13_feedbag.go:38-55 | an item takes 10 bytes, plus its name, plus 4 bytes and the data of each record |
| Feedbag.ReadItem | services/0x13_feedbag.go:30-55 | a client's read succeeds only on at least 10 bytes, with a name as long as the leading word says |
| Feedbag.Fields | services/0x13_feedbag.go:41-45 | the name, group, item id, type and count read back from their offsets, and the records follow them |
| Feedbag.ItemRoundTrip | services/0x13_feedbag.go:38-55 | every item whose name and record count fit their words reads back as itself |
| Feedbag.MaxItemsData | services/0x13_feedbag.go:68-94 | the word loop writes the 21 limits one `Word` after another |
| Feedbag.LimitsWith | services/0x13_feedbag.go:95-100 | six records |
| Feedbag.Limits | services/0x13_feedbag.go:68-100 | six records |
| Feedbag.ReadLimitsWith | services/0x13_feedbag.go:95-100 | whatever TLV 4 holds (up to 65535 bytes), the six records read back as written |
| Feedbag.ReadLimits | services/0x13_feedbag.go:64-105 | a client reads back the six records of SNAC 0x13:3 |
| Feedbag.LimitsFields | services/0x13_feedbag.go:68-100 | TLV 4 holds 42 bytes whose k-th word is the k-th limit; TLVs 2, 3, 5, 6, 7 follow in that order with 0xfe, 0x01fc, 0, 0x61, 0x0a |
| Feedbag.ListBody | services/0x13_feedbag.go:110-114 | the list reply body is 7 bytes |
| Feedbag.ReadList | services/0x13_feedbag.go:107-119 | a client reads version 0, item count 0 and change time 0 |
| Feedbag.HandleSpec | services/0x13_feedbag.go:57-125 | the context is kept; a panic exactly when there is no session (the logger is fetched first); unknown subtypes send nothing; the only other error is a failed send |
| Feedbag.HandleSNAC | services/0x13_feedbag.go:57-125 | the context, error and frames sent are those of `HandleSpec` |
| Feedbag.LimitsReply | services/0x13_feedbag.go:66-100 | the body built on a fresh SNAC is exactly the six marshalled limit records |
| Feedbag.ListReply | services/0x13_feedbag.go:108-114 | the body built on a fresh SNAC is exactly `ListBody` |
| Feedbag.LimitsWritten | services/0x13_feedbag.go:95-100 | six `WriteTLV` calls leave the records marshalled back to back |
| Presence.ArrivalInfo | online_routine.go:45-52 | six well-formed TLVs; the host name must give the 4 address bytes |
| Presence.ReadArrival | online_routine.go:41-57 | a watcher reads back the username, warning level 0 and the six TLVs; the address TLV holds the first four bytes of the host name |
| Presence.ReadDeparture | online_routine.go:78-82 | a watcher reads back the username, warning level 0 and the one class TLV |
| Presence.Targets | online_routine.go:39-77 | every watcher that has a session is notified through it, and only registered sessions are notified |
| Presence.Repeat | online_routine.go:39-65 | n copies of the notification |
| Presence.TargetsStep | online_routine.go:39-40 | one more watcher adds its session exactly when it has one |
| Presence.CountSnoc | online_routine.go:39-40 | one more target adds one notification to that session only |
| Presence.Notices | oscar/session.go:49-59 | at most one frame per send |
| Presence.NoticesDelivered | oscar/session.go:49-59 | the routine's account of a run of sends equals the handlers' account `Delivered` |
| Presence.AfterIsDelivered | online_routine.go:61-88 | a notified session has written exactly the frames `Delivered` says |
| Presence.IterateAdd | oscar/session.go:49-59 | advancing the sequence number j and then k times is advancing it j + k times |
| Presence.AfterTrans | online_routine.go:22-92 | two runs of notifications one after the other are the notifications of both, in order |
| Presence.SendNotice | online_routine.go:59-63 | one more SNAC 3:0x0b is written to the session (its failure ignored) and nothing else changes |
| Presence.NotifyStep | online_routine.go:40-64 | the watcher's session gets one more notification and every other session is unchanged |
| Presence.Announce | online_routine.go:39-90 | each registered session gets the SNAC once per watcher entry that maps to it, and nothing else |
| Presence.React | online_routine.go:23-91 | a failed buddy query stops the routine exactly for an active or inactive user; a host name under 4 bytes crashes exactly when an active user has a watcher online; active users' watchers get the arrival body, inactive users' the departure body; other statuses are ignored |
| Presence.HandleUser | online_routine.go:23-91 | one user's reaction is `React`, and each session receives exactly its `Sends` |
| Presence.RoutineStep | online_routine.go:22-92 | one more user adds its reaction's sends to what each session has received |
| Presence.Routine | online_routine.go:19-93 | users are handled in order until one stops the routine; it crashes exactly on a `Crash` reaction; each session then has received exactly the notifications for the users handled |
| Delivery.SenderInfo | message_delivery_routine.go:36-42 | four well-formed TLVs |
| Delivery.MessageFragment | message_delivery_routine.go:52-57 | the fragments take 16 bytes more than the text |
| Delivery.FragmentRoundTrip | message_delivery_routine.go:52-57 | the ICBM fragment parser reads back every text of at most 65535 bytes from the delivered fragments |
| Delivery.TextRoundTrip | message_delivery_routine.go:54-57 | the text fragment with length `len + 4` truncated to 16 bits reads back as the text |
| Delivery.DeliveryBodyLayout | message_delivery_routine.go:30-60 | the recipient reads back the message id, channel 1, the sender, warning level 0, four info TLVs then TLV 2, whose fragments give the text sent |
| Delivery.FixedPart | message_delivery_routine.go:31-45 | the fixed part reads back field by field, and the TLV bytes follow it |
| Delivery.TlvTail | message_delivery_routine.go:45-60 | the four info TLVs and TLV 2 parse back as a list of five |
| Delivery.HeadLayout | message_delivery_routine.go:31-33 | the message id, channel 1 and the sender's name read back, and the rest follows |
| Delivery.DeliverySpec | message_delivery_routine.go:29-78 | sends SNAC 4:7 exactly when the recipient is online; marks the message exactly when it was sent, is stored offline and the store accepts writes; panics exactly when the send fails or that mark fails |
| Delivery.Sent | message_delivery_routine.go:29-64 | a session is sent one frame exactly when it is the recipient's session |
| Delivery.Stored | message_delivery_routine.go:71-75 | delivering changes only the message rows |
| Delivery.SentAfter | message_delivery_routine.go:64 | frames sent by the routine extend what the session was sent before |
| Delivery.SentIsEffect | message_delivery_routine.go:29-64 | the recipient's session is sent exactly the frames of the message's effect |
| Delivery.MailStep | message_delivery_routine.go:21-79 | one more message adds its frames to each session's mail |
| Delivery.StoredStep | message_delivery_routine.go:71-75 | one more message adds its mark, if any, to the store |
| Delivery.CleanStep | message_delivery_routine.go:21-79 | a message that does not panic extends a panic-free prefix |
| Delivery.FaultMarksNothing | message_delivery_routine.go:64-75 | a message whose delivery panics marks nothing |
| Delivery.OfflineDropped | message_delivery_routine.go:76-78 | messages to recipients without a session send nothing and leave the store alone |
| Delivery.Deliver | message_delivery_routine.go:29-78 | `DeliverOne`, with each open session's frames appended to those it was sent before |
| Delivery.DeliverStep | message_delivery_routine.go:21-79 | one more message: its fault is its effect's, the store gains its mark, each session gains its frames |
| Delivery.Started | message_delivery_routine.go:18-21 | before the first message nothing has been sent or marked |
| Delivery.Advance | message_delivery_routine.go:21-79 | one turn of the loop keeps the routine's progress, counting the message as handled unless it panics |
| Delivery.Finished | message_delivery_routine.go:21-26 | the loop stopping at the end of the queue or at a panic leaves the routine done |
| Delivery.DeliverOne | message_delivery_routine.go:29-78 | the fault and the store are those of `DeliverySpec`; the recipient's session is sent exactly `Sent` and stays open |
| Delivery.Run | message_delivery_routine.go:15-83 | `Done`: messages are handled in order until the first panic, which is the fault exactly when not all were handled; the store holds the marks of the handled messages; every session was sent exactly its mail; with no recipient online the store is unchanged |
| Delivery.RelayPreservesText | 0x04_ICBM.go:179-185 | the text an ICBM send stores is the text the recipient reads out of the delivered fragment |
| Delivery.FragmentLength | 0x04_ICBM.go:162-171 | a parsed text is at most 65535 bytes |
| UserInfo.Append | services/0x02_location_services.go:107-124 | the three writes append exactly one user info block to the SNAC body |
| UserInfo.BlockParts | oscar/snac.go:71-76 | the name, the warning word, then the count and records written by `AppendTLVs` add up to one block |
| UserInfo.Read | services/0x02_location_services.go:106-124 | a client's read succeeds only when the name's length byte and the two words fit, and yields the name the length byte covers |
| Tlv.MarshalAllAppend | oscar/snac.go:71-76 | marshalling two record lists one after the other is marshalling their concatenation |
| UserInfo.Header | services/0x02_location_services.go:107-108 | the name, warning level and count read back from their offsets, and the records follow |
| UserInfo.BlockThen | services/0x02_location_services.go:124-138 | a block followed by more records is the header followed by all the records |
| UserInfo.ReadBlock | services/0x02_location_services.go:106-138 | a client reads back the name, warning level 0, the block's record count, and the block's records followed by any written after them |
| UserInfo.WellFormedAppend | oscar/tlv.go:22-28 | two lists of well-formed records make one |
| UserInfo.ReadHeader | services/0x02_location_services.go:106-124 | a header followed by parsable records reads back as its fields and those records |
| UserInfo.ReadBlockAlone | online_routine.go:41-57 | a block on its own reads back as its name, warning level 0, count and records |
| NodeBuffer.Cat | src/structures/SNAC.ts:57-62 | concatenation succeeds exactly when both parts do, and is their bytes in order |
| NodeBuffer.ConcatMap | src/structures/SNAC.ts:45-55 | mapping and concatenating succeeds exactly when every element encodes |
| NodeBuffer.ConcatMapAt4 | src/structures/SNAC.ts:45-55 | with 4-byte encodings, element i sits at bytes 4i to 4i + 4 |
| NodeBuffer.ConcatMapSize | src/structures/SNAC.ts:104-112 | with k-byte encodings, the result is k times the element count long |
| NodeBuffer.WriteUInt8 | src/structures/bytes.ts:1-5 | throws exactly outside 0..255; otherwise one byte holding the value |
| NodeBuffer.WriteUInt16 | src/structures/bytes.ts:7-11 | throws exactly outside 0..65535; otherwise two bytes reading back as the value |
| NodeBuffer.WriteUInt32 | src/structures/bytes.ts:13-17 | throws exactly outside 0..2^32-1; otherwise four bytes reading back as the value |
| NodeBuffer.ReadInt8 | src/structures/FLAP.ts:10 | a signed byte in -128..127 congruent to the byte |
| NodeBuffer.ReadInt16 | src/structures/TLV.ts:16-17 | a signed value in -32768..32767 congruent to the big-endian word |
| NodeBuffer.ReadInt32 | src/structures/SNAC.ts:81 | a signed value in -2^31..2^31-1 congruent to the big-endian dword |
| NodeBuffer.WriteInt8 | src/structures/FLAP.ts:47-48 | throws exactly outside -128..127; otherwise one byte reading back as the value |
| NodeBuffer.WriteInt16 | src/structures/SNAC.ts:37-42 | throws exactly outside -32768..32767; otherwise two bytes reading back as the value |
| NodeBuffer.Index | src/structures/TLV.ts:16-18 | a slice index: negative counts from the end, then clamped to 0..length |
| NodeBuffer.Slice | src/structures/TLV.ts:16-18 | in-range bounds give the sub-range; an end past the buffer stops at its end; an end at or before the start gives nothing |
| TsBytes.Char | src/structures/bytes.ts:1-5 | throws exactly outside 0..255; otherwise the one byte |
| TsBytes.Word | src/structures/bytes.ts:7-11 | throws exactly outside 0..65535; otherwise two bytes reading back big-endian as the value |
| TsBytes.Dword | src/structures/bytes.ts:13-17 | throws exactly outside 0..2^32-1; otherwise four bytes reading back big-endian as the value |
| TsBytes.Qword | src/structures/bytes.ts:19-23 | as written: eight bytes, the 32-bit value in the first four and zeros after |
| TsBytes.QwordIsShifted | src/structures/bytes.ts:19-23 | read as a 64-bit big-endian value, `qword(num)` is `num * 2^32` |
| TsBytes.QwordCounterexample | src/structures/bytes.ts:19-23 | `qword(1)` reads back as 2^32, not 1 |
| TsBytes.QwordFixed | src/structures/bytes.ts:19-23 | the intended encoding: throws exactly outside 0..2^32-1, otherwise eight bytes reading back as the value |
| TsBytes.Dec | src/structures/bytes.ts:37-40 | the decimal text of a number is a non-empty string of digits |
| TsBytes.ParseDecOfDec | src/structures/bytes.ts:33 | `+` of a number's decimal text is the number |
| TsBytes.DecCanonical | src/structures/bytes.ts:37-40 | decimal text has no leading zero |
| TsBytes.LeadingDigitPositive | src/structures/bytes.ts:33 | canonical digits starting with a non-zero digit denote a positive number |
| TsBytes.DecOfParseDec | src/structures/bytes.ts:33-37 | canonical digits are the decimal text of their value |
| TsBytes.Split | src/structures/bytes.ts:32 | `split('.')` yields at least one part |
| TsBytes.SplitPrefix | src/structures/bytes.ts:32 | a dot-free prefix joins the first part of the split |
| TsBytes.SplitJoin | src/structures/bytes.ts:32 | splitting dot-free parts joined with dots gives the parts back |
| TsBytes.Dot2Num | src/structures/bytes.ts:31-34 | a number (not NaN) exactly when there are at least four parts and each of the first four converts; the number is the big-endian combination of their values |
| TsBytes.ToNumber | src/structures/bytes.ts:33 | a negative value only from a trimmed part that starts with `-` |
| TsBytes.Trim | src/structures/bytes.ts:33 | no white space left at either end |
| TsBytes.Literal | src/structures/bytes.ts:33 | a negative value only from text that starts with `-` |
| TsBytes.ToNumberOfDigits | src/structures/bytes.ts:33 | a part of decimal digits converts to its decimal value |
| TsBytes.BlankPart | src/structures/bytes.ts:33 | a part of white space only converts to 0 |
| TsBytes.PaddedDigits | src/structures/bytes.ts:33 | decimal digits between white space convert to their value |
| TsBytes.SignedDigits | src/structures/bytes.ts:33 | a leading `-` negates the digits' value and a leading `+` keeps it |
| TsBytes.PrefixedDigits | src/structures/bytes.ts:33 | a `0x`, `0o` or `0b` literal converts to its value in that radix |
| TsBytes.TrimStartSpaces | src/structures/bytes.ts:33 | leading white space is stripped up to the first other character |
| TsBytes.TrimEndSpaces | src/structures/bytes.ts:33 | trailing white space is stripped back to the last other character |
| TsBytes.JsRem | src/structures/bytes.ts:37-40 | JavaScript's `%`: Euclidean for non-negative dividends, the sign of the dividend otherwise |
| TsBytes.Shift | src/structures/bytes.ts:39 | repeated `Math.floor(num/256)` of a non-negative value stays between 0 and the value |
| TsBytes.Num2Dot | src/structures/bytes.ts:36-43 | the loop builds the four octets, least significant last, as `Octets` describes |
| TsBytes.ShiftBytes | src/structures/bytes.ts:38-41 | a 32-bit value is the big-endian combination of its shifted bytes |
| TsBytes.Num2DotOctets | src/structures/bytes.ts:36-43 | for a 32-bit value, `num2dot` writes its four bytes in decimal, most significant first |
| TsBytes.OctetStep | src/structures/bytes.ts:38-41 | each round puts one more octet in front |
| TsBytes.JoinFour | src/structures/bytes.ts:40 | four parts joined with dots |
| TsBytes.Dot2NumParts | src/structures/bytes.ts:31-34 | four decimal parts convert to their big-endian value |
| TsBytes.Dot2NumOctets | src/structures/bytes.ts:31-34 | four decimal octets joined with dots convert to their big-endian value |
| TsBytes.NumRoundTrip | src/structures/bytes.ts:31-43 | `dot2num(num2dot(num)) == num` for every 32-bit value |
| TsBytes.IpRoundTrip | src/structures/bytes.ts:31-43 | `num2dot(dot2num(ip)) == ip` for every canonical dotted quad |
| TsBytes.QuadShifts | src/structures/bytes.ts:38-41 | the bytes of a combined quad are recovered by the shifts |
| TsBytes.JoinSplit | src/structures/bytes.ts:32 | joining the parts of a split gives the string back |
| TsTlv.ToBuffer | src/structures/TLV.ts:11-53 | throws exactly when the type or the payload length is outside 0..65535; otherwise 4 + length bytes whose words read back as the type and the length, followed by the payload |
| TsTlv.FromBuffer | src/structures/TLV.ts:15-21 | throws exactly on fewer than 4 bytes; the type is the signed first word; the payload is `slice(4, 4 + len)` with a signed `len`, taking fewer bytes when the input ends first and counting from the end for negative lengths |
| TsTlv.RoundTrip | src/structures/TLV.ts:15-53 | a TLV whose type and length fit the signed 16-bit range decodes back from its encoding, whatever follows |
| TsTlv.HighTypeReadsNegative | src/structures/TLV.ts:16-50 | a type of 0x8000 or more decodes as that type minus 65536 |
| TsTlv.FactoryEncodings | src/structures/TLV.ts:23-37 | the username, BOS address and cookie TLVs encode as types 1, 5, 6 followed by the string; the error TLV as type 8 with payload 0 and the code's low byte |
| TsTlv.ListBytes | src/structures/SNAC.ts:128-130 | a list encodes exactly when each of its TLVs does |
| TsSnac.Be32s | src/structures/SNAC.ts:22-29 | four bytes per value |
| TsSnac.Be32sAt | src/structures/SNAC.ts:22-29 | value i reads back at offset 4i |
| TsSnac.RateClassBytes | src/structures/SNAC.ts:19-32 | throws exactly when a field is out of its unsigned range; otherwise 35 bytes with the id at 0, the eight levels at 2 + 4i and the status at 34, each reading back |
| TsSnac.PairBytes | src/structures/SNAC.ts:37-42 | throws exactly when service or subtype is outside the signed 16-bit range; otherwise 4 bytes reading back, signed, as the pair |
| TsSnac.GroupBytes | src/structures/SNAC.ts:48-54 | throws exactly when the id, the pair count or a pair is out of range; otherwise 4 + 4n bytes whose signed words read back as the id and the pair count |
| TsSnac.GroupPairAt | src/structures/SNAC.ts:48-54 | pair k occupies bytes 4 + 4k to 8 + 4k |
| TsSnac.RateBytes | src/structures/SNAC.ts:57-62 | throws exactly when the class or the group does; otherwise the class's 35 bytes then the group's |
| TsSnac.Make | src/structures/SNAC.ts:64-74 | a nonzero request id is kept and the counter untouched; a zero id takes the counter, which advances by one; the other fields are stored as given |
| TsSnac.FlagField | src/structures/SNAC.ts:122-123 | header bytes 4 and 5 are the first two flag bytes, zero-filled when fewer are given |
| TsSnac.PayloadBytes | src/structures/SNAC.ts:125-132 | a Buffer payload is copied as-is; a TLV list is marshalled in order; an empty list gives nothing |
| TsSnac.ToBuffer | src/structures/SNAC.ts:118-133 | throws exactly when a header field is out of range, the flags exceed six bytes or the payload throws; otherwise 10 header bytes whose fields read back, then the payload |
| TsSnac.Parse | src/structures/SNAC.ts:76-102 | fails exactly below 10 bytes or when a TLV payload cannot be read; service, subtype read signed; flags are bytes 4-5; a nonzero request id is kept, a zero one takes the counter |
| TsSnac.RawRoundTrip | src/structures/SNAC.ts:76-133 | a raw-payload SNAC of one of the nine raw pairs, with a positive signed request id, decodes from its encoding with its flags cut to two bytes and the counter untouched |
| TsSnac.TlvRoundTrip | src/structures/SNAC.ts:76-133 | the same for a TLV-payload SNAC outside the raw pairs, given a list reader that reads back what the list marshals to |
| TsSnac.RatesPayload | src/structures/SNAC.ts:104-109 | throws exactly when there are 65536 rates or more or a rate throws; otherwise the count word then each rate's bytes in order |
| TsSnac.ForRateClass | src/structures/SNAC.ts:104-112 | a raw SNAC with the rates payload, the counter's id and empty flags; throws, leaving the counter alone, when the payload cannot be written |
| TsSnac.RequestIds.constructor | src/structures/SNAC.ts:64 | the counter starts at 0x2000 with no id issued |
| TsSnac.RequestIds.New | src/structures/SNAC.ts:67-74 | the SNAC and the counter are those of `Make`; the id is never zero; an id taken from the counter was never issued before |
| TsSnac.RequestIds.FromBuffer | src/structures/SNAC.ts:76-102 | the SNAC and the counter are those of `Parse`; a throw leaves the counter alone |
| TsSnac.RequestIds.ForRates | src/structures/SNAC.ts:104-112 | the SNAC and the counter are those of `ForRateClass`; a throw leaves the counter alone |
| TsFlap.NewFlap | src/structures/FLAP.ts:24-35 | throws exactly when a SNAC payload cannot be written; otherwise the fields as given, with `payloadLength` the length of the payload's bytes |
| TsFlap.ToBytes | src/structures/FLAP.ts:45-58 | throws exactly when channel, sequence number or length is outside its signed range or the payload throws; otherwise 0x2a, the signed fields reading back, then the payload |
| TsFlap.ConstructedLength | src/structures/FLAP.ts:24-58 | a constructed frame is written as 6 + `payloadLength` bytes |
| TsFlap.FromBytes | src/structures/FLAP.ts:7-20 | throws below 6 bytes or without 0x2a first; channel and sequence number read signed; the payload is a SNAC exactly on channel 2; off channel 2 the counter is untouched |
| TsFlap.FrameFields | src/structures/FLAP.ts:7-58 | `fromBuffer` reads back the header fields of a written frame and slices out exactly its payload, whatever follows |
| TsFlap.DataRoundTrip | src/structures/FLAP.ts:7-58 | a raw frame off channel 2 with fields in the signed ranges decodes from its own bytes, whatever follows, leaving the counter alone |
| TsFlap.SnacRoundTrip | src/structures/FLAP.ts:7-58 | a channel-2 frame around a raw-pair SNAC decodes to the same frame, whatever follows, leaving the counter alone |
| TsFlap.FirstSnacParse | tests/data-structures.ts:21-22 | the test's first SNAC reads as service 1, subtype 0x0e, an empty raw payload, and takes the counter for its zero request id |
| TsFlap.ConsumesFirstMessage | tests/data-structures.ts:28-34 | the test's first frame reads as channel 2 with `payloadLength` 10 and the SNAC (1, 0x0e) |
| TsFlap.AuthRequestExample | tests/data-structures.ts:9-16 | the test's frame around SNAC (0x17, 0x06) with one TLV is channel 2, service 23, subtype 6, with one TLV |

## Left out

- Sockets, logging (`log`, `slog`, `PrettyBytes`, `String` methods, `oscar_log_handler.go`) and goroutines are not modelled. A socket read is the chunk handed to `Reassembly.Connection.Receive`, and a write is the frame appended to `Session.written`.
- `Server.FrameHandler.Handle` takes what each read returns as an offer: a chunk, a timeout, or another error. The 30-second read deadline (server.go:63) is the timeout offer. The 512-byte cap on one read (server.go:65) is not modelled, so a chunk of any length stands for the same bytes arriving over several reads, which `Server.ReadsSplitFreely` shows changes nothing while the connection stays open.
- Concurrency is not modelled. The `SessionManager` mutex, channel blocking and the interleaving of the routines with the handlers are left out: calls are sequential, and a channel is the sequence of values pushed to it.
- SQL is not modelled. The database is a `Store` whose reads and writes fail while its `canRead` and `canWrite` flags are false. The text of each query is replaced by its effect on the rows.
- MD5 (RFC 1321) is the uninterpreted `Crypto.md5` parameter.
- JSON (RFC 8259) encoding of the cookie is the uninterpreted `Crypto.marshal` and `Crypto.unmarshal` parameters.
- The random bytes of `GenerateCipher` are a parameter. Its base32 encoding and truncation to 64 characters are taken as given bytes.
- Clock readings (`time.Now`, `time.Since`) are parameters in Unix seconds.
- Go's random map iteration order in generic.go is the `order` parameter, any listing of the families that names each one once.
- The `SRV_HOST` configuration value is the `srvHost` parameter.
- Configuration, migrations, `cmd/`, the directory search service (0x0f), `basicauth.go`, `db.go` and `util.go` at the top level are not part of this model.
- The snapshot does not compile as a whole, and the model follows each file's evident meaning:
  - `Session.Disconnect`, `Session.Logger` and `Session.ScreenName` are used but not declared in oscar/session.go. They are modelled as closing the connection, a no-op, and a field.
  - server.go:151 takes three results from `AuthenticateFLAPCookie`. The model returns the user or the fault. The server calls the function as written, so a cookie for an unknown UIN crashes it (`Server.ChannelOne`); `Auth.AuthenticateCookie` is the corrected check, proved separately.
  - `user.SetAway` (main.go:82) is not defined. It is modelled as a write of the status column.
  - Location subtype 0x05 reads `user.LastActivityAt` of an out-of-scope `user`. The idle time is a clock parameter.
  - `Status` is a string in the records but a number on the wire. The wire code is a `code` parameter.
  - server.go:164 writes `service.Family` for each value of `services.ServiceVersions`, a `map[uint16]uint16` whose values are plain numbers with no `Family` field. `Server.FrameHandler.FamilyList` writes the map's family keys, in the map's iteration order, which is the parameter `order`.
  - online_routine.go:40 and 77 call `getSession`, which is declared nowhere. `Presence.Targets` looks the buddy up with `Managers.SessionManager.GetSession`.
  - `models.UserByScreenName` (services/0x02_location_services.go:93, services/0x03_buddy_list_management.go:46 and 87) is not declared in models/User.go. `Models.UserByScreenName` looks the user up by screen name, as `UserByUsername` does by username.
  - models/User.go declares no `ScreenName`, `AwayMessage`, `AwayMessageEncoding`, `Profile` or `ProfileEncoding` field, although the services read and write them. `Models.User` carries all five.
  - message_delivery_routine.go:71 reads `message.StoreOffline`, which models/Message.go does not declare. `Models.Message` carries it as `storeOffline`.
  - `user.Update(ctx, db, "status")` (services/0x01_generic_service_controls.go:41 and 103) and the four-column call at services/0x02_location_services.go:73 pass column names to the two-argument `Update` of models/User.go:69. `Models.Store.UpdateColumns` writes only the named columns.
  - `models.UserStatusOnline`, `UserStatusAway`, `UserStatusActive` and `UserStatusInactive` are declared nowhere. They are set at services/0x01_generic_service_controls.go:40 and 102 and services/0x02_location_services.go:68 and 70, and tested at online_routine.go:29 and 68. `Models.Status` takes them as four distinct values, plus `Unset` for an empty column. The handlers only ever set `Online` and `Away`, and the close handler sets `Away`. The presence routine acts only on `Active` and `Inactive` (`Presence.React` ignores every other status), so under this reading it never notifies anyone about a user the handlers push.
  - `oscar.SessionFromContext` is called by server.go:47, by main.go:89 and 97, by 0x04_ICBM.go:53 and by every service, but oscar/session.go declares only `CurrentSession` (line 41). The model's handlers use `Session.CurrentSession`.
  - server.go:46 calls `oscar.NewContextWithSession` with three arguments (the logger third), but oscar/session.go:36 takes two. `Session.ContextWithSession` takes the session alone, and the logger is left out.
  - services/0x17_authorization_registration_service.go:51 passes the cookie's `UIN`, an `int64` (line 25), to `models.UserByUIN`, which takes an `int` (models/User.go:46). `Models.UserByUIN` takes an unbounded integer, so no conversion is modelled.
- `Icbm.ReadText`: the check `n < fragmentLength-4` (0x04_ICBM.go:175) can never fire after a successful `Read`, so it has no branch in the model.
- Feedbag items are always the empty list (0x13_feedbag.go:111). The feedbag service is never registered in main.go. `Managers.ServiceRegistryScenario` shows family 0x13 is absent.
- `TLV.fromBufferBlob`, called at src/structures/SNAC.ts:98, is not declared in src/structures/TLV.ts at all, which has only `fromBuffer` for a single record. `TsSnac.Parse` takes the list reader as the `blob` parameter, and `TsSnac.TlvRoundTrip` assumes only that it reads back what `TsTlv.ListBytes` writes.
- `TsFlap.FromBytes`: `FLAP` declares no `length` property, so the test's `message.length === 16` (tests/data-structures.ts:31) compares `undefined`. Slicing the second frame by it is not modelled.
- JavaScript numbers are mathematical integers, and `Buffer.from(string)` is taken as the string's bytes.
- TsBytes.Dot2Num: numbers above 2^53 are not rounded, and NaN is `None`.
- Presence.ArrivalInfo: takes one clock reading (`idle`, `now`) per arrival event. online_routine.go:49-50 call `time.Since` and `time.Now` again for each watcher, so watchers notified at different instants can see different idle and sign-on times; the model gives them all the same values.
- TsBytes.ToNumber: a part with a decimal point or exponent (`1.5`, `1e2`) or `Infinity`, signed or not, converts to `None`, although JavaScript gives a number; only the integer literals are modelled.
- The TypeScript services, `communicator.ts` and the proxy entry points are not part of this model.
- Tlv.Marshal: for a declared length above 65531, `make([]byte, 4+t.DataLength)` (oscar/tlv.go:35) wraps in 16 bits and the header writes then panic. The model marshals such records in full, and every record the handlers build is far shorter.

## Findings

| source | as written | input that shows it | evidently intended | confidence | as-written member | corrected member |
|---|---|---|---|---|---|---|
| util/util.go:13-24 | after cutting a chunk `SplitBy(s, n)` sets `i` to 1 and the loop then increments it, so the scan resumes at index 2; with `n == 1` every chunk after the first has two elements | `SplitBy("abcde", 1)` gives `"a"`, `"bc"`, `"de"` | chunks of `n` elements each, the last one possibly shorter | not executed | Util.SplitByOneCounterexample | Util.SplitByFixed |
| services/0x17_authorization_registration_service.go:51-58 | a cookie whose UIN matches no user passes the nil user on, so the handler dereferences it and panics | a well-formed cookie for a UIN with no row | reject the cookie as an unknown user | not executed | Auth.UnknownUinPanics | Auth.AuthenticateCookie |
| src/structures/bytes.ts:19-23 | `qword` writes the 32-bit value at offset 0 of an 8-byte buffer, so the zero half comes last | `qword(1)` reads back as 2^32 | the value in the low half, reading back as itself | not executed | TsBytes.QwordCounterexample | TsBytes.QwordFixed |
