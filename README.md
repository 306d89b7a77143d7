# TCNet client model

This project models node-tcnet, a TypeScript client for TCNet, the UDP protocol that DJ
equipment bridges use to publish layer state and answer data requests. It has four layers.

- **Wire (`wire.dfy`).** These are Node's `Buffer` primitives as the codec uses them. Integers are
  unsigned little-endian at fixed offsets. Text is stored with `buffer.write(text, off, "ascii")`,
  which writes as many characters as fit and keeps the low byte of each. It is read back with
  `toString("ascii")`, which clears the high bit, and then `replace(/\0.*$/g, "")`, whose `.`
  does not match a line terminator.
- **Network (`network.dfy`, `network_properties.dfy`).** This is the message codec: the 24-byte
  management header and the OptIn, OptOut, Status, Request, Data and Metadata messages.
  - Reads are functions of the datagram's bytes.
  - Writes are in-place array methods, each tied to a function that says what the buffer holds
    afterwards.
  - The properties are round trips (header, OptIn, OptOut, Request/Data, whole datagrams),
    footprints, and the exact fields the receive-only Status and Metadata reads depend on.
  - The OptIn writer has a defect (see Findings). `Encode`, which the client sends with,
    keeps it. `EncodeIntended` is the same encoder with the corrected OptIn writer, and the
    whole-datagram round trip for OptIn is proved about that one.
- **Client (`tcnet.dfy`).** This is `TCNetClient` as a class whose fields are the source's state:
  - the sequence and uptime counters;
  - the discovered server;
  - the connect waiter;
  - the table of pending data requests.

  Sockets, timers and promises become explicit inputs and outputs. Each receive callback, timer
  expiry and send outcome is a method call. Sent datagrams are appended to `sent`, and emitted
  events and settled promises are appended to `events`.
- **Pioneer (`pioneer.dfy`).** This is `PioneerDJState`: two arrays of eight layer values,
  updated in place. It also covers the notification logic of `PioneerDJTCClient.receiveBroadcast`.

Where a description of the protocol and the code disagree, the model follows the code:

- A second `requestData` for the same data type and layer replaces the first resolver. The first
  promise then only settles through its own timeout.
- A Data response resolves the stored resolver but does not remove its key.
- `disconnect` does not reject pending requests.
- The header checks for major version and magic only log. A datagram that fails them is
  processed anyway: `HeaderValid` is a property, not a decode failure.
- A Master's OptOut forgets the server only when both the sender's address and the listener port
  in the OptOut match the server. The node id is not compared.
- The Master test is the equality `nodeType == 2`, not a bit test.
- A Time message whose parse gives null is still published, as `TimeEvent(None)`.
- A malformed datagram is not simply discarded. A datagram shorter than 24 bytes, a message type
  missing from the registry, or a read past the end of the datagram throws inside the socket
  listener. Nothing catches it, so one such datagram from any host ends the process.
- `server` has no initializer, so before any Master OptIn arrives it is `undefined`, not `null`.
  The guard `this.server === null` then does not fire, and `sendServer` fails with a TypeError
  instead of "Server not yet discovered" (`ServerUnset` versus `ServerNotDiscovered`).

## Model

| member | source | states |
|---|---|---|
| Wire.U16At | src/network.ts:71 | a 16-bit little-endian read has the byte at the offset as its low base-256 digit and the next byte as its high digit |
| Wire.U32At | src/network.ts:82 | a 32-bit little-endian read has the four bytes from the offset as its base-256 digits, least significant first |
| Wire.SetU16LE | src/network.ts:88 | a 16-bit little-endian write reads back as the value and changes only its two bytes |
| Wire.SetU32LE | src/network.ts:97 | a 32-bit little-endian write reads back as the value and changes only its four bytes |
| Wire.StripNulTail | src/network.ts:78 | the regex strip cuts the text at the first NUL with no line terminator after it; every NUL kept has a line terminator after it |
| Wire.SetText | src/network.ts:93 | `buffer.write` stores the low byte of each character that fits before the end of the buffer and leaves every other byte alone |
| Wire.TextField | src/network.ts:78 | a decoded text field is no longer than its slice, and each character is the low 7 bits of the byte at its place |
| Wire.FieldRoundTrip | src/network.ts:78-93 | plain 7-bit text of at most w characters, written NUL-padded to width w, reads back unchanged |
| Wire.PutText | src/network.ts:93 | the in-place copy loop leaves the buffer holding `SetText` of the old contents |
| Wire.PutU8 | src/network.ts:89 | the in-place byte write leaves the buffer equal to `SetU8` of its old contents |
| Wire.PutU16LE | src/network.ts:88 | the in-place 16-bit write leaves the buffer equal to `SetU16LE` of its old contents |
| Wire.PutU32LE | src/network.ts:97 | the in-place 32-bit write leaves the buffer equal to `SetU32LE` of its old contents |
| Wire.SetU8 | src/network.ts:89-95 | a byte write puts the value at its offset and changes no other byte |
| Wire.AsciiDecode | src/network.ts:75-78 | the ascii read keeps the length and clears the high bit of every byte |
| Wire.AsciiEncode | src/network.ts:91-93 | the ascii write keeps the length and stores the low byte of every character |
| Wire.PadEnd | src/network.ts:93 | padding to width w keeps the text as its prefix and fills the rest up to w with NUL; longer text is left as it is |
| Wire.PlainBytesRead | src/network.ts:78 | bytes that encode plain 7-bit text, read as a field exactly as wide, give back that text |
| Network.MessageTypeOf | src/network.ts:3-17 | a code maps to the message type with that code, and to none exactly when no type has it |
| Network.DataPacketTypeOf | src/network.ts:19-27 | the same for data sub-types |
| Network.NodeTypeOf | src/network.ts:29-34 | the same for node types |
| Network.LayerStatusOf | src/network.ts:166-177 | the same for layer states |
| Network.Length | src/network.ts:135-286 | every modelled class's `length()` covers the 24-byte header, and the Metadata class's covers the 547 bytes its read uses |
| Network.TypeCode | src/network.ts:139-141 | every modelled class's `type()` is a known message type, and only Data and its Metadata sub-class answer the Data type |
| Network.DecodeHeader | src/network.ts:70-83 | the header read fails exactly when the datagram is shorter than 24 bytes |
| Network.HeaderValid | src/network.ts:73-75 | the two header checks pass exactly when byte 2 is the major version and bytes 4-6, high bits cleared, spell "TCN" |
| Network.HeaderInto | src/network.ts:85-98 | a header write keeps the buffer's length and leaves every byte past both the header and the written name untouched |
| Network.WriteHeader | src/network.ts:85-98 | the in-place header write leaves the buffer equal to `HeaderInto` of its old contents |
| NetworkProperties.HeaderFixedFields | src/network.ts:85-98 | after a header write the version and "TCN" checks pass and every numeric field sits at its offset |
| NetworkProperties.DecodeHeaderReadsPrefix | src/network.ts:70-83 | the header read and its checks depend only on bytes 0-23 |
| NetworkProperties.HeaderRoundTrip | src/network.ts:70-98 | a header with a name of at most 8 plain characters reads back unchanged and passes both checks |
| NetworkProperties.HeaderLongNameTruncated | src/network.ts:78-93 | a longer name is logged, not rejected, and reads back as its first 8 characters |
| NetworkProperties.HeaderFootprint | src/network.ts:93 | past the header every byte keeps its value, except that a name longer than 16 characters spills its characters from index 16 on into bytes 24 and up |
| NetworkProperties.HeaderByteOneOverwritten | src/network.ts:70-83 | a written header whose byte 1 is then overwritten with 66 still passes both checks and reads back with 66 as the node id's high byte |
| Network.DecodeOptIn | src/network.ts:111-120 | an OptIn read gives vendor and app names of at most 16 characters, each character 7-bit |
| Network.OptInFieldsInto | src/network.ts:121-129 | the counter and name writes put the three counters where the read finds them and keep the header bytes |
| Network.WriteOptInFields | src/network.ts:121-129 | the in-place counter and name writes leave the buffer equal to `OptInFieldsInto` of its old contents |
| NetworkProperties.OptInFieldsRoundTrip | src/network.ts:111-128 | the counters and names of an OptIn read back as written |
| NetworkProperties.OptInRoundTrip | src/network.ts:111-133 | the corrected OptIn write reads back to the same body and leaves the header bytes alone |
| Network.OptInIntoAsWritten | src/network.ts:121-133 | the write as coded fails exactly when a version is at least 68, since each version is used as an offset; otherwise 66 lands at offset `bugVersion`, 65 at `minorVersion` and 64 at `majorVersion` unless a later write reuses the offset, and every other byte is what the counter and name writes left |
| NetworkProperties.OptInAsWrittenVersions | src/network.ts:130-132 | as coded, versions 1.1.1 leave bytes 64-66 untouched and put 66 at byte 1 |
| NetworkProperties.AnnouncedOptInAsWritten | src/network.ts:121-133 | an OptIn with versions 1.1.1 as coded encodes, passes the header checks, and reads back with the node id's high byte replaced by 66 and versions 0.0.0, every other header and body field as written |
| NetworkProperties.OptInVersionsZero | src/network.ts:111-120 | an OptIn buffer with bytes 64-66 zero reads back with version 0.0.0 and the counters and names of bytes 24-63 |
| Network.OptInInto | src/network.ts:121-133 | the corrected write stores the three versions at bytes 64, 65 and 66 and leaves the header bytes alone |
| Network.WriteOptIn | src/network.ts:121-133 | the in-place OptIn write as coded succeeds exactly when `OptInIntoAsWritten` does and then leaves the buffer equal to it; a version past 67 throws a range error with the earlier writes already made |
| Network.WriteOptInIntended | src/network.ts:121-133 | the corrected in-place OptIn write leaves the buffer equal to `OptInInto` of its old contents |
| Network.DecodeOptOut | src/network.ts:148-151 | writing back the two counters an OptOut read gives restores the exact buffer |
| Network.OptOutInto | src/network.ts:152-156 | the OptOut write puts the node count at 24-25 and the listener port at 26-27 and keeps the header bytes |
| NetworkProperties.OptOutRoundTrip | src/network.ts:148-156 | the OptOut body reads back as written; the header bytes are untouched |
| Network.WriteOptOut | src/network.ts:152-156 | the in-place OptOut write leaves the buffer equal to `OptOutInto` of its old contents |
| Network.TypeLayerInto | src/network.ts:231-237 | the Request/Data write fails exactly when the data type or layer exceeds 255; otherwise bytes 24 and 25 hold them and bytes 0-23 are kept |
| NetworkProperties.TypeLayerRoundTrip | src/network.ts:227-260 | a data type and layer up to 255 read back through both the Request and the Data class |
| Network.WriteTypeLayer | src/network.ts:254-260 | the in-place write succeeds exactly when `TypeLayerInto` does; a data type past 255 leaves the buffer untouched, while a layer past 255 throws after byte 24 already holds the data type |
| Network.ReadStatus | src/network.ts:189-211 | the four fill loops produce exactly the Status read function's body |
| Network.ReadLayerBytes | src/network.ts:193-198 | each of the first two loops copies the eight bytes from its offset, 34 or 42 |
| Network.ReadTrackIDs | src/network.ts:199-201 | the third loop reads the eight 32-bit track ids from byte 50 on |
| Network.ReadLayerNames | src/network.ts:205-210 | the fourth loop reads the eight 16-byte layer names from byte 172 on |
| Network.DecodeStatus | src/network.ts:189-211 | a Status read gives eight entries in each array and layer names of at most 16 characters |
| NetworkProperties.StatusReadsOnlyFields | src/network.ts:189-211 | a Status read depends only on bytes 24-27, 34-84 and 172-299 |
| Network.DecodeMetadata | src/network.ts:275-280 | the Metadata read throws exactly when the buffer ends before byte 547 |
| NetworkProperties.MetadataReadsOnlyFields | src/network.ts:275-286 | a 548-byte Metadata read succeeds and depends only on bytes 29-546 |
| Network.Read | src/network.ts:111-266 | a class's read of a buffer that passed its length check throws exactly when a class outside this model reads past the datagram's end; otherwise it gives a body of that class's length, with Request and Data fields within 0-255 |
| Network.ReadData | src/tcnet.ts:189-196 | re-reading by Data sub-class throws exactly when the datagram ends before the last byte the class reads: byte 547 for Metadata, the class's own extent for the others |
| Network.Encode | src/tcnet.ts:264-271 | building a datagram, with the OptIn writer as coded, succeeds exactly for encodable bodies and gives `length()` bytes; an OptIn with a version past 67 throws a range error, and Status and Metadata `write()` throw "not supported" |
| Network.EncodeIntended | src/tcnet.ts:264-271 | with the corrected OptIn writer every OptIn encodes, and every other body encodes exactly as `Encode` does |
| NetworkProperties.DatagramRoundTrip | src/tcnet.ts:264-271 | with the corrected writer, a built datagram has its class's length, passes the header checks, and reads back to the same header and body |
| NetworkProperties.SentDatagramRoundTrip | src/tcnet.ts:264-271 | as coded, every encodable OptOut, Request and Data datagram has its class's length, passes the header checks, and reads back to the same header and body |
| Client.DefaultConfiguration | src/tcnet.ts:11-22 | the default node, vendor and app names fit their 8- and 16-byte fields |
| Client.ParsePacket | src/tcnet.ts:124-145 | a code missing from the registry throws; a null entry or a length mismatch gives null; otherwise the class reads the datagram, and the parse throws exactly when that read runs past the datagram's end |
| Client.MetadataThroughDataClass | src/tcnet.ts:124-196 | through the 26-byte Data class, every parsed Data datagram is too short for a Metadata read |
| Client.Decimal | src/tcnet.ts:338 | a rendered number is one or more decimal digits, and a single digit exactly when it is below 10 |
| Client.DecimalInjective | src/tcnet.ts:198 | different numbers render as different decimal strings |
| Client.RequestKey | src/tcnet.ts:338 | a request key is at least three characters, all decimal digits or the dash |
| Client.RequestKeyInjective | src/tcnet.ts:198 | two requests share a key only when data type and layer are both equal |
| Client.NextSeq | src/tcnet.ts:250 | the next sequence number is always in 0..254 |
| Client.SeqAfterIsModulo | src/tcnet.ts:250 | the k-th header carries sequence number k mod 255 |
| Client.UptimeAfterIsModulo | src/tcnet.ts:298-303 | the k-th announcement carries uptime k mod 43200 |
| Client.NextUptime | src/tcnet.ts:298-303 | the counter stays in 0..43199 and returns to 0 exactly after 43199 |
| Client.OwnHeader | src/tcnet.ts:246-253 | the filled header carries the packet's `type()`, the given sequence number, the configured node id and name, minor version 5, node type 4, and zero options and timestamp |
| Client.Announcement | src/tcnet.ts:295-309 | the announcement is an OptIn carrying the given uptime and the configured listener port, with versions that even the writer as coded accepts |
| Client.AnnouncementReadsBack | src/tcnet.ts:294-310 | the announcement as coded parses at the peer to the header the client filled in but with 66 as the node id's high byte, and to the OptIn it filled in but with version 0.0.0 |
| Client.AnnouncementReadsBackIntended | src/tcnet.ts:294-310 | with the corrected writer the announcement parses back to exactly the header and OptIn the client filled in |
| Client.TCNetClient.constructor | src/tcnet.ts:33-37 | a new client has both counters at 0, no server, is not connected and has no requests |
| Client.TCNetClient.Settle | src/tcnet.ts:198-200 | a promise settles at most once |
| Client.TCNetClient.FillHeader | src/tcnet.ts:243-254 | the sequence number advances mod 255 and the header carries it, the node id and name, minor version 5 and node type 4 |
| Client.TCNetClient.SendPacket | src/tcnet.ts:264-277 | the header is filled even when `write()` throws; only encodable bodies are sent |
| Client.TCNetClient.SendServer | src/tcnet.ts:283-289 | with no server, nothing is filled or sent, with a TypeError before discovery and "Server not yet discovered" after a clear |
| Client.TCNetClient.BroadcastPacket | src/tcnet.ts:321-323 | the packet goes to the broadcast address on port 60000 |
| Client.TCNetClient.AnnounceApp | src/tcnet.ts:294-314 | the pre-increment uptime is announced by broadcast, then to the server only if the broadcast succeeded and a server is known |
| Client.TCNetClient.Connect | src/tcnet.ts:86-89 | the first announcement leaves counters and sends exactly as `AnnounceApp` states; after a successful one announcing starts and the connect waiter is stored, a failed one changes neither |
| Client.TCNetClient.Tick | src/tcnet.ts:87 | while announcing, each interval expiry is one announcement with exactly `AnnounceApp`'s effect; otherwise nothing changes |
| Client.TCNetClient.Disconnect | src/tcnet.ts:95-101 | announcing stops and the client is not connected |
| Client.TCNetClient.ConnectTimeout | src/tcnet.ts:110-115 | if still not connected, disconnect and reject `connect()` once; otherwise nothing |
| Client.TCNetClient.ReceiveBroadcast | src/tcnet.ts:153-175 | the server is cleared exactly by a Master OptOut matching address and port; parsed packets are published only while connected |
| Client.TCNetClient.ReceiveData | src/tcnet.ts:188-202 | a Data sub-type missing from the registry throws; a null entry is ignored; a read past the datagram's end throws; otherwise the resolver under the key, if any, gets the response and stays |
| Client.TCNetClient.MasterFound | src/tcnet.ts:205-214 | the Master becomes the server; a stored connect waiter marks the client connected, resolves a pending `connect()` once and is cleared |
| Client.TCNetClient.ReceiveUnicast | src/tcnet.ts:183-219 | Data is re-read by sub-type and resolves the request under its own key, which stays; a Master OptIn sets the server from the sender's address and the listener port, and resolves a stored waiter once |
| Client.TCNetClient.ReceiveTimestamp | src/tcnet.ts:226-236 | non-Time datagrams are dropped; a Time datagram is published even if parsing gave null |
| Client.TCNetClient.RequestData | src/tcnet.ts:332-351 | the resolver replaces any under the same key, and the key is recorded as the one this call's timeout tests; a failed send removes the key and rejects this call |
| Client.TCNetClient.Store | src/tcnet.ts:338 | the call's resolver is stored under its key, replacing any there, and every stored resolver stays under the key its own call computed |
| Client.TCNetClient.Abandon | src/tcnet.ts:346-349 | the key is removed and the call's promise is rejected, at most once |
| Client.TCNetClient.RequestTimeout | src/tcnet.ts:340-344 | the timeout of a call tests the key that call computed: if it is still present it is removed and that call rejected; otherwise nothing changes |
| Pioneer.ChangedLayers | src/pioneer.ts:214-226 | the reported layers are 1-based layer numbers, strictly ascending, at most one per layer |
| Pioneer.ChangedPrefixExact | src/pioneer.ts:216-225 | the changes collected so far are exactly the differing layers, bounded and strictly ascending |
| Pioneer.ChangedLayersExact | src/pioneer.ts:214-226 | `update` reports exactly the 1-based layers whose value changed, strictly ascending, without duplicates |
| Pioneer.NothingChanged | src/pioneer.ts:219 | updating to the values already held reports no layer |
| Pioneer.NoChangeIffEqual | src/pioneer.ts:214-226 | `update` reports no layer exactly when the new values equal the ones held |
| Pioneer.FirstUpdateReports | src/pioneer.ts:169-170 | from the initial all -1 state, the first update reports exactly the layers whose incoming value is not -1 |
| Pioneer.LayerIndexOf | src/pioneer.ts:140-149 | a number maps to the layer index with that value, or to none when no index has it |
| Pioneer.LayerToIdx | src/pioneer.ts:159-162 | the layer number is returned unchanged; 1..4 name the numbered layers |
| Pioneer.LayerToIdxNames | src/pioneer.ts:159-162 | every number outside 1..8 passes the logged range check and names no layer index; each n in 1..4 names layer n |
| Pioneer.PioneerDJState.constructor | src/pioneer.ts:169-170 | both arrays start as eight entries of -1 |
| Pioneer.PioneerDJState.TrackID | src/pioneer.ts:177-179 | entry idx-1 for idx in 1..8, undefined otherwise |
| Pioneer.PioneerDJState.Status | src/pioneer.ts:186-188 | entry idx-1 for idx in 1..8, undefined otherwise |
| Pioneer.PioneerDJState.Update | src/pioneer.ts:214-226 | afterwards the array equals the source, and the result is exactly the changed layers |
| Pioneer.PioneerDJState.UpdateTrackIDs | src/pioneer.ts:195-197 | only the track IDs change |
| Pioneer.PioneerDJState.UpdateStatus | src/pioneer.ts:204-206 | only the play states change |
| Pioneer.StatusNotifications | src/pioneer.ts:65-75 | changedtrack events, then changedstatus events, then "statuschange" exactly when either list is non-empty |
| Pioneer.StatusChangeLast | src/pioneer.ts:65-75 | a non-empty list of notifications ends with its only "statuschange" |
| Pioneer.PioneerDJTCClient.constructor | src/pioneer.ts:23-35 | a new Pioneer client holds -1 for all eight layers in both arrays and has fired no event |
| Pioneer.PioneerDJTCClient.ReceiveBroadcast | src/pioneer.ts:59-77 | a Status packet updates both arrays before any event; other packets change nothing |
| Pioneer.StatusChangeOnlyOnChange | src/pioneer.ts:72-75 | a Status packet that repeats the held state fires nothing; otherwise "statuschange" fires once, last |

## Left out

- Sockets, binding, `setBroadcast` and `socket.send`. A send's outcome is a boolean parameter, and the datagram is recorded in `sent`.
- Timers. The announce interval is a `Tick` call, and the connect and request timeouts are method calls.
- Client.TCNetClient.ReceiveBroadcast, Client.TCNetClient.ReceiveUnicast, Client.TCNetClient.ReceiveTimestamp: a `Failure(Crash)` result is an exception that escapes the socket listener uncaught, which ends the process in the source. The model returns the failure and the client goes on.
- Client.TCNetClient.Tick: a failed announcement inside the interval is a rejected promise that nothing handles, which ends the process on current Node. The model returns the failure and the client goes on.
- Promise interleaving. Each `await` chain runs as one atomic step, so the model does not capture a request's failed-send handler deleting a key that a later request with the same key has meanwhile stored.
- `EventEmitter` and `removeAllListeners`. Emitted events are appended to `events` instead.
- `utils.ts` `interfaceAddress`, the `broadcastInterface` option and the `debug` logging. These are I/O.
- `disconnect` before `connect` (closing undefined sockets), and the timestamp socket that `disconnect` leaves open.
- Client.TCNetClient.ConnectTimeout: a user `disconnect()` before the timeout is not modelled as a crash. In the source the timeout's second `disconnect()` throws on the already closed broadcast socket, so `connect()` is never rejected; the model rejects it.
- Client.TCNetClient.Connect: this models one `connect()` at a time (`requires !connectPending`). A second call while one is pending would replace the stored waiter and is not modelled.
- The contents of the registries `TCNetPackets` and `TCNetDataPackets`. They are not part of this source, so the registries are parameters.
- The Time, Metrics, BeatGrid, Mixer and other message classes. They are not part of this source. Each is modelled only by its type code, its `length()` and the number of bytes its `read()` needs, so a read of a shorter datagram throws; a read that succeeds gives `UnmodelledPacket` / `UnmodelledResponse`.
- Numeric field values outside their width, negative values and non-integers. The `byte`, `u16` and `u32` types exclude them, except for the Request data type and layer, which are `nat` and whose write failure above 255 is modelled.
- Characters above U+FFFF and lone surrogates. A Dafny `char` is one Unicode scalar value, while a JavaScript string is a sequence of UTF-16 code units. The model writes one byte for a character such as U+1F600, where Node writes two (one per surrogate), and it cannot represent a string with an unpaired surrogate.
- The async façades `trackInfo`, `layerMetrics` and `beatGridData`. They are thin `requestData` wrappers with an object spread.
- The Pioneer client's `connect` and `disconnect`. They only attach a listener and delegate to the client.
- Pioneer.PioneerDJState.Update: `source.length == 8` is a precondition. The source only logs it, and a longer source would grow the JavaScript array.
- Pioneer.PioneerDJTCClient.ReceiveBroadcast: requires a Status body with eight entries per array, which is what the Status read produces (the contract of `Network.DecodeStatus`).

## Findings

| source | as written | input that shows it | evidently intended | confidence | as-written member | corrected member |
|---|---|---|---|---|---|---|
| src/network.ts:130-132 | `writeUInt8(64, this.majorVersion)` and the two lines after it pass the constant as the value and the version as the offset | the client's own announcement with versions 1, 1, 1: bytes 64-66 stay 0 and byte 1 (the high byte of nodeId) becomes 66 | the version bytes are written at offsets 64, 65 and 66 | not executed | Network.OptInIntoAsWritten (used by Network.Encode and Network.WriteOptIn, shown by NetworkProperties.AnnouncedOptInAsWritten and Client.AnnouncementReadsBack) | Network.OptInInto (used by Network.EncodeIntended and Network.WriteOptInIntended, proved by NetworkProperties.OptInRoundTrip, NetworkProperties.DatagramRoundTrip and Client.AnnouncementReadsBackIntended) |
