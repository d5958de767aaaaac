# whisper, modelled in Dafny

whisper is a Wisp client. It connects to a Wisp server, either over a
WebSocket or over a serial device, and exposes the multiplexed session as
a TUN network device. TCP connections and UDP flows seen on the device
become Wisp streams. The project models the parts of it that decide
things:

- the Wisp packet codec and its error type (`src/wisp/packet.rs`,
  `src/wisp/error.rs`), together with the UTF-8 encoding and validation
  the codec relies on for host names;
- the connection step (`src/util.rs`):
  - the transport choice;
  - the scheme, host and port checks;
  - the WebSocket upgrade request;
  - the protocol-extension choice;
  - the error type;
- the bridge (`src/lib.rs`):
  - the idle-timeout adapter around each UDP stream;
  - the UDP NAT table keyed by source and destination;
  - the TCP stream-open rule;
- the C interface (`src/ffi.rs`): the two-slot global state with
  `init`, `start`, `stop`, the address query and `free`;
- the command-line client's helper-tunnel branch (`src/bin/whisper.rs`).

Files:

- `wrappers.dfy`: `Option` and `Result`.
- `bounded_ints.dfy`: the 8-, 16- and 32-bit unsigned ranges.
- `utf8.dfy`: `str::bytes` and `str::from_utf8` (RFC 3629). Errors carry
  `valid_up_to` and `error_len`, as Rust's `Utf8Error` does.
- `net.dfy`: socket addresses and the accessors of a parsed URI.
- `wisp_error.dfy`, `wisp_packet.dfy`: the codec.
- `util.dfy`, `bridge.dfy`, `ffi.dfy`, `whisper_main.dfy`: the rest.

Pure code is written as functions and lemmas. Code that changes state is
written as classes whose methods change fields:

- `Bridge.TimeoutStreamSink` holds the deadline and the wrapped stream.
- `Bridge.UdpFlows` holds the UDP NAT table.
- `Ffi.Whisper` holds the two slots.

Foreign steps are passed in as outcomes: TCP, TLS, DNS, the WebSocket
handshake, the Wisp handshake, the TUN device and the helper process.
Time is an explicit clock reading in milliseconds.

The error type documents `InvalidCloseReason` as the error for a close
packet with an invalid reason (`src/wisp/error.rs:12-13`). The close-reason
decoder returns `InvalidStreamType` instead (`src/wisp/packet.rs:54`), and
the model follows the code.

`src/ffi.rs` and `src/bin/whisper.rs` call a one-argument `connect_to_wisp`.
`src/util.rs` defines a two-argument one. Each file is modelled against its
own signatures, so the C interface and the binary take the connection's
outcome as a parameter.

## Model

| member | source | states |
|---|---|---|
| WispPacket.U16LeInverse | src/wisp/packet.rs:86-98 | writing and reading a little-endian u16 are inverse, both ways |
| WispPacket.U32LeInverse | src/wisp/packet.rs:118-130 | writing and reading a little-endian u32 are inverse, both ways |
| WispPacket.StreamTypeFromByte | src/wisp/packet.rs:11-21 | accepted exactly for bytes 1 and 2, naming the type whose tag is that byte; every other byte gives `InvalidStreamType` |
| WispPacket.CloseReasonFromByte | src/wisp/packet.rs:38-57 | accepted exactly for the eleven listed bytes, naming the reason whose tag is that byte; every other byte gives `InvalidStreamType` |
| WispPacket.TagsRoundTrip | src/wisp/packet.rs:6-57 | every stream type and close reason is recovered from its tag byte |
| WispPacket.DecodeConnect | src/wisp/packet.rs:80-92 | under 3 bytes gives `PacketTooSmall`; a bad type byte gives `InvalidStreamType`; an invalid UTF-8 host gives the `Utf8Error` variant wrapping the validation error; it succeeds whenever none of these occurs, and then the type, the little-endian port and the host decode bytes 0, 1-2 and the rest |
| WispPacket.DecodeContinue | src/wisp/packet.rs:115-125 | fails, with `PacketTooSmall`, exactly when fewer than 4 bytes remain; otherwise reads the first 4 as a little-endian u32 and ignores the rest |
| WispPacket.DecodeClose | src/wisp/packet.rs:146-156 | empty input gives `PacketTooSmall`; otherwise succeeds exactly when the first byte is a listed reason, else `InvalidStreamType` |
| WispPacket.StreamTypeByte | src/wisp/packet.rs:97 | a stream type is written as 1 or 2 |
| WispPacket.CloseReasonByte | src/wisp/packet.rs:161 | a close reason is written as one of the eleven bytes the decoder accepts |
| WispPacket.PacketTypeByte | src/wisp/packet.rs:174-183 | a packet type is written as a tag in 1..4 |
| WispPacket.EncodeConnect | src/wisp/packet.rs:94-101 | a Connect body is 3 bytes plus the host's UTF-8 length, and `DecodeConnect` gives the packet back |
| WispPacket.EncodeContinue | src/wisp/packet.rs:127-132 | a Continue body is 4 bytes, and `DecodeContinue` gives the packet back |
| WispPacket.EncodeClose | src/wisp/packet.rs:158-163 | a Close body is 1 byte, and `DecodeClose` gives the packet back |
| WispPacket.EncodeBody | src/wisp/packet.rs:186-196 | a Data body is the payload itself; every other body is given back by its decoder |
| WispPacket.Encode | src/wisp/packet.rs:268-276 | the output starts with the type tag and the little-endian stream id, followed by the body |
| WispPacket.Decode | src/wisp/packet.rs:247-266 | under 5 bytes gives `PacketTooSmall`; a tag outside 1..4 gives `InvalidPacketType`; on success the tag and id come from bytes 0 and 1-4; Data is the bytes after the header; Connect, Continue and Close give exactly their body decoder's packet or error, with the header's id |
| WispPacket.EncodedLength | src/wisp/packet.rs:94-196 | an encoded packet is 5 bytes plus its body: 3 plus the host's UTF-8 length for Connect, the payload for Data, 4 for Continue, 1 for Close |
| WispPacket.RoundTrip | src/wisp/packet.rs:247-276 | decoding an encoded packet gives the packet back |
| WispPacket.DecodedReencodes | src/wisp/packet.rs:247-276 | re-encoding a decoded packet gives a prefix of the input, and the whole input for Connect and Data |
| WispPacket.TrailingBytesIgnored | src/wisp/packet.rs:115-156 | bytes appended after a Continue or Close body do not change what is decoded |
| WispPacket.ExampleHostBytes | src/wisp/packet.rs:99 | the example host is written as its 11 ASCII bytes |
| WispPacket.ExampleConnectPacket | src/wisp/packet.rs:94-101 | a worked instance of the layout written at src/wisp/packet.rs:94-101 and 268-276: the Connect packet for TCP to example.com port 80 on stream 0 is exactly 19 bytes (tag, id, type, port, host) and decodes back |
| Utf8.EncodeChar | src/wisp/packet.rs:99 | a character is written as 1 to 4 bytes |
| Utf8.Encode | src/wisp/packet.rs:99 | a string of n characters is written as n to 4n bytes |
| Utf8.FromUtf8 | src/wisp/packet.rs:89 | empty input is the empty string; a validated string has no more characters than the input has bytes; an error's `valid_up_to` lies inside the input |
| Utf8.DecodeCharAt | src/wisp/packet.rs:89 | a decoded character consumes 1 to 4 bytes, as many as its lead byte announces; an error reports the position of the bad sequence as `valid_up_to` |
| Utf8.FromUtf8Inverse | src/wisp/packet.rs:89-99 | validation accepts a byte string with result s exactly when the bytes are the UTF-8 encoding of s |
| Utf8.RoundTrip | src/wisp/packet.rs:89-99 | the UTF-8 encoding of every string validates back to that string |
| Utf8.ValidUpToIsValidPrefix | src/wisp/packet.rs:89 | on an error, `valid_up_to` lies inside the input and the bytes before it are valid UTF-8 |
| Utf8.EncodeAscii | src/wisp/packet.rs:99 | a string of ASCII characters is written as their code points |
| WispErrors.FromUtf8Error | src/wisp/error.rs:40-44 | a UTF-8 validation error becomes the `Utf8Error` variant holding it unchanged |
| WispErrors.Display | src/wisp/error.rs:46-69 | every message is non-empty; the payload variants print a fixed prefix followed by the payload's debug text |
| WispErrors.CodecErrorMessages | src/wisp/error.rs:50-54 | the four codec errors print "Packet too small", "Invalid packet type", "Invalid stream type" and "Invalid close reason" |
| WispErrors.DisplayDistinguishesUnitVariants | src/wisp/error.rs:49-64 | distinct unit variants print distinct messages |
| WispErrors.DecimalDenotes | src/wisp/error.rs:65 | the decimal digits printed for a count read back as that count |
| WispErrors.Utf8ErrorDebug | src/wisp/error.rs:65 | the debug text is the derived struct format: `Utf8Error { valid_up_to: ` and the decimal count, then `error_len: `, ending with ` }`, with `None` for a truncated sequence and `Some(` and the decimal length `)` otherwise |
| Util.Display | src/util.rs:57-72 | `Other` prints the message of the error it wraps |
| Util.DisplayFacts | src/util.rs:59-69 | every unit variant has a non-empty message of its own; wrapping one of the crate's errors in `Other` prints the same message |
| Util.ChooseTransport | src/util.rs:125-133 | the device path is used whenever one is given, the URL otherwise |
| Util.SchemeTls | src/util.rs:136-140 | TLS exactly for the secure scheme, plain exactly for the plain one, `UriHasNoScheme` exactly when there is no scheme, `UriHasInvalidScheme` exactly for any other scheme |
| Util.UrlEndpoint | src/util.rs:136-142 | scheme errors come first, then `UriHasNoHost`; it succeeds exactly when both checks pass, with the URL's host, its TLS flag and its explicit port or the default port for the flag |
| Util.DefaultPort | src/util.rs:142 | 443 with TLS, 80 without |
| Util.DefaultPorts | src/util.rs:142 | without an explicit port, `wss` dials 443 with TLS and `ws` dials 80 without |
| Util.UpgradeRequest | src/util.rs:165-176 | the request carries the generated key and targets the URL's path; for a URL without a query and a key that is a base64 16-byte nonce, it is a client opening handshake as section 4.1 of RFC 6455 requires, with the resource name as target; for a URL with a query, the target is a proper prefix of the resource name, so the query is not sent |
| Util.ExtensionSetup | src/util.rs:191-200 | version 1 offers no extensions and requires none; otherwise the UDP extension is offered and required |
| Util.ConnectToWisp | src/util.rs:121-211 | the device path never dials and reports no address; a URL failing its checks gives that check's error before any dial; a URL dials the endpoint's host and port, and on success reports the peer address, sent the upgrade request and completed the handshake; it succeeds exactly when every step succeeds and, beyond version 1, the server advertises UDP; the session negotiates UDP exactly beyond version 1 |
| Net.Path | src/util.rs:167 | the request path is non-empty whenever the URL has a scheme |
| Bridge.TimeoutStreamSink.constructor | src/lib.rs:86-93 | a new adapter has a 30-second period and its timer armed 30 s ahead |
| Bridge.TimeoutStreamSink.PollNext | src/lib.rs:99-111 | once the timer has fired it reports end-of-stream and changes nothing; otherwise it re-arms to now + 30 s and returns the next item, end-of-stream or pending |
| Bridge.TimeoutStreamSink.PollReady | src/lib.rs:117-125 | `TimedOut` exactly once the timer has fired, else the wrapped sink's readiness |
| Bridge.TimeoutStreamSink.StartSend | src/lib.rs:127-131 | re-arms the timer and hands the item to the wrapped sink |
| Bridge.TimeoutStreamSink.PollFlush | src/lib.rs:133-138 | flushes without touching the timer |
| Bridge.TimeoutStreamSink.PollClose | src/lib.rs:140-145 | flushes and closes without touching the timer |
| Bridge.TimeoutStreamSink.Send | src/lib.rs:213 | an expired adapter fails with `TimedOut` and is unchanged; otherwise the item is appended and flushed and the timer re-armed |
| Bridge.UdpFlows.constructor | src/lib.rs:208-209 | the table starts empty |
| Bridge.UdpFlows.Dispatch | src/lib.rs:211-229 | a known flow sends through its sink, which appends and flushes the datagram and re-arms its timer to now + 30 s, and stays, or is removed when the send fails (`TimedOut` exactly when its timer fired); an unknown flow requests a UDP stream to the destination and, on success, is entered with a fresh sink to which nothing has been sent, else the table is unchanged |
| Bridge.UdpFlows.DispatchForwardingFirst | src/lib.rs:218-228 | as `Dispatch`, but the new sink has been sent the datagram that opened the flow |
| Bridge.UdpFlows.ReaderStep | src/lib.rs:231-237 | a fired timer ends the reader; otherwise the timer is re-armed to now + 30 s and the next item taken: a datagram is written back from the destination to the source and the reader goes on, an error or end-of-stream ends it, and with nothing yet to read it waits; an ending reader removes the flow's key, whatever it maps to |
| Bridge.UdpFlows.ReaderStepOwnEntry | src/lib.rs:231-237 | as `ReaderStep`, but the key is removed only while it still maps to the reader's own sink |
| Bridge.UdpFlows.AcceptTcp | src/lib.rs:185-201 | an accepted TCP connection requests a TCP stream to its destination's address and port, and the UDP table is not touched |
| Bridge.FirstDatagramDropped | src/lib.rs:218-228 | after a flow is opened, the datagram that opened it has not been sent |
| Bridge.ReaderEvictsSuccessor | src/lib.rs:211-237 | an old reader ending after its flow was replaced removes the replacement from the table |
| Bridge.FirstDatagramForwarded | src/lib.rs:218-228 | with the corrected dispatch, the opening datagram is sent |
| Bridge.ReaderKeepsSuccessor | src/lib.rs:231-237 | with the corrected reader, the replacement stays in the table |
| Ffi.Whisper.constructor | src/ffi.rs:39-40 | both slots start empty |
| Ffi.Whisper.Init | src/ffi.rs:73-112 | a null URL fails before anything else; an occupied slot gives `AlreadyInitialized`; it succeeds exactly when parsing, connecting and creating the device succeed and an address was reported, and only then fills the init slot; each failure has its own error and leaves the slots unchanged |
| Ffi.Whisper.GetWsIp | src/ffi.rs:115-134 | a new string holding the init slot's server IP, else the running slot's; null exactly when both slots are empty |
| Ffi.Whisper.Free | src/ffi.rs:137-144 | null is ignored; another handed-out pointer is released |
| Ffi.Whisper.Start | src/ffi.rs:147-178 | `AlreadyStarted` is checked before `NotInitialized`; on success the init slot empties and the running slot holds the same server address; the result is the bridge's |
| Ffi.Whisper.Stop | src/ffi.rs:181-200 | `NotStarted` unless running; otherwise the running slot is emptied, even when the stop event cannot be delivered |
| Ffi.Lifecycle | src/ffi.rs:73-200 | init, start, init, stop, init succeed, succeed, fail, succeed, succeed |
| Ffi.AddressQueries | src/ffi.rs:115-134 | the address query gives null, the server IP after init, the same IP while running, and null after stop |
| WhisperMain.RewriteUrl | src/bin/whisper.rs:51-54 | the local URL has scheme `ws`, the listener's address as authority and the original path-and-query; building fails exactly when there is none, which a parsed URL with a scheme never lacks |
| WhisperMain.LocalUrlTargetsListener | src/bin/whisper.rs:51-58 | the rewritten URL is dialed in plain text at the listener's port, with the original request path |
| WhisperMain.HelperTunnel | src/bin/whisper.rs:24-63 | the bind and the helper start come first; then the "https"/"http" scheme check and the host check give their errors before any lookup; host and port are resolved; once resolved, the URL, which as parsed always has a path-and-query, is rewritten to `ws://127.0.0.1:<port>` with it and dialed, and the tunnel succeeds exactly when that connection does; on success the session is the local connection's and the reported address is the first resolved one |
| WhisperMain.Connect | src/bin/whisper.rs:21-66 | the helper tunnel is used exactly when a URL is given with the `cf` flag, the direct connection otherwise |

## Left out

- Concurrency: tokio tasks, the `select_all` join (`src/lib.rs:249-257`)
  and the shared map's concurrent semantics are left out. Each step of the
  bridge is one sequential method call.
- The frame pumps between the device and the network stack
  (`src/lib.rs:164-180`) and the network-stack construction
  (`src/lib.rs:156-160`). They are I/O plumbing.
- The `unwrap` on writing a reply (`src/lib.rs:233`). A reply is recorded
  as written.
- Rendering addresses as text (`src/lib.rs:189`, `src/lib.rs:219`,
  `src/ffi.rs:120-122`). A stream request and a C string carry the address
  value itself.
- URI parsing, `to_string_lossy`, TCP, TLS, DNS, the WebSocket handshake,
  `ClientMux::create`, TUN creation and the helper process. These are
  foreign I/O, so their outcomes are parameters. Their error texts are
  arbitrary strings.
- The generation of the `Sec-WebSocket-Key` (`src/util.rs:173`). It is
  random, so the key is a parameter.
- The process aborts when the session's driver fails
  (`src/util.rs:202-207`) or the helper exits (`src/bin/whisper.rs:35-40`),
  and the helper's command line (`src/bin/whisper.rs:26-34`). These are
  process supervision.
- `whisper_init_logging` (`src/ffi.rs:50-70`), all logging, and the lazy
  runtime construction (`src/ffi.rs:44-48`). These are environment set-up.
- The TUN configuration and the final bridge call of the binary
  (`src/bin/whisper.rs:68-90`). These are device I/O.
- `src/main.rs`, `src/pty.rs`, `src/pty/`, `src/tun/` and `src/info.rs`
  are not part of this model.
- Bridge.TimeoutStreamSink.PollReady: a wrapped sink that is not yet ready
  (back-pressure) is not modelled. The sink is either ready or failed.
- Bridge.TimeoutStreamSink.Send: the one-item buffer of the split sink half
  is not modelled. A send is ready, start, flush on the adapter itself.
- Bridge.TimeoutStreamSink.PollNext: timer wake-ups are not modelled. The
  timer counts as fired when the clock reading reaches the deadline.
- Ffi.Whisper.Start: the bridge runs while other calls proceed. The model
  moves the slots and then takes the bridge's outcome as a parameter.
  Calls made while the bridge runs are separate method calls.
- Ffi.Whisper.GetWsIp: `CString::new` can only fail on an interior NUL,
  which the text of an IP address never holds. That error path is omitted.
- Util.ConnectToWisp: the message of the missing-extension error is a
  placeholder. The session is known only by an identity and whether UDP
  was negotiated.
- Util.UpgradeRequest: the request target is `url.path()`
  (`src/util.rs:167`), so the query of a Wisp URL never reaches the server.
  The opening-handshake property is therefore stated only for URLs without
  a query. The key generator is random, so the nonce form of the key is a
  hypothesis of that property, not something the model proves.
- WispErrors.Display: boxed payload errors are represented by their debug
  text.

## Findings

| source | as written | input that shows it | evidently intended | confidence | as-written member | corrected member |
|---|---|---|---|---|---|---|
| src/lib.rs:218-228 | when a datagram arrives for an unknown flow, the UDP stream is opened and its sink entered in the table, but the datagram itself is never sent | the first datagram from 10.0.10.2:40000 to 1.1.1.1:53, with a stream open that succeeds | the datagram that opened the flow is sent on the new stream, as the older bridge in `src/main.rs:127-138` does by forwarding every datagram | not executed | Bridge.FirstDatagramDropped | Bridge.UdpFlows.DispatchForwardingFirst |
| src/lib.rs:231-237 | when a flow's reader ends, it removes the flow's key whatever sink the key maps to by then | a flow opened at t = 0 ms; a send at 30000 ms times out and evicts it; the next datagram at 30001 ms opens a second stream under the same key; the first reader wakes at 30002 ms and removes the key | a reader removes only its own entry, so the second stream stays reachable | not executed | Bridge.ReaderEvictsSuccessor | Bridge.UdpFlows.ReaderStepOwnEntry |
