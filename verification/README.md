# SplitGuides core, modelled in Dafny

SplitGuides shows speedrun notes that follow the active split of a timer. It
runs as a desktop window or as a small web server that pushes the notes to a
browser. This project models the deterministic pieces between the timer
connection and the notes display, and proves what they promise:

- **Time parser** (`TimeParser`): the three copies of `parse_time`, under both
  regular expressions. The regex is a recogniser over `seq<char>` and the
  duration is integer milliseconds.
- **LiveSplit Server client** (`LivesplitProtocol`, `LivesplitClient`, `Legacy`):
  - the command table;
  - the `"\r\n"` framing over UTF-8 (RFC 3629, in `Utf8`);
  - reply decoding as text, integer or time;
  - the connection-handle state machines of `LivesplitConnection` and the older
    `LSConnection`, as classes whose methods are proved to take the steps their
    specification functions describe.
- **LiveSplit One client** (`LivesplitOneProtocol`, `LivesplitOneClient`):
  - the command objects, as a datatype standing for their JSON;
  - the `"success"` envelope;
  - the split-index rule;
  - the websocket handle.
- **Notes splitter** (`NoteParser`, `NoteHandler`): the line loop of both
  `Notes` classes and `render_split`, against an independent front-to-back
  description of the pages.
- **Desktop sync** (`DesktopSync`): `update_notes`, `open_notes` with the
  notes folder it remembers (`Paths` models pathlib's parent), the offset
  handlers, the toggles, and the `LivesplitLink` worker loop. These are classes over the
  window's and link's fields.
- **Browser push stream** (`SplitServer`, `LegacySplitServer`): one pass of
  `event_stream` in both servers, and whole runs. Every frame is proved to be
  one LF-delimited event of the event-stream format of section 9.2
  (server-sent events) of the WHATWG HTML Living Standard.
- **Colour strings** (`Color`): the `#rrggbbaa` / `#aarrggbb` reorderings and the
  style-sheet text.
- **Settings** (`SettingsCommon`, `PrefabSettings`, `CompiledSettings`,
  `DictSettings`):
  - the three generations of the settings class;
  - loading with defaults, key filtering and path reset;
  - saving, and the save/load round trip.

The outside world enters as parameters. This covers socket and websocket
outcomes, which path exists, the decoded JSON of a file, the template
renderer, and the clock. `Transport` records every socket call, so the
contracts can say exactly which calls were made. `Text` holds the Python
string built-ins the code relies on (`int`, `str`, `strip`, `split`,
`replace`).

## Model

| member | source | states |
|---|---|---|
| Text.NatToDecimal | src/splitguides/ui/color.py:49-50 | `str(n)`: at least one digit, no leading zero, a single digit exactly below 10 |
| Text.DecimalRoundTrip | src/splitguides/livesplit_client.py:24-27 | reading the decimal text of `n` gives `n` back |
| Text.Pad2 | src/splitguides/livesplit_client.py:26-27 | the two-digit field LiveSplit prints: two digits whose value is `n` |
| Text.ParseIntRoundTrip | src/splitguides/livesplit_client.py:155-156 | `int(str(i)) == i` for every integer, negative ones included |
| Text.ParseIntNeedsDigits | src/splitguides/livesplit_client.py:155-156 | `int()` raises ValueError on text with no digit in it |
| Text.ParseIntOutcomes | src/splitguides/livesplit_client.py:155-156 | `int()` succeeds exactly on stripped text that is a numeral, optionally signed; a negative result comes from a leading `-`; every failure is ValueError |
| Text.RStrip | src/splitnotes2/note_parser.py:28 | `rstrip()`: a prefix of the input, no trailing whitespace, and only whitespace removed |
| Text.LStrip | src/splitguides/livesplit_client.py:152 | `lstrip()`: a suffix of the input, no leading whitespace, and only whitespace removed |
| Text.StripNoSpaceEnds | src/splitguides/livesplit_client.py:152 | `strip()` leaves text without whitespace at its ends unchanged |
| Text.SplitOn | src/splitnotes2/note_parser.py:67 | `s.split(c)`: never empty, and no piece holds `c` |
| Text.JoinSplitIsReplace | src/splitnotes2/note_parser.py:67 | joining the pieces of `s.split(c)` with `sub` is replacing every `c` by `sub` |
| Text.ReplaceCharKeeps | src/splitguides/server/split_server.py:94-96 | replacing one character by a text that avoids `d` neither adds nor removes a `d` (a `"\r"` survives the newline removal) |
| Utf8.EncodeChar | src/splitguides/livesplit_client.py:139-141 | the shortest UTF-8 form of a scalar value: 1 to 4 bytes, ASCII exactly for one byte, every byte of a longer form at least 0x80 |
| Utf8.DecodeEncodedChar | src/splitguides/livesplit_client.py:152 | reading one character back from its encoding gives the character and its byte count, whatever follows |
| Utf8.DecodeEncode | src/splitguides/livesplit_client.py:139-153 | `decode(encode(s)) == s` for every string |
| Utf8.EncodeAscii | src/splitnotes2/livesplit_client/messaging.py:18-20 | an ASCII string encodes byte for byte |
| Utf8.EncodeAppend | src/splitguides/livesplit_client.py:139-141 | encoding distributes over concatenation |
| Utf8.EncodeEdges | src/splitguides/livesplit_client.py:152 | the first and last bytes of an encoding are whitespace only when the first and last characters are ASCII whitespace |
| Utf8.EncodeAvoidsAscii | src/splitguides/livesplit_client.py:139-141 | a byte below 0x80 appears in an encoding only where that character was |
| Utf8.RStripBytes | src/splitguides/livesplit_client.py:152 | `bytes.rstrip()`: a prefix, no trailing ASCII whitespace, and only whitespace removed |
| Utf8.LStripBytes | src/splitguides/livesplit_client.py:152 | `bytes.lstrip()`: a suffix, no leading ASCII whitespace, and only whitespace removed |
| Utf8.StripFrame | src/splitguides/livesplit_client.py:139-153 | stripping a frame removes exactly its `"\r\n"` when the payload has no whitespace ends |
| Utf8.DecodeErrors | src/splitguides/livesplit_client.py:152 | `decode("UTF8")` fails only with UnicodeDecodeError |
| TimeParser.DigitRunEnd | src/splitguides/livesplit_client.py:11-13 | how far a greedy `\d*` reaches: all digits before it, none at it |
| TimeParser.MatchClock | src/splitguides/livesplit_client.py:11-13 | `\d{1,2}:\d{2}.\d*` anchored at a position yields well-formed minute, second and centisecond groups |
| TimeParser.Match | src/splitguides/livesplit_client.py:11-23 | `re.match` with the newer pattern yields well-formed groups when it matches |
| TimeParser.MatchOld | splitnotes2/util.py:4-16 | `re.match` with the older pattern yields well-formed groups, and the hours group is always present |
| TimeParser.MatchConsumesPrefix | src/splitguides/livesplit_client.py:11-13 | soundness: the groups reported are consecutive pieces of a prefix of the input in the pattern's shape |
| TimeParser.MatchWays | src/splitguides/livesplit_client.py:11-13 | the newer pattern matches either as hours, `:` and clock, or as the clock at the start |
| TimeParser.MatchOldConsumesPrefix | splitnotes2/util.py:4-6 | soundness of the older pattern: the hours group, a `:` exactly when one follows it, then the clock |
| TimeParser.OldWays | splitnotes2/util.py:4-6 | the older pattern matches either with a `:` after the hours, or with the hours giving back one digit to the clock |
| TimeParser.ShorterHoursFail | splitnotes2/util.py:4-6 | backtracking the hours group further than one digit never finds a match the one-digit step misses |
| TimeParser.MatchWithHours | src/splitnotes2/livesplit_client/messaging.py:173-175 | with hours printed, both patterns take the hours group up to the first `:` |
| TimeParser.MatchClockOnly | src/splitnotes2/livesplit_client/messaging.py:173-175 | on `M:SS.CC` or `MM:SS.CC` the newer pattern skips the hours group |
| TimeParser.MatchOldClockOnly | splitnotes2/util.py:4-6 | on the same text the older pattern gives the hours group all but the last minute digit |
| TimeParser.GroupsValue | src/splitguides/livesplit_client.py:24-31 | groups reading as h, m, s, cs give ((h·60 + m)·60 + s)·1000 + cs·10 ms |
| TimeParser.ParseTimeRoundTrip | src/splitguides/livesplit_client.py:16-33 | what LiveSplit prints for h, m, s, cs parses back to exactly that duration, whatever non-digit text follows |
| TimeParser.ParseTimeOldOnRendered | splitnotes2/util.py:9-26 | the older parser is right when hours are printed or the minutes have one digit; two-digit minutes without hours read as m/10 hours and m%10 minutes |
| TimeParser.OldTwoDigitsParses | splitnotes2/util.py:4-6 | the exact misreading: `MM:SS.CC` parses as m/10 hours and m%10 minutes |
| TimeParser.ParseTimeRejectsNonNumeric | src/splitguides/livesplit_client.py:23-24 | text starting with neither a digit nor `:` has no match, and both parsers fail with TypeError (subscripting None) |
| TimeParser.RenderedExamples | tests/test_livesplit_client/test_messaging.py:8-18 | the test suite's four replies are how LiveSplit prints 15m32.34s, 1h10m46.91s, 42.12s and 20ms |
| TimeParser.ParseRendered | src/splitnotes2/livesplit_client/messaging.py:178-195 | a printed time with nothing after it parses to its duration under the newer pattern |
| TimeParser.ParseTimeExamples | src/splitnotes2/livesplit_client/messaging.py:173-195 | `"15:32.34"` is 932340 ms, `"1:10:46.91"` 4246910 ms, `"0:42.12"` 42120 ms, `"0:00.02"` 20 ms |
| TimeParser.ParseTimeOutcomes | src/splitguides/livesplit_client.py:16-33 | parse_time succeeds exactly when the pattern matches with a non-empty centiseconds group; no match is TypeError (subscripting None), an empty group is ValueError |
| TimeParser.ParseTimeOldOutcomes | splitnotes2/util.py:9-26 | the same three outcomes for the older pattern |
| TimeParser.ParseTimeOldMisreadsMinutes | splitnotes2/util.py:4-6 | the older parser reads `"15:32.34"` as 1h05m32.34s while the newer reads 15m32.34s; both read `"1:10:46.91"` correctly |
| Transport.SocketLayer.constructor | src/splitguides/livesplit_client/networking.py:9-14 | the socket layer starts with no socket created and no call made |
| Transport.SocketLayer.NewSocket | src/splitguides/livesplit_client.py:58 | `socket.socket()` hands out a new identifier and records its creation |
| Transport.SocketLayer.Call | src/splitguides/livesplit_client.py:52-122 | every other socket call is appended to the record, and nothing else changes |
| Transport.AppendKeepsSound | src/splitguides/livesplit_client.py:52-122 | appending calls on existing sockets that close nothing keeps the handle on an open socket |
| LivesplitProtocol.Frame | src/splitguides/livesplit_client.py:139-141 | `message.encode("UTF8") + b"\r\n"` ends with CRLF |
| LivesplitProtocol.FrameIsOneLine | src/splitnotes2/livesplit_client/messaging.py:18-20 | a command frame holds CR and LF only at its end when the argument holds no line break |
| LivesplitProtocol.KeywordIsWord | src/splitguides/livesplit_client.py:160-298 | every command keyword is a lower-case word |
| LivesplitProtocol.KeywordCode | src/splitguides/livesplit_client.py:160-298 | the keyword determines the command method it came from |
| LivesplitProtocol.FromCodeNormal | src/splitguides/livesplit_client.py:160-298 | method and argument rebuild the command, with an empty comparison read as none |
| LivesplitProtocol.ReadMessage | src/splitguides/livesplit_client.py:160-298 | the server reads every line a method sends back as the command that produced it |
| LivesplitProtocol.MessageDeterminesCommand | src/splitnotes2/livesplit_client/messaging.py:32-170 | different commands never send the same line |
| LivesplitProtocol.ArgumentCommand | src/splitguides/livesplit_client.py:214-276 | the commands with an argument are the ones rebuilt from keyword and argument |
| LivesplitProtocol.PlainComplete | src/splitguides/livesplit_client.py:160-298 | every argument-free command is in the plain command table |
| LivesplitProtocol.MessageLayout | src/splitguides/livesplit_client.py:160-298 | each command line is its keyword, followed, for a command that takes one, by a space and the argument and nothing else |
| LivesplitProtocol.ReadCommandInverse | src/splitguides/livesplit_client.py:160-298 | a line read back as a command is exactly that command's line (or it with one trailing space) |
| LivesplitProtocol.ReadFramedText | src/splitguides/livesplit_client.py:150-152 | text without whitespace ends survives the frame's strip and decode unchanged |
| LivesplitProtocol.TextReplyRoundTrip | src/splitguides/livesplit_client.py:150-158 | a text reply reads back as the server's text, in both clients |
| LivesplitProtocol.IntReplyRoundTrip | src/splitguides/livesplit_client.py:155-156 | an integer reply printed by the server reads back as the same integer, in both clients |
| LivesplitProtocol.TimeReplyRoundTrip | src/splitguides/livesplit_client.py:153-154 | a time reply as LiveSplit prints it reads back as the same duration |
| LivesplitProtocol.TextReplyExample | tests/test_livesplit_client/test_messaging.py:89-97 | `b"Response String\r\n"` is read as `"Response String"` |
| LivesplitProtocol.NumberReplyExamples | tests/test_livesplit_client/test_messaging.py:99-117 | `b"12\r\n"` read as an integer is 12; `"1:10:46.91"` read as a time is 4246910 ms |
| LivesplitProtocol.InterpretOutcomes | src/splitguides/livesplit_client.py:150-158 | a decoded reply has the kind asked for; a failure is UnicodeDecodeError, ValueError for a number or time, or TypeError for a time |
| LivesplitProtocol.InterpretLegacyOutcomes | splitnotes2/livesplit_client/model.py:15-23 | the same for the older handler's `recieve` |
| LivesplitProtocol.NegativeTextReplyExample | tests/test_livesplit_client/test_messaging.py:133-138 | a `getdelta` reply `"-12\r\n"` read as text is `"-12"` |
| LivesplitClient.ConnectReports | src/splitguides/livesplit_client.py:52-71 | connect returns True exactly when the server accepted, and the socket then has the timeout set; a refusal or failed lookup closes the socket, leaves no handle and returns False |
| LivesplitClient.CloseIdempotent | src/splitguides/livesplit_client.py:73-76 | close leaves no handle, closes only the handle's socket, and a second close changes nothing |
| LivesplitClient.SendSucceedsIff | src/splitguides/livesplit_client.py:78-94 | send succeeds exactly when the message was handed to a connected socket, the held one or a freshly accepted one |
| LivesplitClient.ReceiveSucceedsIff | src/splitguides/livesplit_client.py:96-122 | receive returns the bytes read exactly when a connected socket gave a non-empty read |
| LivesplitClient.FailuresAndHandle | src/splitguides/livesplit_client/networking.py:55-84 | a timeout keeps the handle; an abort, OSError or empty read closes the socket and drops the handle, raising the matching error; a reset or broken pipe on send raises ConnectionError and keeps the handle |
| LivesplitClient.StepsKeepSound | src/splitguides/livesplit_client.py:37-122 | no step leaves the handle on a closed socket or records a call on a socket never created |
| LivesplitClient.ConnectStep | src/splitguides/livesplit_client.py:52-71 | connect makes exactly one new socket and only adds calls; a reported result is True exactly when a socket is kept |
| LivesplitClient.CloseStep | src/splitguides/livesplit_client.py:73-76 | afterwards no socket is held; no socket is made and calls are only added |
| LivesplitClient.EnsureStep | src/splitguides/livesplit_client.py:87-88 | with a socket held nothing happens; otherwise it connects, only adding sockets and calls |
| LivesplitClient.SendStep | src/splitguides/livesplit_client.py:78-94 | a successful send holds a socket and its last call is `send(msg)` on it; sockets and calls are only added; only ConnectionAbortedError is caught, so a reset or broken pipe passes through as ConnectionError |
| LivesplitClient.ReceiveStep | src/splitguides/livesplit_client.py:96-122 | a successful receive returns non-empty bytes, holds a socket, and its last call is `recv(4096)` on it |
| LivesplitClient.ReceiveReplyStep | src/splitguides/livesplit_client.py:150-158 | a decoded reply was read by a last `recv(4096)` on the held socket |
| LivesplitClient.ExchangeStep | src/splitguides/livesplit_client.py:139-158 | sending a line and reading when a reply is wanted: a reply comes back exactly when one was wanted |
| LivesplitClient.PerformStep | src/splitguides/livesplit_client.py:160-298 | a command returns a value exactly when it is one that expects a reply |
| LivesplitClient.ConnectKeepsSound | src/splitguides/livesplit_client.py:52-71 | connect keeps the handle sound: a held socket was made and not closed, and every call names a made socket |
| LivesplitClient.EnsureKeepsSound | src/splitguides/livesplit_client.py:87-88 | the connect-if-needed step keeps the handle sound |
| LivesplitClient.SendKeepsSound | src/splitguides/livesplit_client.py:78-94 | send keeps the handle sound, on every outcome |
| LivesplitClient.ReceiveKeepsSound | src/splitguides/livesplit_client.py:96-122 | receive keeps the handle sound, on every outcome |
| LivesplitClient.LivesplitConnection.constructor | src/splitguides/livesplit_client/networking.py:10-14 | a fresh connection stores server, port and timeout and has no handle |
| LivesplitClient.LivesplitConnection.Connect | src/splitguides/livesplit_client/networking.py:16-35 | the method takes exactly the connect step on the handle and the socket record |
| LivesplitClient.LivesplitConnection.Close | src/splitguides/livesplit_client/networking.py:37-40 | the method takes exactly the close step |
| LivesplitClient.LivesplitConnection.Send | src/splitguides/livesplit_client/networking.py:42-58 | the method takes exactly the send step, lazy connect included |
| LivesplitClient.LivesplitConnection.Receive | src/splitguides/livesplit_client/networking.py:60-86 | the method takes exactly the receive step |
| LivesplitClient.ActionsNeverRead | src/splitguides/livesplit_client.py:160-247 | action methods only send: they make no recv call and their outcome is the send's |
| LivesplitClient.SendNeverReads | src/splitguides/livesplit_client.py:78-94 | connect and send never add a recv call |
| LivesplitClient.QuerySendsThenReads | src/splitguides/livesplit_client.py:249-298 | a query succeeds exactly when its line went out and a non-empty reply of the expected kind came back; its last two calls are the framed line and one recv of BUFFER_SIZE, and the result is the reply interpreted |
| LivesplitClient.ReceiveConnected | src/splitguides/livesplit_client.py:96-122 | on a connected link receive makes exactly one recv and keeps the handle when data comes back |
| LivesplitClient.SentLineNamesCommand | src/splitnotes2/livesplit_client/messaging.py:32-170 | every frame a messaging method sends is read by the server as the command it stands for |
| LivesplitClient.LivesplitMessaging.constructor | src/splitnotes2/livesplit_client/messaging.py:9-10 | the messaging object holds the connection it was given |
| LivesplitClient.LivesplitMessaging.Connect | src/splitnotes2/livesplit_client/messaging.py:12-13 | connect is the connection's connect and nothing more |
| LivesplitClient.LivesplitMessaging.Close | src/splitnotes2/livesplit_client/messaging.py:15-16 | close is the connection's close and nothing more |
| LivesplitClient.LivesplitMessaging.Send | src/splitnotes2/livesplit_client/messaging.py:18-20 | send hands the connection the UTF-8 message followed by `"\r\n"` |
| LivesplitClient.LivesplitMessaging.Receive | src/splitguides/livesplit_client.py:150-158 | receive reads once and strips, decodes and interprets the reply as text, integer or time |
| LivesplitClient.LivesplitMessaging.Perform | src/splitguides/livesplit_client.py:160-298 | every command method takes exactly the command's step: send its line, then read once for a query |
| LivesplitClient.GetClient | src/splitguides/livesplit_client.py:301-306 | `get_client` returns a messaging object over a fresh, unconnected connection to the given address |
| LivesplitClient.ConnectScenario | tests/test_livesplit_client/test_networking.py:17-29 | an accepted connect creates one socket, connects it to the address, sets the timeout and returns True |
| LivesplitClient.FailedConnectScenario | tests/test_livesplit_client/test_networking.py:32-42 | a refused connect returns False and keeps no handle |
| LivesplitClient.CloseTwiceScenario | tests/test_livesplit_client/test_networking.py:45-60 | closing twice closes the socket once and leaves no handle |
| LivesplitClient.SendScenario | tests/test_livesplit_client/test_networking.py:63-78 | send without a prior connect connects first, then one socket carries the exact bytes |
| LivesplitClient.SendAbortedScenario | tests/test_livesplit_client/test_networking.py:81-95 | an aborted send closes the socket once, drops the handle and re-raises ConnectionAbortedError |
| LivesplitClient.ReceiveScenario | tests/test_livesplit_client/test_networking.py:99-115 | receive returns the bytes read, asking for BUFFER_SIZE |
| LivesplitClient.ReceiveFailureScenario | tests/test_livesplit_client/test_networking.py:118-163 | a timeout raises TimeoutError and keeps the same socket; an empty read or OSError closes it once and raises ConnectionError |
| Legacy.LegacyStepsKeepSound | splitnotes2/livesplit_client/networking.py:17-76 | no step of the older connection leaves the handle on a closed socket |
| Legacy.LegacyConnectReports | splitnotes2/livesplit_client/networking.py:17-30 | only an accepted connect succeeds; a refusal surfaces as AttributeError from the `finally` clause, never as ConnectionRefusedError |
| Legacy.LegacyTimeoutDropsConnection | splitnotes2/livesplit_client/networking.py:59-69 | a recv timeout never reaches the caller as TimeoutError: the socket is closed and dropped, unlike the newer client |
| Legacy.LegacySendMatchesNewer | splitnotes2/livesplit_client/networking.py:32-48 | once connected, the older send is the newer send |
| Legacy.LegacyReceiveMatchesNewer | splitnotes2/livesplit_client/networking.py:50-76 | once connected, the older receive is the newer one on every outcome but a timeout |
| Legacy.LegacyConnectStep | splitnotes2/livesplit_client/networking.py:17-30 | connect makes one new socket; it succeeds exactly when the server accepts, and drops the handle exactly when it refuses |
| Legacy.LegacyEnsureStep | splitnotes2/livesplit_client/networking.py:41-42 | with a socket held nothing happens; otherwise it connects |
| Legacy.LegacySendStep | splitnotes2/livesplit_client/networking.py:32-48 | a successful send holds a socket and its last call is `send(msg)` on it; a reset or broken pipe passes through as ConnectionError with the socket kept |
| Legacy.LegacyReceiveStep | splitnotes2/livesplit_client/networking.py:50-76 | a successful receive returns non-empty bytes read by a last `recv(4096)`; a timeout always fails |
| Legacy.LegacyReceiveReplyStep | splitnotes2/livesplit_client/model.py:15-23 | a decoded reply was read by a last `recv(4096)` on the held socket |
| Legacy.LegacyExchangeStep | splitnotes2/livesplit_client/model.py:11-23 | a reply comes back exactly when one was wanted |
| Legacy.LegacyPerformStep | splitnotes2/livesplit_client/model.py:25-160 | a command returns a value exactly when it expects a reply |
| Legacy.LegacyConnectKeepsSound | splitnotes2/livesplit_client/networking.py:17-30 | connect keeps the handle sound, a refused socket being closed |
| Legacy.LegacyEnsureKeepsSound | splitnotes2/livesplit_client/networking.py:41-42 | the connect-if-needed step keeps the handle sound |
| Legacy.LegacySendKeepsSound | splitnotes2/livesplit_client/networking.py:32-48 | send keeps the handle sound |
| Legacy.LegacyReceiveKeepsSound | splitnotes2/livesplit_client/networking.py:50-76 | receive keeps the handle sound, a timeout included |
| Legacy.ExchangeMatches | splitnotes2/livesplit_client/model.py:11-23 | when the server accepts or a socket is held, and no time is read and no receive times out, the older exchange takes exactly the newer one's steps and result |
| Legacy.LSConnection.constructor | splitnotes2/livesplit_client/networking.py:10-14 | the attribute assignments of `__init__` before its connect |
| Legacy.LSConnection.Connect | splitnotes2/livesplit_client/networking.py:17-30 | the method takes exactly the older connect step |
| Legacy.LSConnection.Send | splitnotes2/livesplit_client/networking.py:32-48 | the method takes exactly the older send step |
| Legacy.LSConnection.Receive | splitnotes2/livesplit_client/networking.py:50-76 | the method takes exactly the older receive step |
| Legacy.NewLSConnection | splitnotes2/livesplit_client/networking.py:9-15 | building the object connects eagerly, and a failed connect yields no object |
| Legacy.HandlerMatchesMessaging | splitnotes2/livesplit_client/model.py:25-160 | once connected, every command through the handler has the newer messaging class's effect and result, unless a read times out |
| Legacy.ReplyMatches | splitnotes2/livesplit_client/model.py:15-23 | on a connected link, reading a text or integer reply is the same through either client |
| Legacy.LivesplitHandler.constructor | splitnotes2/livesplit_client/model.py:8-9 | the handler holds the connection it was given |
| Legacy.LivesplitHandler.Send | splitnotes2/livesplit_client/model.py:11-13 | send hands the connection the UTF-8 message followed by `"\r\n"` |
| Legacy.LivesplitHandler.Receive | splitnotes2/livesplit_client/model.py:15-23 | `recieve` reads once, strips, decodes and interprets, times through the older parser |
| Legacy.LivesplitHandler.Perform | splitnotes2/livesplit_client/model.py:25-160 | every command method takes exactly the command's step, and no error is caught |
| LivesplitOneProtocol.SubscriptErrors | src/splitguides/livesplitone_client.py:106 | subscripting fails with KeyError on an object without the key and TypeError on anything else |
| LivesplitOneProtocol.ToJson | src/splitguides/livesplitone_client.py:116-236 | every command object opens with its `"command"` member |
| LivesplitOneProtocol.RequestMembers | src/splitguides/livesplitone_client.py:170-232 | setters carry `"time"` or `"comparison"`; getSegmentName carries `"index"` only when given |
| LivesplitOneProtocol.RequestRoundTrip | src/splitguides/livesplitone_client.py:116-236 | every command object the client builds is read back as the same command |
| LivesplitOneProtocol.ToJsonInjective | src/splitguides/livesplitone_client.py:116-236 | distinct commands give distinct objects |
| LivesplitOneProtocol.SharedRequest | src/splitguides/livesplitone_client.py:217-236 | only get_split_index and get_current_timer_phase share a request, and they read it differently |
| LivesplitOneProtocol.MissingMethods | src/splitguides/livesplitone_client.py:81-236 | the TCP client's methods this class lacks are exactly get_delta, get_final_time, get_predicted_time and get_best_possible_time |
| LivesplitOneProtocol.EnvelopeRule | src/splitguides/livesplitone_client.py:103-114 | a non-object reply fails with TypeError, one without `"success"` with KeyError, and text and state replies return the success member unchanged |
| LivesplitOneProtocol.ReplyInEnvelope | src/splitguides/livesplitone_client.py:103-114 | an unwrapped reply is read from its success member |
| LivesplitOneProtocol.TimeReplyRoundTrip | src/splitguides/livesplitone_client.py:107-108 | a time reply as LiveSplit prints it reads back as the same duration |
| LivesplitOneProtocol.IntReplyRoundTrip | src/splitguides/livesplitone_client.py:109-110 | an integer reply, as a numeral or a number, reads back as the same integer |
| LivesplitOneProtocol.IntOfOutcomes | src/splitguides/livesplitone_client.py:109-110 | `int(result["string"])` succeeds on an integer, a bool or a numeral string and returns an integer unchanged; a failure is ValueError for a string, TypeError otherwise |
| LivesplitOneProtocol.TimeOfOutcomes | src/splitguides/livesplitone_client.py:107-108 | `parse_time(result["string"])` succeeds exactly on a string parse_time accepts; a non-string is TypeError |
| LivesplitOneProtocol.SplitIndexRule | src/splitguides/livesplitone_client.py:217-224 | the split index is the state's `"index"` exactly while `"Running"` or `"Paused"`, -1 in any other phase, and a missing phase fails as the subscript does |
| LivesplitOneProtocol.SplitIndexExamples | src/splitguides/livesplitone_client.py:217-224 | a concrete running, paused and ended state give the index, the index and -1 |
| LivesplitOneProtocol.QueriesAreReads | src/splitguides/livesplitone_client.py:116-236 | the methods that return a value are exactly those whose request starts with "get" |
| LivesplitOneClient.Uri | src/splitguides/livesplitone_client.py:25 | the URI opened is `ws://<server>:<port>` |
| LivesplitOneClient.ConnectReports | src/splitguides/livesplitone_client.py:20-26 | connect never returns False: it opens a connection and returns True, or raises and changes nothing |
| LivesplitOneClient.SilentPathsUnreachable | src/splitguides/livesplitone_client.py:42-78 | after the implicit connect there is always a handle, so send never skips and receive never returns `b""` |
| LivesplitOneClient.ReceiveFailures | src/splitguides/livesplitone_client.py:63-74 | an OSError (a timeout among them) or an empty read closes and drops the handle and raises ConnectionError; library errors keep it |
| LivesplitOneClient.ReceiveSucceedsIff | src/splitguides/livesplitone_client.py:53-78 | receive returns the message exactly when a non-empty one arrives on an open connection |
| LivesplitOneClient.ReceiveIgnoresTimeout | src/splitguides/livesplitone_client.py:65 | the configured timeout changes nothing: every recv waits BUFFER_SIZE seconds |
| LivesplitOneClient.TimedReceiveWaitsTimeout | src/splitguides/livesplitone_client.py:65 | with the timeout passed on, every wait is the configured one and the results are receive's |
| LivesplitOneClient.CloseIdempotent | src/splitguides/livesplitone_client.py:28-31 | close leaves no handle and a second close changes nothing |
| LivesplitOneClient.StepsKeepSound | src/splitguides/livesplitone_client.py:20-78 | no step leaves the handle on a closed connection |
| LivesplitOneClient.ConnectStep | src/splitguides/livesplitone_client.py:20-26 | a successful connect holds a websocket; sockets and calls are only added |
| LivesplitOneClient.CloseStep | src/splitguides/livesplitone_client.py:28-31 | afterwards no websocket is held; calls are only added |
| LivesplitOneClient.EnsureStep | src/splitguides/livesplitone_client.py:42-43 | with a websocket held nothing happens; otherwise it connects |
| LivesplitOneClient.SendStep | src/splitguides/livesplitone_client.py:33-51 | a successful send holds a websocket and its last call is `send(msg)` on it |
| LivesplitOneClient.ReceiveStep | src/splitguides/livesplitone_client.py:53-78 | a successful receive returns non-empty bytes read by a last `recv(4096, False)` on the held websocket |
| LivesplitOneClient.ReceiveReplyStep | src/splitguides/livesplitone_client.py:103-114 | a decoded reply was read by a last `recv(4096, False)` on the held websocket |
| LivesplitOneClient.PerformStep | src/splitguides/livesplitone_client.py:116-236 | a command with no LiveSplit One request fails with AttributeError and changes nothing; otherwise a value comes back exactly when the command expects one |
| LivesplitOneClient.ConnectKeepsSound | src/splitguides/livesplitone_client.py:20-26 | connect, and connect-if-needed, keep the handle sound: a held websocket was opened and not closed, and every call names an opened one |
| LivesplitOneClient.SendKeepsSound | src/splitguides/livesplitone_client.py:33-51 | send keeps the handle sound, on every outcome |
| LivesplitOneClient.ReceiveKeepsSound | src/splitguides/livesplitone_client.py:53-78 | receive keeps the handle sound, on every outcome |
| LivesplitOneClient.WsLayer.Open | src/splitguides/livesplitone_client.py:25 | `connect(uri)` hands out a new connection and records it |
| LivesplitOneClient.WsLayer.Call | src/splitguides/livesplitone_client.py:30-72 | any other call is appended to the record and nothing else changes |
| LivesplitOneClient.LivesplitoneConnection.constructor | src/splitguides/livesplitone_client.py:14-18 | a fresh connection stores its fields, the timer name and no handle |
| LivesplitOneClient.LivesplitoneConnection.Connect | src/splitguides/livesplitone_client.py:20-26 | the method takes exactly the connect step |
| LivesplitOneClient.LivesplitoneConnection.Close | src/splitguides/livesplitone_client.py:28-31 | the method takes exactly the close step |
| LivesplitOneClient.LivesplitoneConnection.Send | src/splitguides/livesplitone_client.py:33-51 | the method takes exactly the send step |
| LivesplitOneClient.LivesplitoneConnection.Receive | src/splitguides/livesplitone_client.py:53-78 | the method takes exactly the receive step |
| LivesplitOneClient.UnsupportedCommandsFail | src/splitguides/livesplitone_client.py:81-236 | calling a method the class lacks raises AttributeError and changes nothing |
| LivesplitOneClient.ActionsNeverRead | src/splitguides/livesplitone_client.py:116-203 | action methods send their request, read nothing, and succeed exactly when the send does |
| LivesplitOneClient.QueryFinishes | src/splitguides/livesplitone_client.py:205-236 | a query whose request went out and whose reply was read returns what the query makes of the reply |
| LivesplitOneClient.SplitIndexAndPhase | src/splitguides/livesplitone_client.py:217-236 | get_split_index returns the index while running or paused and -1 otherwise; get_current_timer_phase returns the `"state"` |
| LivesplitOneClient.ServerReadsRequest | src/splitguides/livesplitone_client.py:90-92 | given a JSON encoder and a matching decoder, the server decodes every sent frame as the method's command |
| LivesplitOneClient.LivesplitoneMessaging.Send | src/splitguides/livesplitone_client.py:90-92 | send hands the connection the UTF-8 JSON text followed by `"\r\n"` |
| LivesplitOneClient.LivesplitoneMessaging.Receive | src/splitguides/livesplitone_client.py:103-114 | receive reads once, strips, decodes, unwraps `"success"` and interprets it by kind |
| LivesplitOneClient.LivesplitoneMessaging.Perform | src/splitguides/livesplitone_client.py:116-236 | every command method takes exactly its step |
| LivesplitOneClient.GetLivesplitoneClient | src/splitguides/livesplitone_client.py:239-244 | a messaging object over a fresh, unconnected connection to the given address |
| NoteParser.Classify | src/splitnotes2/note_parser.py:28-34 | a kept line is the right-stripped line, and it differs from the separator |
| NoteParser.GroupsSnoc | src/splitnotes2/note_parser.py:27-36 | one more line changes the front-read pages the way one turn of the loop does |
| NoteParser.ScanIsGroups | src/splitnotes2/note_parser.py:27-36 | the loop's finished pages and accumulator are the front-read pages, joined with `"\n"` |
| NoteParser.SplitsAreGroups | src/splitnotes2/note_parser.py:24-38 | the splits are the front-read pages, each joined with `"\n"` |
| NoteParser.GroupCount | src/splitnotes2/note_parser.py:37-38 | there is one page more than separator lines; the last is there even when empty |
| NoteParser.GroupsKeepOrder | src/splitnotes2/note_parser.py:29-34 | read in order, the pages hold exactly the kept lines in their original order |
| NoteParser.SplitsProperties | src/splitnotes2/note_parser.py:24-38 | the page count, and the pages' contents in order |
| NoteParser.ScanBound | src/splitnotes2/note_parser.py:27-36 | the line loop never makes more finished and open lines than it read |
| NoteParser.SplitsBound | src/splitnotes2/note_parser.py:24-38 | there is at least one page and at most one more than there are lines |
| NoteParser.CommentBeforeSeparator | src/splitnotes2/note_parser.py:29-31 | a bracketed line is a comment even when it equals the separator, so it never cuts a page |
| NoteParser.PyIndex | src/splitnotes2/note_parser.py:63 | Python indexing: negative indices count from the end, anything else outside raises IndexError |
| NoteParser.RenderReplacesNewlines | src/splitnotes2/note_parser.py:67 | the default render replaces each `"\n"` with `"<br/>\n"` |
| NoteParser.GroupsByKinds | src/splitnotes2/note_parser.py:28-34 | the pages depend on the lines only through their kinds |
| NoteParser.SamplePages | tests/test_parser.py:25-34 | the sample file's shape yields exactly three pages, each its kept lines joined by `"\n"` |
| NoteParser.RenderTwoLines | tests/test_parser.py:37-43 | a two-line page renders as its lines around one `"<br/>\n"` |
| NoteParser.Notes.constructor | src/splitnotes2/note_parser.py:10-22 | the object keeps separator and preprocessor, and its notes are the splits of the stream |
| NoteParser.Notes.GetNotes | src/splitnotes2/note_parser.py:24-38 | the loop returns the splits of the stream |
| NoteParser.Notes.RenderSplit | src/splitnotes2/note_parser.py:56-68 | fails exactly when the index is out of Python's range; otherwise the page through the preprocessor, or with newlines replaced |
| NoteHandler.RenderRawHasNoNewline | splitnotes2/note_handler.py:47 | the older render replaces each newline by a literal backslash-n break, so no newline is left |
| NoteHandler.Notes.constructor | splitnotes2/note_handler.py:10-34 | the constructor runs the same splitting loop, and the notes are the splits of the stream |
| NoteHandler.Notes.RenderSplit | splitnotes2/note_handler.py:36-49 | fails exactly when the index is out of range; otherwise the page through the formatter, or with the raw break |
| DesktopSync.EffectiveIndex | src/splitguides/ui/main_window.py:378-379 | the effective index is never negative and at least raw + offset |
| DesktopSync.EffectiveIndexCases | src/splitguides/ui/main_window.py:376-379 | a stopped timer counts as index 0; in range it is raw + offset; otherwise 0 |
| DesktopSync.EffectiveIndexMonotone | src/splitguides/ui/main_window.py:378-379 | the effective index never falls when the raw index or the offset grows |
| DesktopSync.RenderWindow | src/splitguides/ui/main_window.py:382-383 | the window is previous + next + 1 wide and holds the index |
| DesktopSync.UpdateNotesSpec | src/splitguides/ui/main_window.py:368-396 | the page changes and the stored index becomes the effective index exactly when notes are loaded and the index moved or a refresh was asked for; otherwise nothing changes |
| DesktopSync.UpdateNotesSettles | src/splitguides/ui/main_window.py:381 | repeating an update without refresh changes nothing |
| DesktopSync.UpdateNotesStep | src/splitguides/ui/main_window.py:368-396 | update_notes keeps the notes, their file and the offset; a non-negative split index stays non-negative |
| DesktopSync.ShiftOffsetStep | src/splitguides/ui/main_window.py:223-247 | the offset moves by the step and the notes are kept; while connected the view and the index are left alone |
| DesktopSync.IncreaseOffsetStep | src/splitguides/ui/main_window.py:223-234 | the offset goes up by one |
| DesktopSync.DecreaseOffsetStep | src/splitguides/ui/main_window.py:236-247 | the offset goes down by one |
| DesktopSync.ConnectedShiftOnlyCounts | src/splitguides/ui/main_window.py:223-247 | while connected the offset handlers only count by ±1, and they undo each other |
| DesktopSync.DisconnectedShiftShows | src/splitguides/ui/main_window.py:223-247 | while disconnected the page follows the offset alone, from raw index 0 |
| DesktopSync.DisableHotkeysStep | src/splitguides/ui/main_window.py:215-221 | on Windows the offset resets to 0; elsewhere nothing changes |
| DesktopSync.OpenNotesStep | src/splitguides/ui/main_window.py:335-355 | a cancelled dialog changes nothing |
| DesktopSync.OpenNotesSettings | src/splitguides/ui/main_window.py:343-351 | a cancelled dialog keeps the settings; otherwise only the notes folder changes |
| DesktopSync.OpenNotesRemembersFolder | src/splitguides/ui/main_window.py:350-351 | a file chosen inside a folder makes that folder the one the next dialog opens in |
| Paths.Root | src/splitguides/ui/main_window.py:351 | pathlib's root of a POSIX path: `//` for exactly two leading slashes, `/` for any other leading slashes, empty for none |
| Paths.ShownReadsBack | src/splitguides/ui/main_window.py:351 | the text pathlib writes for a root and components reads back as the same root and components |
| Paths.ParentOfChild | src/splitguides/ui/main_window.py:351 | the parent of a file named inside a folder is that folder |
| Paths.ParentDropsLast | src/splitguides/ui/main_window.py:351 | a path's parent keeps its root and drops exactly its last component |
| DesktopSync.OpenNotesShowsFirstPage | src/splitguides/ui/main_window.py:344-355 | a chosen file is parsed, the offset reset and the first window shown; the folder it remembers is stated by OpenNotesSettings and OpenNotesRemembersFolder |
| DesktopSync.SettingsAcceptedStep | src/splitguides/ui/main_window.py:428-437 | without a note file an accepted dialog shows the blank page |
| DesktopSync.SettingsAcceptedKeepsIndex | src/splitguides/ui/main_window.py:429-435 | with a note file the notes are re-parsed, the offset reset and the stored index redrawn |
| DesktopSync.ToggleOnTopStep | src/splitguides/ui/main_window.py:146-148 | negates on_top and nothing else |
| DesktopSync.ToggleTransparencyStep | src/splitguides/ui/main_window.py:182-184 | negates transparency and nothing else |
| DesktopSync.TogglesAreInvolutions | src/splitguides/ui/main_window.py:146-187 | each toggle applied twice restores the settings, and the two commute |
| DesktopSync.StartLoopsStep | src/splitguides/ui/main_window.py:467-470 | clears break_loop and starts a live pool |
| DesktopSync.StopLoopsStep | src/splitguides/ui/main_window.py:472-475 | sets break_loop and shuts the pool down if there is one |
| DesktopSync.CloseLinkStep | src/splitguides/ui/main_window.py:477-479 | stop_loops, then the client's close |
| DesktopSync.IterationCases | src/splitguides/ui/main_window.py:496-511 | connected and answered: the raw index is emitted unchanged; connected and failed: disconnected and closed; not connected: connected becomes connect's result |
| DesktopSync.ValueErrorEndsWorker | src/splitguides/ui/main_window.py:500-504 | a non-integer reply is not caught and ends the worker, still marked connected |
| DesktopSync.RunLoopEmitsReplies | src/splitguides/ui/main_window.py:496-511 | every emitted index is a query reply, unchanged and in order, at most one per poll |
| DesktopSync.FailureThenReconnect | src/splitguides/ui/main_window.py:499-510 | after a caught failure the next iteration reconnects |
| DesktopSync.IterationStep | src/splitguides/ui/main_window.py:496-511 | one iteration keeps the break flag and the pool, makes at least one more call, and emits an index only while connected and only the one the query returned |
| DesktopSync.RunLoop | src/splitguides/ui/main_window.py:496-511 | with the break flag set nothing happens; otherwise at most one index is emitted per iteration |
| DesktopSync.LivesplitLink.constructor | src/splitguides/ui/main_window.py:457-465 | not connected, loop not stopped, no pool, no calls |
| DesktopSync.LivesplitLink.StartLoops | src/splitguides/ui/main_window.py:467-470 | the method takes the start_loops step |
| DesktopSync.LivesplitLink.StopLoops | src/splitguides/ui/main_window.py:472-475 | the method takes the stop_loops step |
| DesktopSync.LivesplitLink.Close | src/splitguides/ui/main_window.py:477-479 | the method takes the close step |
| DesktopSync.LivesplitLink.LsConnect | src/splitguides/ui/main_window.py:484-494 | connected becomes what the client's connect returns, with one connect call |
| DesktopSync.LivesplitLink.LoopUpdateSplit | src/splitguides/ui/main_window.py:496-511 | the loop's state, emitted indices and failure are those of the iterations run in order |
| DesktopSync.MainWindow.constructor | src/splitguides/ui/main_window.py:73-144 | blank page, no notes, index and offset 0, and a fresh link with its loops started |
| DesktopSync.MainWindow.UpdateNotes | src/splitguides/ui/main_window.py:368-396 | the method takes the update_notes step |
| DesktopSync.MainWindow.IncreaseOffset | src/splitguides/ui/main_window.py:223-234 | the method takes the increase_offset step |
| DesktopSync.MainWindow.DecreaseOffset | src/splitguides/ui/main_window.py:236-247 | the method takes the decrease_offset step |
| DesktopSync.MainWindow.DisableHotkeys | src/splitguides/ui/main_window.py:215-221 | the method takes the disable_hotkeys step |
| DesktopSync.MainWindow.OpenNotes | src/splitguides/ui/main_window.py:335-355 | the method takes the open_notes step on the window state and remembers the chosen file's folder in the settings |
| DesktopSync.MainWindow.SettingsAccepted | src/splitguides/ui/main_window.py:409-437 | the method adopts the new settings and takes the notes step of an accepted dialog |
| DesktopSync.MainWindow.ToggleOnTop | src/splitguides/ui/main_window.py:146-152 | negates on_top and leaves the notes state alone |
| DesktopSync.MainWindow.ToggleTransparency | src/splitguides/ui/main_window.py:182-187 | negates transparency and leaves the notes state alone |
| SplitServer.InitialState | src/splitguides/server/split_server.py:60-77 | disconnected, nothing pushed, last update 0, no data |
| SplitServer.PushData | src/splitguides/server/split_server.py:90-96 | the pushed data holds no newline |
| SplitServer.PushRule | src/splitguides/server/split_server.py:85-99 | a successful poll pushes exactly when the clamped index changed or the stream was disconnected; a push records index and time, clears the flag and carries the window or "End of Notes." |
| SplitServer.KeepAliveRule | src/splitguides/server/split_server.py:100-102 | without a push, a keep-alive comment goes out exactly when more than KEEP_ALIVE seconds passed on the real-valued clock, resetting the clock; otherwise nothing happens |
| SplitServer.FractionalKeepAlive | src/splitguides/server/split_server.py:75-102 | 10.4 seconds after the last push, a poll at the same index sends the keep-alive comment |
| SplitServer.QueryFailureRule | src/splitguides/server/split_server.py:78-83 | a caught failure reconnects and yields the retry banner with the last data, leaving `disconnected` alone |
| SplitServer.UncaughtEndsStream | src/splitguides/server/split_server.py:78-83 | any other failure ends the stream |
| SplitServer.NotConnectedRule | src/splitguides/server/split_server.py:103-109 | while not connected a pass sets `disconnected`, reconnects and yields the banner |
| SplitServer.ReconnectRepushes | src/splitguides/server/split_server.py:85-109 | after a disconnected pass the first successful poll pushes again even at the same index |
| SplitServer.DataIsNotKeepAlive | src/splitguides/server/split_server.py:96-102 | data frames are never the keep-alive comment |
| SplitServer.StepKeepsInv | src/splitguides/server/split_server.py:60-109 | a pass keeps the stream state's invariant |
| SplitServer.StepFrameIsOneEvent | src/splitguides/server/split_server.py:78-109 | every frame a pass yields is one event ending in a blank line, given a timer name without line breaks |
| SplitServer.StepFrames | src/splitguides/server/split_server.py:78-109 | the frames a pass can yield: data, end of notes, keep-alive or banner |
| SplitServer.RunFramesAreEvents | src/splitguides/server/split_server.py:52-109 | over a whole run every frame is one event, at most one per pass, and the invariant holds |
| SplitServer.EventStream | src/splitguides/server/split_server.py:52-109 | a failed first connect yields nothing; otherwise the frames are those of the passes in order |
| SplitServer.PushDataKeepsCarriageReturn | src/splitguides/server/split_server.py:94-96 | the pushed data keeps a `"\r"` exactly when the rendered notes hold one |
| SplitServer.StreamStep | src/splitguides/server/split_server.py:73-108 | one pass changes the pushed data only while connected after a successful query, the new index being `max(index, 0)`; the update time stays or becomes now; a failure changes neither |
| SplitServer.RunStream | src/splitguides/server/split_server.py:73-108 | a run yields at most one frame per pass, and ends with an error only after some pass |
| SplitServer.Pass | src/splitguides/server/split_server.py:73-108 | one pass of the loop body, as a method over the generator's local variables, takes exactly the step StreamStep describes |
| LegacySplitServer.LegacyInitialState | src/splitnotes2/server/split_server.py:50-62 | nothing pushed and last update 0 |
| LegacySplitServer.LegacyPushRule | src/splitnotes2/server/split_server.py:55-81 | a successful poll pushes exactly when the clamped index changed; the push carries the window's first split without newlines |
| LegacySplitServer.LegacyRetryRule | src/splitnotes2/server/split_server.py:65-87 | a caught failure and a disconnected pass both reconnect and yield the fixed banner |
| LegacySplitServer.LegacyAgreesWhileConnected | src/splitnotes2/server/split_server.py:55-84 | while the newer stream is not marked disconnected, both push, keep alive or stay silent on the same passes |
| LegacySplitServer.BannerStaysAfterReconnect | src/splitnotes2/server/split_server.py:65-71 | after a failure and reconnect, a poll at the unchanged index yields nothing: the banner stays |
| LegacySplitServer.LegacyFrames | src/splitnotes2/server/split_server.py:65-87 | the frames a pass of the older loop can yield |
| LegacySplitServer.LegacyRunFramesAreEvents | src/splitnotes2/server/split_server.py:50-87 | every frame of an older run is one event, at most one per pass |
| LegacySplitServer.LegacyEventStream | src/splitnotes2/server/split_server.py:50-87 | a failed first connect yields nothing; otherwise the frames of the passes in order |
| LegacySplitServer.LegacyStreamStep | src/splitnotes2/server/split_server.py:60-88 | the index changes only while connected after a successful query, to `max(index, 0)`; a failure changes nothing |
| LegacySplitServer.LegacyRunStream | src/splitnotes2/server/split_server.py:60-88 | at most one frame per pass, and an error only after some pass |
| LegacySplitServer.LegacyPass | src/splitnotes2/server/split_server.py:60-88 | the loop body as a method takes exactly the step LegacyStreamStep describes |
| Color.Slice | src/splitguides/ui/color.py:19 | Python slicing with both ends clamped |
| Color.QColorName | src/splitguides/ui/color.py:9-22 | a `#rrggbbaa` string becomes `#aarrggbb`; anything else is handed over unchanged |
| Color.RgbaFromName | src/splitguides/ui/color.py:25-36 | the alpha pair moved to the back |
| Color.QtHexName | src/splitguides/ui/color.py:20-34 | QColor takes exactly the `#` and eight hex digit names, and names them back in lower case with the same digits |
| Color.RgbaRoundTrip | src/splitguides/ui/color.py:9-36 | a stored hex colour comes back through QColor with its digits lowercased, and unchanged when already lower case |
| Color.UpperCaseComesBackLowered | src/splitguides/ui/settings_ui.py:60 | the dialog's validator admits `#FFAA00FF`, which comes back as `#ffaa00ff` |
| Color.ArgbRoundTrip | src/splitguides/ui/color.py:9-36 | a QColor name survives the trip to the stored form and back |
| Color.QssLayout | src/splitguides/ui/color.py:48-50 | the style-sheet text is `rgba(` the four channels joined by `", "` `)` |
| Color.Qss | src/splitguides/ui/color.py:48-50 | the style-sheet text is an `rgba(...)` call |
| Color.QssRoundTrip | src/splitguides/ui/color.py:39-50 | the style-sheet text reads back as the four channels it was made from |
| SettingsCommon.ToPath | src/splitguides/settings.py:111-113 | `Path(v)` accepts exactly a string or a path and yields a path with that text |
| SettingsCommon.HotkeyOrNone | src/splitguides/hotkeys.py:24-25 | a falsy value is None; a truthy non-dict raises TypeError; a Hotkey comes from a dict |
| SettingsCommon.DefaultedHotkeyOrNone | src/splitguides/hotkeys/keyboard_fixer.py:18-25 | the current `hotkey_or_none`: a falsy entry is None, a result is a Hotkey or None, a failure is TypeError |
| SettingsCommon.DefaultedAccepts | src/splitguides/hotkeys/keyboard_fixer.py:18-25 | a truthy entry is accepted exactly when it is a dict with no key but `scancodes` and `name`, a missing one defaulting to None |
| SettingsCommon.DefaultedExtendsExact | src/splitguides/hotkeys/keyboard_fixer.py:18-25 | it agrees with the older converter wherever that one succeeds, and also accepts `{"name": "f1"}`, which the older one rejects |
| SettingsCommon.DefaultedSerializedRoundTrip | src/splitguides/hotkeys/keyboard_fixer.py:18-25 | converting a saved Hotkey or None gives it back |
| SettingsCommon.JoinPath | src/splitguides/settings.py:185-191 | `folder / file` is defined exactly when one side is a path and the other a string or a path |
| SettingsCommon.SerializedRoundTrip | src/splitguides/settings.py:123-131 | saving and loading a path gives the same path, a hotkey entry survives hotkey_or_none, and plain values are written as they are |
| SettingsCommon.FieldNamedRoundTrip | src/splitguides/settings.py:157 | every attribute is found under its own name |
| SettingsCommon.FieldNameInjective | src/splitguides/settings.py:71-101 | the attribute names are distinct |
| SettingsCommon.SavedSpec | src/splitguides/settings/settings.py:94 | the saved object holds every attribute but output_file, each serialized |
| PrefabSettings.ImportEnv | src/splitguides/settings.py:44-59 | the two settings files differ; the host name is the looked-up one, or 127.0.0.1 when the lookup raised OSError; any other error propagates out of the import |
| PrefabSettings.PostInitValues | src/splitguides/settings.py:103-116 | the post-init hook keeps the attribute set |
| PrefabSettings.PostInitSucceeds | src/splitguides/settings.py:103-116 | the hook succeeds exactly when the paths are strings or paths and the hotkey entries are accepted |
| PrefabSettings.PostInitKeeps | src/splitguides/settings.py:103-116 | the hook leaves every attribute but its five unchanged |
| PrefabSettings.PostInitConverts | src/splitguides/settings.py:111-116 | afterwards the three paths are paths and the hotkeys None or a Hotkey, a falsy entry None |
| PrefabSettings.Construct | src/splitguides/settings.py:165 | `cls(**kwargs)` yields a value of the class |
| PrefabSettings.ConstructKeeps | src/splitguides/settings.py:71-101 | an unconverted attribute is its keyword argument when given, its default otherwise |
| PrefabSettings.FixedPaths | src/splitguides/settings.py:177-183 | fix_template_paths succeeds exactly when both pairs join into paths, and keeps the attribute set |
| PrefabSettings.FixedPathsSpec | src/splitguides/settings.py:177-183 | only the template and css folders and files change |
| PrefabSettings.FixedPathsResets | src/splitguides/settings.py:177-183 | the template pair is reset to the class defaults exactly when its path is missing, and the css pair independently |
| PrefabSettings.FixedPathsWhenPresent | src/splitguides/settings.py:177-183 | when both paths exist nothing changes |
| PrefabSettings.KnownSpec | src/splitguides/settings.py:157-163 | known keys pass unchanged under their attribute; other keys are dropped |
| PrefabSettings.Known | src/splitguides/settings.py:157-163 | the filtered dict names only init attributes of the class |
| PrefabSettings.LoadMissingFile | src/splitguides/settings.py:150-175 | without a file: the defaults, output_file the path, and with no filename the class's SETTINGS_FILE |
| PrefabSettings.LoadRejects | src/splitguides/settings.py:155-165 | a file naming output_file raises TypeError; a file that is not an object raises AttributeError |
| PrefabSettings.LoadIgnoresUnknown | src/splitguides/settings.py:157-165 | keys naming no init attribute make no difference |
| PrefabSettings.LoadKeepsValues | src/splitguides/settings.py:154-171 | every unconverted attribute is the file's value when present and the default otherwise |
| PrefabSettings.LoadedValues | src/splitguides/settings.py:142-175 | a successful load yields a full set of attributes of the class |
| PrefabSettings.FromObject | src/splitguides/settings.py:155-171 | filtering, constructing and resetting paths yields a full set of attributes |
| PrefabSettings.SaveLoadRoundTrip | src/splitguides/settings.py:118-175 | save then load reproduces every attribute, output_file being the path, when both template paths exist |
| PrefabSettings.FlavoursDiffer | src/splitguides/settings.py:194-233 | the two classes' defaults differ exactly in output_file and the two file names |
| PrefabSettings.ClassesDiffer | src/splitguides/settings.py:212-233 | only DesktopSettings has the window attributes, only ServerSettings the server address |
| PrefabSettings.Settings.constructor | src/splitguides/settings.py:71-101 | the generated `__init__`: defaults overridden by the keyword arguments |
| PrefabSettings.Settings.PostInit | src/splitguides/settings.py:103-116 | the hook in place, succeeding exactly when PostInitValues does |
| PrefabSettings.Settings.FixTemplatePaths | src/splitguides/settings.py:177-183 | the checks in place, succeeding exactly when FixedPaths does |
| PrefabSettings.Settings.FullTemplatePath | src/splitguides/settings.py:185-187 | a joined path comes from a folder and a file that are strings or paths; a path folder with a string file always joins |
| PrefabSettings.Settings.FullCssPath | src/splitguides/settings.py:189-191 | the same for the style-sheet folder and file |
| PrefabSettings.New | src/splitguides/settings.py:165-175 | a fresh object exactly when Construct succeeds, holding its values |
| PrefabSettings.Load | src/splitguides/settings.py:142-175 | a fresh object exactly when LoadedValues succeeds, holding its values |
| CompiledSettings.ImportEnv | src/splitguides/settings/settings.py:14-33 | templates and static folders differ, and the host name falls back to 127.0.0.1 on any exception |
| CompiledSettings.ConvertSucceeds | src/splitguides/settings/settings.py:42-79 | the converters succeed exactly when the five paths are strings or paths and both hotkey entries are accepted by the defaulted `hotkey_or_none` |
| CompiledSettings.ConvertKeeps | src/splitguides/settings/settings.py:42-79 | an attribute without a converter is left as given |
| CompiledSettings.ConvertConverts | src/splitguides/settings/settings.py:42-79 | afterwards the five paths are paths, each hotkey is None or a Hotkey, and a falsy hotkey entry has become None |
| CompiledSettings.ConvertedValues | src/splitguides/settings/settings.py:42-80 | the converters keep the set of attributes |
| CompiledSettings.ConvertPartialHotkey | src/splitguides/settings/settings.py:68-69 | a hotkey entry naming only the key becomes a Hotkey with no scancodes |
| CompiledSettings.ConstructPartialHotkey | src/splitguides/settings/settings.py:68-69 | the constructor accepts `{"name": "f1"}` for a hotkey and stores `Hotkey(None, "f1")` |
| CompiledSettings.Construct | src/splitguides/settings/settings.py:111 | `Settings(**kwargs)`, its hotkey entries converted by the defaulted `hotkey_or_none`, yields a value of the class with the four pairs present |
| CompiledSettings.ConstructKeeps | src/splitguides/settings/settings.py:42-80 | an unconverted attribute is its keyword argument when given, its default otherwise |
| CompiledSettings.FixedDesktop | src/splitguides/settings/settings.py:117-122 | the desktop checks succeed exactly when both pairs join into paths |
| CompiledSettings.FixedServer | src/splitguides/settings/settings.py:123-128 | the server checks succeed exactly when both folders are strings or paths |
| CompiledSettings.FixedPathsSpec | src/splitguides/settings/settings.py:117-128 | the checks change nothing but the four pairs |
| CompiledSettings.FixedPathsSucceed | src/splitguides/settings/settings.py:117-128 | the checks succeed exactly when the desktop pairs join and the server folders are paths or strings |
| CompiledSettings.FixedDesktopPaths | src/splitguides/settings/settings.py:117-122 | each desktop pair is reset to the desktop defaults exactly when its full path is missing, independently |
| CompiledSettings.FixedServerPaths | src/splitguides/settings/settings.py:123-128 | each server pair is reset exactly when its folder is missing, whatever the file |
| CompiledSettings.EntriesSpec | src/splitguides/settings/settings.py:111 | every entry of an accepted file reaches the constructor under its attribute; nothing is filtered |
| CompiledSettings.Entries | src/splitguides/settings/settings.py:111 | the loaded dict, as keyword arguments, names only attributes of the class |
| CompiledSettings.LoadMissingFile | src/splitguides/settings/settings.py:131-132 | without a file: the defaults with output_file the input path, nothing checked |
| CompiledSettings.LoadRejects | src/splitguides/settings/settings.py:108-111 | a file that is not an object, names output_file, or has an unknown key raises TypeError |
| CompiledSettings.LoadKeepsValues | src/splitguides/settings/settings.py:106-130 | every unconverted, unchecked attribute is the file's value when present, the default otherwise |
| CompiledSettings.LoadedValues | src/splitguides/settings/settings.py:98-132 | a successful load yields a full set of attributes of the class |
| CompiledSettings.FromObject | src/splitguides/settings/settings.py:108-130 | constructing from the loaded dict and resetting paths yields a full set of attributes |
| CompiledSettings.SaveSpec | src/splitguides/settings/settings.py:86-94 | save writes exactly the attributes other than output_file: a path as its string, a Hotkey as its `{scancodes, name}` dict, any other value as it is |
| CompiledSettings.SaveLoadRoundTrip | src/splitguides/settings/settings.py:82-132 | for a well-formed object whose four template and static paths and whose file exist, loading what save wrote reproduces every attribute, output_file becoming the file read; set hotkeys included |
| CompiledSettings.FixedPathsWhenPresent | src/splitguides/settings/settings.py:117-128 | when the four paths exist the checks change nothing |
| CompiledSettings.DefaultsConverted | src/splitguides/settings/settings.py:42-79 | the defaults of the converted attributes are already converted |
| CompiledSettings.Settings.FullTemplatePath | src/splitguides/settings/settings.py:134-136 | folder / file when the folder is a path and the file a string |
| CompiledSettings.Settings.FullCssPath | src/splitguides/settings/settings.py:138-140 | folder / file when the folder is a path and the file a string |
| CompiledSettings.Settings.ResetDesktopPaths | src/splitguides/settings/settings.py:117-122 | the desktop checks in place, with FixedDesktop's outcome |
| CompiledSettings.Settings.ResetServerPaths | src/splitguides/settings/settings.py:123-128 | the server checks in place, with FixedServer's outcome |
| CompiledSettings.New | src/splitguides/settings/settings.py:111-132 | a fresh object exactly when Construct succeeds, holding its values |
| CompiledSettings.Load | src/splitguides/settings/settings.py:98-132 | a fresh object exactly when LoadedValues succeeds, holding its values |
| DictSettings.ImportEnv | src/splitnotes2/ui/settings.py:20-22 | the settings file and template folder are two different entries of the base folder |
| DictSettings.Defaults | src/splitnotes2/ui/settings.py:30-52 | the sixteen default names, both folders the template folder |
| DictSettings.WithPath | src/splitnotes2/ui/settings.py:62-65 | a missing folder key raises KeyError, a non-string TypeError; otherwise only that entry becomes a path |
| DictSettings.Initial | src/splitnotes2/ui/settings.py:54-68 | a successful `__init__` holds every default name |
| DictSettings.InitialWithoutFile | src/splitnotes2/ui/settings.py:54-57 | without a file the dict is the defaults, and they save and reload |
| DictSettings.InitialOverrides | src/splitnotes2/ui/settings.py:58-68 | the file's names take the file's values, the folders as paths, and every other default stays |
| DictSettings.InitialFails | src/splitnotes2/ui/settings.py:58-68 | read errors pass through, a non-object raises TypeError, a missing folder KeyError; it succeeds otherwise |
| DictSettings.Output | src/splitnotes2/ui/settings.py:91-93 | save writes the whole dict, paths as strings |
| DictSettings.Dumped | src/splitnotes2/ui/settings.py:91-93 | `default=str`: a path is written as its string, anything else as it is |
| DictSettings.SaveLoadRoundTrip | src/splitnotes2/ui/settings.py:54-93 | saving a loaded dict and loading the file again gives the same dict |
| DictSettings.InitialReloadable | src/splitnotes2/ui/settings.py:58-68 | a dict loaded from a file is one whose save reloads |
| DictSettings.Settings.constructor | src/splitnotes2/ui/settings.py:54-56 | the object's dict is the computed one, with no instance attributes |
| DictSettings.Settings.GetAttr | src/splitnotes2/ui/settings.py:70-78 | an instance attribute first, then the dict, else AttributeError |
| DictSettings.Settings.SetAttr | src/splitnotes2/ui/settings.py:80-89 | a default name updates the dict, any other becomes an instance attribute; the name then reads back the value and no other name changes |
| DictSettings.Settings.SaveOutput | src/splitnotes2/ui/settings.py:91-93 | the object handed to the JSON writer is the whole dict |
| DictSettings.Settings.FullTemplatePath | src/splitnotes2/ui/settings.py:95-97 | the template folder joined with the template file, read as attributes |
| DictSettings.Settings.FullCssPath | src/splitnotes2/ui/settings.py:99-101 | the css folder joined with the css file, read as attributes |
| DictSettings.New | src/splitnotes2/ui/settings.py:54-68 | an object exactly when Initial succeeds, with Initial's error otherwise and its dict on success |

## Left out

- The Qt user interface is not modelled: widgets, menus, dialogs, the status bar, drawing and hotkey capture. The window state the notes depend on is modelled; the template renderer is a function parameter.
- Threads, `time.sleep`, the thread pool and the clock are left out. The worker loop is fed its iterations' outcomes in order, and the server loop is fed the current time with each pass, as a real number of seconds; the rounding of floating-point times is not modelled.
- Sockets, the `websockets` library, DNS and the filesystem are parameters: connect, send, recv and path-existence outcomes. JSON text is not parsed; a file's contents arrive as a decoded value or an error.
- The LiveSplit One commands are a datatype standing for their JSON objects. `json.dumps` and `json.loads` are parameters, with the key order and spacing of the real encoder not modelled.
- Path normalisation by `pathlib` is not modelled for the settings paths: a path is its text, and `/` joins with a single `"/"`. Only `Path(notefile).parent` in `open_notes` is modelled, in `Paths`.
- Paths.Parent: pathlib's POSIX flavour only. On Windows a path also splits at `\`, keeps a drive such as `C:` in its root, and `str` writes the parent with backslashes; none of this is modelled.
- The prefab class builders' metaprogramming is not modelled. Each class is its attribute table, its defaults and the generated constructor's effect.
- Floating-point font sizes are not modelled: a font size is a plain value.
- SettingsCommon.Serialized: only paths, hotkeys and plain values are modelled, and values nested inside lists or dicts are not traversed.
- DictSettings.Dumped: `default=str` applied to an object other than a path, such as a Hotkey, is not modelled; such values are written as they are.
- DictSettings.Settings.GetAttr: the class's own methods and properties found by normal attribute lookup are not modelled, only instance attributes and the dict; the `settings` instance attribute that `__init__` sets (src/splitnotes2/ui/settings.py:54-56) is not among the modelled instance attributes, so `getattr(s, "settings")` is not modelled.
- SplitServer.StepFrameIsOneEvent: a frame is proved to be one event only in the LF-delimited reading. A `"\r"` in the notes passes through the newline removal (SplitServer.PushDataKeepsCarriageReturn), and the event-stream format also ends a line at CR, so such notes would split the `data:` line.
- SplitServer.RunFramesAreEvents: the same LF-only reading, for every frame of a run.
- LegacySplitServer.LegacyRunFramesAreEvents: the same LF-only reading, for the older server.
- Text.ParseInt: only ASCII digits are digits; Python's `int()` also accepts other Unicode decimal digits.
- TimeParser.Match: `\d` is read as an ASCII digit; Python's `re` also matches other Unicode decimal digits in a `str` pattern.
- TimeParser.MatchOld: the same ASCII reading of `\d`.
- TimeParser.ParseTimeRejectsNonNumeric: holds for text starting with a character that is not an ASCII digit; Python would match a leading non-ASCII decimal digit.
- Text.ParseIntNeedsDigits: holds for text with no ASCII digit; Python's `int()` would read text made of other Unicode decimal digits.
- TimeParser.ParseTime: `timedelta`'s overflow beyond 999999999 days is not modelled; milliseconds are unbounded.
- LivesplitOneProtocol.Json: JSON numbers other than integers (floats, exponents) are not modelled.
- LivesplitClient.SendStep: `socket.send` may send only part of the message and return a count, which `send` (src/splitguides/livesplit_client.py:90) ignores; the model treats a successful send as sending the whole message.
- Utf8.Encode: lone surrogates are not modelled, because a Dafny `char` is a Unicode scalar value; Python would raise UnicodeEncodeError on one.
- Color.RgbaRoundTrip: covers only stored strings of `#` and eight hex digits; QColor's handling of any other text (Qt's named colours, the three- and six-digit forms, invalid text, src/splitguides/ui/color.py:22) is not modelled, and QtHexName is None for it.
- Color.Qss: takes the four channels QColor reports; QColor's own parsing of the reordered colour name into those channels (src/splitguides/ui/color.py:48-49) is not modelled, so an invalid name's fallback colour is not either.
- CompiledSettings.SaveSpec: assumes `to_json` writes a nested Hotkey as the dict of its fields; the prefab class library's serializer is not part of this model.
- DictSettings.Initial: the dict copy of the defaults is implicit, because Dafny maps are values and the class-level defaults can never be mutated.
- The JSON indent format and the write to `output_file` are not modelled; save yields the object that would be written.
- `parse_time` returns `timedelta`; the model returns integer milliseconds.
- The desktop and server entry points, the Flask routes other than the event stream, the build scripts and the zip-app tooling are not part of this model.

## Findings

| source | as written | input that shows it | evidently intended | confidence | as-written member | corrected member |
|---|---|---|---|---|---|---|
| splitnotes2/livesplit_client/networking.py:59-69 | the `except OSError` clause comes before `except socket.timeout`, and the timeout is an OSError | a recv that times out | raise TimeoutError and keep the socket, as the newer client does | not executed | Legacy.LegacyTimeoutDropsConnection | LivesplitClient.FailuresAndHandle |
| splitnotes2/livesplit_client/networking.py:25-30 | after a refusal sets the handle to None, the `finally` clause calls `settimeout` on it | a connect the server refuses | report the refusal (the newer client returns False) | not executed | Legacy.LegacyConnectReports | LivesplitClient.ConnectReports |
| splitnotes2/util.py:4-6 | the hours group `\d*` with an optional `:` can take the tens digit of the minutes | `"15:32.34"` parses as 1h05m32.34s | 15m32.34s, as the newer pattern reads it | not executed | TimeParser.ParseTimeOldMisreadsMinutes | TimeParser.ParseTimeRoundTrip |
| src/splitguides/livesplitone_client.py:65 | `recv(BUFFER_SIZE, False)` passes 4096 as the websocket recv's timeout in seconds | any receive: the configured timeout is never used | wait for the connection's configured timeout | not executed | LivesplitOneClient.ReceiveIgnoresTimeout | LivesplitOneClient.TimedReceiveWaitsTimeout |
