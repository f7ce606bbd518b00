# voice-streamer in Dafny

A model of the core of a Twilio/ElevenLabs voice gateway. The core is the
per-connection WebSocket session (`AudioStreamConsumer`). It accepts
`start`, `stop`, `media` and `connected` events. While streaming, it answers
each non-empty media event with synthesised speech as one binary frame, then
writes an `AudioLog` record. Every fault of dispatch or of synthesis becomes
one JSON error envelope with a code; a failing log write is swallowed and
sends nothing. The model also covers the pure helpers of the command-line tool: the
duration option, the `http://` to `https://` rewrite of the tunnel URL, and
the webhook URL and command line that `set_voice_url` builds.

Files and modules:

- `wrappers.dfy`, module `Wrappers`: `Option`, `Result`.
- `strings.dfy`, module `Strings`: the whitespace of `str.split()` and of `int()`, `int()` on decimal
  text, `str()` of integers, and `str.split()`, with their round trips.
- `json_value.dfy`, module `JsonValue`: decoded JSON values, Python
  truthiness, type names and `str()`.
- `synthesis.dfy`, module `Synthesis`: the SDK response as the capabilities
  the session probes for (`read`, `__iter__`, `bytes()`), the chunk join as a
  loop, and the normalisation order.
- `consumers.dfy`, module `Consumers`: envelopes, log records, the
  specification functions `MediaSpec`, `ReceiveSpec` and `Run`, their
  properties, and the class `AudioStreamConsumer`. Each method of the class
  is proved to change its fields exactly as those functions say.
- `cli.dfy`, module `Cli`: `parse_duration`, the scheme rewrite, and
  `set_voice_url`.

Each `await` is one sequential step. A send appends to `outbox`, and a
successful log write appends to `logs`. The outside world is an input
(`Consumers.Env`): what `text_to_speech.convert` does for a request, and
whether the log store accepts a record. The connection id (`str(id(self))`)
is a parameter of `Connect`. Whether the ElevenLabs client could be built is
a parameter of the constructor. The peer address from the ASGI scope is a
constructor parameter too.

Behaviours of the code that are easy to miss:

- A raw `bytes` result from the synthesiser has `__iter__`, so it takes the
  join branch. Joining its ints fails, which gives `audio_error`
  (`Synthesis.RawBytesResult`, `Consumers.RawBytesGiveAudioError`). Only an
  empty byte string gets through, as an empty binary frame. The `bytes(...)`
  branch is reached only by objects with neither `read` nor `__iter__`.
- The synthesised text is always the fixed acknowledgement
  `"Mensaje recibido correctamente"`; the inbound media is never read.
- A decoded JSON value that is not an object makes `data.get` raise, so the
  reply is `internal_error` with the AttributeError text, not `json_error`.
- `parse_duration` takes the last character as the unit whatever it is, so
  a unit-less `"300"` is 30 seconds (`Cli.UnitlessNumber`).

## Model

| member | source | states |
|---|---|---|
| `Consumers.AudioStreamConsumer.constructor` | audio_streaming/consumers.py:17-21 | a new session is not streaming, has no client id, has sent nothing and logged nothing |
| `Consumers.AudioStreamConsumer.Connect` | audio_streaming/consumers.py:32-46 | the client id is set; without a synthesis client exactly one `init_error` is sent and the connection is closed, and `connection_established` is never sent; otherwise exactly one `connection_established` carrying the id |
| `Consumers.AudioStreamConsumer.Disconnect` | audio_streaming/consumers.py:48-51 | streaming is off and the session is closed; nothing is sent or logged |
| `Consumers.AudioStreamConsumer.Receive` | audio_streaming/consumers.py:53-81 | on an open connection, the new flag, the frames sent and the logs written are exactly those of `ReceiveSpec` for the old flag; the client id and closed state do not change |
| `Consumers.AudioStreamConsumer.HandleStartStream` | audio_streaming/consumers.py:83-90 | streaming is on and exactly one `started` envelope is appended |
| `Consumers.AudioStreamConsumer.HandleStopStream` | audio_streaming/consumers.py:92-99 | streaming is off and exactly one `stopped` envelope is appended |
| `Consumers.AudioStreamConsumer.HandleMediaData` | audio_streaming/consumers.py:101-162 | the frames sent and logs written are exactly those of `MediaSpec`; the streaming flag is unchanged |
| `Consumers.AudioStreamConsumer.SaveAudioLog` | audio_streaming/consumers.py:164-180 | appends the `media_processed` record with the peer host, or nothing when the store fails or the scope's client is None; never sends |
| `Consumers.AudioStreamConsumer.SendError` | audio_streaming/consumers.py:182-187 | appends exactly one `error` envelope with the given code and message |
| `Consumers.AudioStreamConsumer.SendJson` | audio_streaming/consumers.py:189-191 | appends exactly one text frame with the envelope |
| `Consumers.AudioStreamConsumer.Send` | audio_streaming/consumers.py:147 | appends exactly the given frame to the outbox |
| `Consumers.StartStop` | audio_streaming/consumers.py:83-99 | `start` turns streaming on and replies `started`/`streaming`; `stop` turns it off and replies `stopped`/`stopped`; neither depends on the prior state or logs |
| `Consumers.StartTwice` | audio_streaming/consumers.py:83-90 | two `start`s leave streaming on with two identical `started` replies and no error |
| `Consumers.DispatchFaults` | audio_streaming/consumers.py:55-81 | unparseable JSON gives one `json_error`; a non-object gives one `internal_error` with the fault text; an unknown label gives one `unknown_event`, a missing label counting as `''`; the flag never changes |
| `Consumers.OneReplyPerFrame` | audio_streaming/consumers.py:53-162 | every frame gets exactly one reply, except a media event ignored for streaming off or a missing or falsy `media` field, which gets none; at most one log, which follows exactly one binary frame and records its length / 1000 |
| `Consumers.ConnectedIsReady` | audio_streaming/consumers.py:65-70 | `connected` gets one `ready` envelope carrying the client id and changes nothing |
| `Consumers.MediaIgnored` | audio_streaming/consumers.py:101-110 | media while not streaming, or with a missing or falsy `media` field, sends nothing, logs nothing and keeps the state |
| `Consumers.MediaDelivered` | audio_streaming/consumers.py:112-151 | successful media sends exactly one binary frame with the normalised bytes, then one `media_processed` record exactly when the store accepts it and the address can be read |
| `Consumers.MediaFaults` | audio_streaming/consumers.py:115-156 | a fault of the call, of `read()` or of `bytes()` gives one `audio_generation_error`; a join fault gives one `audio_error`; neither sends audio or logs |
| `Consumers.LogFailureSwallowed` | audio_streaming/consumers.py:164-180 | a failing log store changes no reply and writes no record |
| `Consumers.RawBytesGiveAudioError` | audio_streaming/consumers.py:128-135 | a non-empty raw `bytes` result gives one `audio_error` with the join's TypeError text, no audio and no log |
| `Consumers.IdleMediaSilent` | audio_streaming/consumers.py:101-104 | any number of media events before `start` produce no reply and no log |
| `Consumers.StopSilencesMedia` | audio_streaming/consumers.py:92-104 | after `stop`, whatever the prior state, media events produce nothing |
| `Consumers.MalformedThenStart` | audio_streaming/consumers.py:75-77 | a malformed frame gets one `json_error` and a later `start` still works |
| `Consumers.StartMediaStop` | audio_streaming/consumers.py:53-175 | start, media, stop yield `started`, one binary frame, `stopped`, and exactly one `media_processed` record, holding the peer's host when the scope has a client entry and None when it has none |
| `Synthesis.FirstNonBytes` | audio_streaming/consumers.py:131 | finds the first joined value that is not bytes-like, or reports that all of them are |
| `Synthesis.JoinItems` | audio_streaming/consumers.py:128-135 | the chunk-by-chunk join returns the concatenation, the iteration fault, or the TypeError naming the first bad item, as `Join` specifies |
| `Synthesis.JoinChunkStream` | audio_streaming/consumers.py:131 | a stream of byte chunks joins to their concatenation |
| `Synthesis.ReadWins` | audio_streaming/consumers.py:125-127 | a response with `read` is drained by `read()`, whatever iterating or converting it would do |
| `Synthesis.IterBeatsConversion` | audio_streaming/consumers.py:128-138 | without `read`, an iterable response is joined and `bytes()` is never tried |
| `Synthesis.NormalizeSources` | audio_streaming/consumers.py:136-138 | only a response with neither `read` nor `__iter__` uses `bytes()`, and only an iterable one without `read` can fail the join |
| `Synthesis.RawBytesResult` | audio_streaming/consumers.py:128-138 | raw `bytes` takes the join branch: empty gives empty audio, non-empty gives the `sequence item 0 ... int found` error |
| `Synthesis.Join` | audio_streaming/consumers.py:131 | `b''.join` of the iterated response; properties in `JoinChunkStream`, `RawBytesResult`, and the loop `JoinItems` |
| `Synthesis.Normalize` | audio_streaming/consumers.py:125-138 | the result normalisation; properties in `ReadWins`, `IterBeatsConversion`, `NormalizeSources`, `RawBytesResult` |
| `Consumers.LogWrite` | audio_streaming/consumers.py:164-180 | the record `_save_audio_log` writes; properties in `MediaDelivered`, `LogFailureSwallowed` |
| `Consumers.MediaSpec` | audio_streaming/consumers.py:101-162 | the media pipeline; properties in `MediaIgnored`, `MediaDelivered`, `MediaFaults`, `LogFailureSwallowed`, `RawBytesGiveAudioError` |
| `Consumers.ReceiveSpec` | audio_streaming/consumers.py:53-81 | the dispatch of one frame; properties in `StartStop`, `ConnectedIsReady`, `DispatchFaults`, `OneReplyPerFrame` |
| `Consumers.Run` | audio_streaming/consumers.py:53-81 | frames dispatched in order; properties in `StartTwice`, `IdleMediaSilent`, `StopSilencesMedia`, `MalformedThenStart`, `StartMediaStop` |
| `JsonValue.Truthy` | audio_streaming/consumers.py:108 | Python truthiness of the `media` field; property in `MediaIgnored` |
| `Strings.ParseIntOfIntToString` | main.py:41 | `int(str(n)) == n` for every integer |
| `Strings.ParseInt` | main.py:41 | `int()` in base 10: strips the whitespace `int()` strips, then an optional sign and digits with single underscores between digits, else failure; properties in `ParseIntOfIntToString`, `Cli.ParseDurationStripsSpaces`, `Cli.ParseDurationFailures` |
| `Strings.SplitWhitespace` | main.py:52 | `str.split()` with no separator: the maximal runs of non-whitespace; property in `SplitJoinSpaces` |
| `Strings.SplitJoinSpaces` | main.py:52 | `" ".join(words).split() == words` for words without whitespace |
| `Cli.ParseDurationOfNumber` | main.py:38-48 | a number followed by `h`/`H` is ×3600, by `m`/`M` is ×60, by any other character is the number |
| `Cli.DefaultDuration` | main.py:120 | the default `5m` is 300 seconds |
| `Cli.UnitlessNumber` | main.py:40-48 | a unit-less number of two or more digits loses its last digit |
| `Cli.ThreeHundred` | main.py:40-48 | `"300"` parses to 30 and `"300s"` to 300 |
| `Cli.ParseDurationFailures` | main.py:40-41 | the empty string, a lone character, `"xm"`, and a number behind U+001C (which `int()` does not strip) fail |
| `Cli.ParseDurationStripsSpaces` | main.py:41 | whitespace around the number, which `int()` strips, is accepted: `" 5 m"` is 300 |
| `Cli.ParseDuration` | main.py:38-48 | the last character is the unit and the rest goes through `int()`; properties in `ParseDurationOfNumber`, `DefaultDuration`, `UnitlessNumber`, `ThreeHundred`, `ParseDurationFailures` |
| `Cli.ToHttpsRewrites` | main.py:92-93 | `"http://" + rest` becomes `"https://" + rest`; any other URL is kept |
| `Cli.ToHttpsIdempotent` | main.py:92-93 | the result never starts with `http://`, so rewriting twice equals rewriting once |
| `Cli.ToHttps` | main.py:92-93 | the scheme rewrite; properties in `ToHttpsRewrites`, `ToHttpsIdempotent` |
| `Cli.VoiceUrl` | main.py:76 | the webhook URL; properties in `VoiceUrlShape` |
| `Cli.SetVoiceUrlCommand` | main.py:73-77 | the command line `set_voice_url` runs; properties in `CommandJoinsArguments`, `SetVoiceUrlArguments` |
| `Cli.VoiceUrlShape` | main.py:76 | the webhook is the URL followed by `/twilio/stream/`; for the default production URL `""` it is just `/twilio/stream/` |
| `Cli.CommandJoinsArguments` | main.py:73-77 | the command is the five arguments joined by single spaces |
| `Cli.SetVoiceUrlArguments` | main.py:52 | for a URL without whitespace, `command.split()` gives exactly five arguments, the last of them the webhook |

## Left out

- WebSocket plumbing: `accept`, `close` and the `StopConsumer` raise are not modelled, and neither is async scheduling. `close` becomes the `closed` flag.
- `Receive` requires an open connection, as the channel layer delivers no frame after `close` or `disconnect`. The other handlers are called only from `Receive` and carry no such requirement.
- Inbound binary frames (a `receive` call without `text_data`) are not modelled.
- The ElevenLabs SDK and network call are not modelled. `_init_elevenlabs_client` becomes the constructor's `synthesisReady` flag, and each call's outcome is an input.
- JSON decoding is not modelled. A frame arrives already decoded (`Inbound`), and JSON numbers are integers only.
- `JsonValue.Str`: for a list or object event label, the `unknown_event` text shows `[...]` or `{...}` instead of Python's repr.
- Sends never fail in the model. A failing send would raise into the nearest `except`. So the outer `except` of `_handle_media_data` (audio_streaming/consumers.py:158-162) cannot be reached. `data.get('media')` on a decoded object cannot raise either.
- The dead base64 encoding (line 144), logging and tracebacks are not modelled.
- `audio_length` is the exact real `len / 1000`, not a binary float.
- The `timestamp` and `twilio_sid` columns of `AudioLog` are not modelled. Neither is address validation in the database.
- `Strings.ParseInt`: `int()` is modelled for ASCII digits, a sign, single underscores and the whitespace `int()` strips. Non-ASCII decimal digits, which Python also accepts, are rejected.
- `Strings.ParseInt`: the model has no digit limit; CPython 3.10.7 and later raise ValueError in `int()` and `str()` beyond 4300 digits, so `ParseIntOfIntToString` holds in Python only below that size.
- The rest of `main.py` is I/O and not modelled: `run_command`'s subprocess, `show_phone_numbers`, ngrok, the click commands, and the `while True` sleep loop.
- `calls/views.py`, `audio_streaming/views.py` and the models, serializers, admin, url and asgi files are not part of this model. They are declarations or thin CRUD.
