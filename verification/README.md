# Multi-modal chat client: conversation history and streamed-reply reader

A Dafny model of the conversation core of a small Python chat client
(`main.py`). The `AIChatBot` class keeps an append-only
`conversation_history`. Each call of `send_message` does four things:

- it appends a user message tagged by input type;
- it posts the whole history, streamed, to the chat-completions endpoint, or, for audio, non-streamed to the realtime endpoint;
- it reads the streamed body line by line, keeping the `data: ` events and concatenating each chunk's `choices[0].delta.content`;
- it records at most one assistant message.

A foreground command loop (`process_realtime_audio`) decides, for each line
the user types, whether to quit, send the captured microphone buffer, or
report that no audio was captured.

Modules, leaf first:

- `Basics` (basics.dfy): `Option`, `byte`.
- `Text` (text.dfy): Python's `str.strip()` (the `str.isspace` code points), `startswith`, `lower()`.
- `Messages` (messages.dfy): history entries, the content-type tag, the request envelope and its routing.
- `Stream` (stream.dfy): a line's event payload and the effect of a decoded chunk. It also holds the body reader, written as a recursive fold (`Fold` over the lines' effects, `Assemble`), as a loop (`ReadBody`) and as a reference definition (`Contributions` / `AnyRaises`), with proofs that all three agree.
- `ChatBot` (chatbot.dfy): `send_message` as a function from history, arguments and the endpoints' answers to the request, the new history and the outcome.
- `Capture` (capture.dfy): the quit/send/no-audio decision and the loop over a finite run of commands.

The network, JSON decoding, UTF-8 decoding and base64 are parameters or
abstract values. The streamed body is a `seq<Line>`, where a `Line` is
decoded text or undecodable bytes. `json.loads` is an oracle
`string -> Parsed`. `Parsed` records the decoded value's shape only as far
as lines 94-99 look at it. Several of those shapes make the code raise
outside the `JSONDecodeError` handler:

- a truthy non-string `content` (the `+=` at line 99 raises `TypeError`);
- a `delta` or first choice that is not an object;
- a non-empty `choices` that is not a list.

Such an exception reaches the generic handler at lines 107-108. The turn
then ends with no assistant entry, and the model says so (`Effect.Raises`,
`Outcome.Failed`, `Stream.LineRaises`).

Four behaviours of the code are worth stating plainly:

- The reader does not stop at `data: [DONE]`. It skips that payload and keeps reading (`SilentLineTransparent`, `TokensAroundDone`).
- An audio request whose reply carries `text_response` records that text in the history. An audio reply that is played is not recorded.
- Nothing rejects an empty audio payload on its way to the service. The capture loop simply never sends an empty buffer.
- Audio recorded while a send is in flight is lost. The callback keeps writing into the buffer being sent, and line 143 replaces that buffer once the request is done (`Capture.AudioConserved`).

## Model

| member | source | states |
|---|---|---|
| Text.StripLeft | main.py:88 | the result is a suffix of the input, everything removed is Python whitespace, and the result does not start with whitespace |
| Text.StripRight | main.py:88 | the result is a prefix of the input, everything removed is Python whitespace, and the result does not end with whitespace |
| Text.Strip | main.py:88 | `strip()` returns a contiguous slice with only whitespace outside it and no whitespace at either of its ends |
| Text.StripIdempotent | main.py:88 | stripping an already stripped line changes nothing |
| Text.StripPadded | main.py:88 | text with no surrounding whitespace, followed by trailing whitespace, strips back to that text |
| Text.StripLeftLeading | main.py:88 | leading whitespace before a non-space character is exactly what stripping removes from the front |
| Text.StripSurrounded | main.py:88 | text with non-space ends, surrounded by whitespace, strips back to that text |
| Text.StripSplit | main.py:88 | every string is its stripped text with whitespace on either side |
| Text.StripSides | main.py:88 | what `strip()` cuts from the front and from the back is whitespace, and the two cuts around the stripped text put the line back together |
| Text.StripRightTrailing | main.py:88 | trailing whitespace after a non-space character, a line terminator included, is exactly what stripping removes |
| Text.Lower | main.py:135 | `lower()` keeps the length, leaves no capital letter, leaves every other character unchanged, and turns each capital into its small letter |
| Text.LowerIdempotent | main.py:135 | lower-casing twice is lower-casing once |
| Text.LowerCharIs | main.py:135 | the characters that lower-case to a small letter are that letter and its capital |
| Text.LowerIsQuit | main.py:135 | an input lower-cases to `quit` exactly when it is one of the sixteen case variants of the word |
| Messages.UserMessage | main.py:46-50 | the new message has the given role and content; `content_type` is `image_url` exactly for image input, `audio` exactly for audio input, and absent for every other input type |
| Messages.BuildRequest | main.py:59-82 | the envelope carries the whole history and the model name; `stream` is false exactly for audio; audio goes to the realtime URL and everything else to the chat-completions URL |
| Messages.StreamedIffChatEndpoint | main.py:62-82 | a request is streamed exactly when it goes to the chat-completions endpoint |
| Stream.Payload | main.py:87-90 | an undecodable line has no payload, and a payload is never empty and never ends in whitespace |
| Stream.PayloadShape | main.py:87-90 | a line yields payload `p` exactly when it is `data: p` with whitespace on either side, where `p` is non-empty and does not end in whitespace |
| Stream.PayloadShapeForward | main.py:87-90 | a line with payload `p` is `data: p` with whitespace on either side |
| Stream.PayloadShapeBackward | main.py:87-90 | `data: p` with whitespace on either side yields `p` when `p` is non-empty and does not end in whitespace |
| Stream.DataLineRoundTrip | main.py:88-90 | `data: p` plus any trailing whitespace yields back `p` when `p` does not end in whitespace |
| Stream.EmptyDataLineIgnored | main.py:88-90 | `data: ` with an empty payload is not an event, because stripping removes the separator space |
| Stream.LineEffectCases | main.py:87-101 | undecodable bytes raise; non-event lines, the `[DONE]` payload, malformed JSON, and chunks with no `choices`, an empty `choices` or an empty sized non-list `choices` add nothing |
| Stream.LineContributes | main.py:89-99 | a line adds non-empty text `t` exactly when it is a non-`[DONE]` event whose chunk has a non-empty `choices` list whose first delta's content is the string `t` |
| Stream.ContentSkipped | main.py:93-97 | a non-`[DONE]` chunk whose first choice has no `delta`, or whose `content` is absent, null, `""` or another falsy value, adds nothing and does not raise |
| Stream.LineRaises | main.py:87-99 | a line raises exactly when its bytes are not UTF-8, or its non-`[DONE]` chunk is a non-object that raises on the membership test or subscript, has a non-list `choices` whose `len` or `[0]` raises, or has a first choice that is not an object, has a non-object `delta`, or has truthy non-string content |
| Stream.PayloadRaises | main.py:91-99 | a decoded line with a given payload raises exactly when the payload is not `[DONE]` and its chunk has one of the shapes `LineRaises` lists; no payload, and the marker, never raise |
| Stream.FoldMatchesReference | main.py:84-101 | reading the body fails exactly when some line raises; otherwise the reply is every line's text concatenated in arrival order |
| Stream.FoldAppend | main.py:86-101 | folding two consecutive runs of line effects is folding the first and then the second |
| Stream.EffectsAppend | main.py:86-88 | each line's effect depends on that line alone, so the effects of a concatenated body are the effects of its parts |
| Stream.AssembleAppend | main.py:86-101 | reading two consecutive parts of a body is reading the first and then the second |
| Stream.AssembleSingle | main.py:86-101 | a one-line body fails exactly when its line raises, and otherwise yields that line's text |
| Stream.SilentLineTransparent | main.py:91-101 | a line that adds nothing, such as `[DONE]` or malformed JSON, neither ends the read nor changes how the later lines are read |
| Stream.EffectsRaise | main.py:86-101 | the lines' effects contain a raise exactly when some line raises |
| Stream.ReadBody | main.py:84-101 | the line loop returns the concatenated reply exactly when no line raises, and it agrees with the recursive reader |
| Stream.TokenChunkEffect | main.py:94-99 | a chunk whose first choice's delta content is the string `t` adds `t` |
| Stream.TokenLineEffect | main.py:87-99 | the line `data: p` whose chunk carries token `t` adds `t` |
| Stream.DoneLineEffect | main.py:91 | the line `data: [DONE]` adds nothing and does not raise |
| Stream.TokensAroundDone | main.py:86-99 | two token lines around a `[DONE]` line assemble to the two tokens concatenated in arrival order, so `Hel` and `lo` give `Hello` and the marker does not end the read |
| ChatBot.SendMessage | main.py:45-108 | earlier history entries are unchanged; the user message comes next; a streamed reply read to the end or a realtime text reply adds exactly one assistant entry holding that text, and every other outcome adds nothing; the request carries the grown history and is streamed and routed by input type |
| ChatBot.StreamedTurnSucceeds | main.py:78-103 | a streamed body read to the end adds exactly the user message and one assistant entry holding the in-order concatenation of the line texts |
| ChatBot.StreamedTurnFails | main.py:83-108 | an HTTP failure or a raising line leaves the user message and adds no assistant entry |
| ChatBot.AudioReplyPlayed | main.py:69-72 | an audio reply with `audio_response` adds no assistant entry, even when `text_response` is present too |
| ChatBot.AudioReplyText | main.py:73-76 | an audio reply with only `text_response` adds exactly one assistant entry holding that text |
| ChatBot.AudioReplyEmpty | main.py:65-76 | an audio reply with neither key, or a failed audio request, adds nothing beyond the user message |
| ChatBot.RoutingIgnoresOtherEndpoint | main.py:65-82 | an audio turn never depends on the chat-completions endpoint, and any other turn never depends on the realtime endpoint |
| Capture.Decide | main.py:134-145 | the loop quits exactly on a case variant of `quit`; otherwise it sends exactly when the buffer exists and is non-empty, and it sends the buffer's contents |
| Capture.Absorb | main.py:127-129 | callback writes create the buffer on the first write and append to it in order |
| Capture.FlattenAppend | main.py:129 | writing one run of blocks after another yields the two runs' bytes end to end |
| Capture.RunCapture | main.py:131-147 | earlier history entries are unchanged; the history grows by at least one and at most two entries per send; only non-empty buffers are sent; each send drops one run of late bytes; the loop can end on quit only after reading a command |
| Capture.SendStep | main.py:137-143 | a pass that sends appends the audio user message carrying the encoded buffer, then what the realtime reply records; it sends the buffer's contents once, drops what the callback wrote during the request, and continues with an empty buffer |
| Capture.IdleStep | main.py:144-145 | a pass with no captured audio changes neither the history nor what is sent, and keeps every block written during the pass in the buffer |
| Capture.QuitIffQuitCommand | main.py:133-136 | the loop ends on quit exactly when some command is a case variant of `quit`, and otherwise at the end of input |
| Capture.QuitIgnoresLater | main.py:135-136 | commands after a `quit` have no effect: the loop gives the same result on the run cut just after that command |
| Capture.QuitSendsNothing | main.py:135-136 | a first command of `quit` in any case ends the loop with no request and no history entry |
| Capture.AudioConserved | main.py:127-143 | on every run, quit or end of input, each sent payload followed by the bytes its request's buffer lost, then the remaining buffer, is exactly the initial buffer followed by every byte written until the loop ends, in order; so the bytes written during a send are exactly what main.py:143 discards, and nothing else is lost or sent twice |

## Left out

- HTTP transport: the aiohttp session, the headers, `raise_for_status`, and the line iterator at main.py:86. An endpoint's answer is a parameter, either lines or a JSON body, or a failure.
- The line source at main.py:86 is `response.content.iter_lines()`. As far as this model can tell, aiohttp's stream reader is iterated by lines directly and may not offer a method of that name. If so, every streamed request raises there and ends in the generic handler. The model takes the method to yield the body's lines.
- JSON decoding (`json.loads`, `response.json()`) and UTF-8 decoding: a JSON oracle and an undecodable-line value stand in for them.
- Base64 encoding and decoding (RFC 4648 section 4, main.py:71, 140, 164): the encoder is a function parameter, and an audio reply is kept in its encoded form. An invalid base64 `audio_response` raises at line 71 and lands in the generic handler. Its effect on the history is the same as a played reply, so the model does not separate the two.
- Audio playback (main.py:110-119) and all printing.
- The microphone callback's concurrency (main.py:124-129). Each pass of the loop sees two runs of blocks. The first holds those written while the prompt waits and until the buffer is read at main.py:139. The second holds those written after that; when the pass sends, these are the blocks written between the read at main.py:139 and the replacement at main.py:143, which land in the discarded buffer. Blocks written after the replacement belong to the next pass. The model assumes each block and the buffer replacement happen atomically, and it does not say how the blocks of a real run split into those two runs.
- The camera loop (main.py:149-173) is left out. Its image turns are covered by `send_message`. Also left out: the unused `mss` and `pyttsx3` engine, the API-key check and `exit()` (main.py:19-22), and the `asyncio` entry point.
- Text.Lower: maps only the ASCII letters. Python's full Unicode mapping is not modelled. No non-ASCII character lower-cases to one of `q`, `u`, `i`, `t`, so the comparison with `quit` is unaffected.
- ChatBot.RealtimeBody: the realtime answer is modelled as a JSON object whose `text_response` and `audio_response` values are strings. A non-string value under `text_response` would be stored in the history as it is. A body that is not an object is not modelled.
- The source also allows `Parsed` shapes beyond those lines 94-99 inspect. The model gives a non-object chunk only a flag saying whether the membership test or subscript raises. It does not spell out which arrays or strings do.
