# Chat relay core, modelled in Dafny

The relay is a small Rust web server that sits between a browser chat client, a
completion service and a SQLite-backed storage thread. This project models its
three sequential cores:

- **`Http`** (`http.dfy`) covers the relay's own HTTP helpers.
  - `get_header` finds the first header whose name matches exactly.
  - `new_headers` turns key/value pairs into headers.
  - `response_to_string` writes the status line, one `name: value` line per header, and then a blank line and the body, but only when there is a body. Every line ends in a bare LF.
- **`Server`** (`server.dfy`) models one client connection (`WebConnection`).
  - It covers the route table with the CORS preflight short-circuit.
  - It covers the path and body checks.
  - It covers the fixed conversation each handler holds with the storage actor.
  - It covers the mapping from the actor's replies to HTTP status codes.
  - It covers the audio cache rule: a cache miss records `static/{id}`.
- **`Database`** (`database.dfy`) models the storage actor (`DbConnection`).
  - Its state is the `senders` map, the registration inbox, the handoff queue of reply channels and the request inbox.
  - Its operations are the login check ("exactly one matching `Users` row"), the token lookup, and the two polling steps together with their endless loop.

Supporting modules:
- `Strings` (`strings.dfy`) models Rust's `trim`, `split`, `join`, the UTF-8 byte length `len()` and the decimal `to_string()` of lengths.
- `Protocol` (`protocol.dfy`) models the message enums `DatabaseMessage` and `NetworkMessage` of src/modules/database/types.rs and the web types they carry.
- `Wrappers` holds `Option`.

How the imperative code is modelled:
- Each handler is a method of the `Server.WebConnection` class. It changes the connection's fields and is proved equal to a pure *outcome* function (`GetChatsOutcome` and so on) of the old state.
- The outcome functions state the decision table: which requests are sent, which reply leads to which response, and when the handler blocks or panics.
- A family of lemmas proves that every handler run is a well-behaved *step*:
  - it sends only requests that name this connection (or `RecordAudioPath`);
  - it consumes replies from the front of its channel;
  - it writes at most one response, and only when it runs to the end;
  - every response it writes can be serialised, and any `Content-Length` it carries is the UTF-8 length of its body.
- The replies the actor will deliver on the connection's channel are a scripted sequence. An empty script at a `recv` means the reply never comes, and the handler stays blocked.
- `Database.DbConnection` is a class whose methods are proved equal to the pure functions `Register`, `Handle`, `Drain` and `Rounds`. The lemmas about the actor are stated on those functions.

## Model

| member | source | states |
|---|---|---|
| Strings.Trim | src/modules/web_client/server.rs:184-186 | `str::trim`: the result is no longer than the input, is empty exactly when the input is all whitespace, and otherwise neither starts nor ends with whitespace |
| Strings.UnpaddedTail | src/modules/web_client/server.rs:184-185 | what trimming the end leaves out of any suffix is whitespace running to the end of the input |
| Strings.TrimBounds | src/modules/web_client/server.rs:184-185 | `trim` keeps one contiguous slice of the input and removes only whitespace: everything before the slice and everything after it is whitespace (with `Trim`'s non-whitespace ends, this pins the result down) |
| Strings.TrimIdempotent | src/modules/web_client/server.rs:186 | trimming twice gives the same as trimming once, which is why the source's second `trim()` in the length check changes nothing |
| Strings.TrimKeepsAbsent | src/modules/web_client/server.rs:184-185 | trimming never introduces a character, so the trimmed fields still contain no line break |
| Strings.Count | src/modules/web_client/server.rs:176 | the number of separator characters is at most the length, and is zero exactly when the separator does not occur |
| Strings.CountAppend | src/modules/web_client/server.rs:176 | separator counts add up over a concatenation |
| Strings.Split | src/modules/web_client/server.rs:176 | `str::split` on a character gives one more piece than there are separators, and no piece contains the separator |
| Strings.JoinSplit | src/modules/web_client/server.rs:281 | joining the pieces of a split with the same separator gives back the original string |
| Strings.SplitJoin | src/modules/web_client/server.rs:176 | splitting a join of separator-free pieces gives back exactly those pieces |
| Strings.Join | src/modules/web_client/server.rs:281 | `chats.join("\n")`: the pieces with one separator between neighbours; `JoinSplit` and `SplitJoin` prove it inverse to `split` |
| Strings.SplitNoSeparator | src/modules/web_client/server.rs:94 | a string without the separator splits into itself alone |
| Strings.SplitAfterPiece | src/modules/web_client/server.rs:94 | a separator-free piece followed by the separator splits off as the first piece |
| Strings.JoinThree | src/modules/web_client/server.rs:176-183 | three pieces joined by a separator are the pieces with the separator between them |
| Strings.ByteLen | src/modules/web_client/server.rs:131 | `str::len` counts UTF-8 bytes: at least one and at most four per character |
| Strings.Decimal | src/modules/web_client/server.rs:131 | `to_string` of a length is a non-empty digit string with no leading zero except for 0 itself |
| Strings.DecimalRoundTrip | src/modules/web_client/server.rs:131 | reading back the decimal text of a length gives that length |
| Http.GetHeader | src/modules/web_client/http.rs:1-8 | None exactly when no header name equals the target; otherwise the value of the lowest-index header whose name equals the target exactly |
| Http.NewHeaders | src/modules/web_client/http.rs:10-18 | the output has as many headers as pairs, and the i-th header has the i-th key as its name and the i-th value as its value |
| Http.NewHeadersRoundTrip | src/modules/web_client/http.rs:10-18 | reading the pairs back from built headers gives the original pairs, in order |
| Http.GetHeaderOfNewHeaders | src/modules/web_client/http.rs:1-18 | looking a key up in built headers gives the value of the first pair with that key |
| Http.HeaderLines | src/modules/web_client/http.rs:27-34 | one formatted line per header |
| Http.ResponseToString | src/modules/web_client/http.rs:20-47 | requires code and reason; the loop builds the header lines, and the output is the status line, the header lines in order, and, only with a body, "\n" and the body (`Render`) |
| Http.ConcatAppend | src/modules/web_client/http.rs:36-40 | concatenation distributes over appending line lists |
| Http.HeaderBlockAt | src/modules/web_client/http.rs:27-40 | header i's line sits between the lines of the headers before it and those after it, with nothing in between |
| Http.ConcatLines | src/modules/web_client/http.rs:36-40 | concatenated LF-terminated non-empty lines contain no blank line, end in LF, and hold one LF per line |
| Http.HeadIsLines | src/modules/web_client/http.rs:21-40 | when fields hold no line break, the status line plus header lines is 1 + (number of headers) LF-terminated lines with no blank line among them |
| Http.BlankLineAfterHead | src/modules/web_client/http.rs:41-46 | the text after the first blank line is exactly the body, and there is no blank line when there is no body |
| Http.RenderLayout | src/modules/web_client/http.rs:20-47 | the output starts with the status line and header lines; with a body, the body is exactly what follows the first blank line; without one, the output has no blank line at all |
| Http.Head | src/modules/web_client/http.rs:21-40 | the status line followed by one line per header, as `HeadIsLines` lays out |
| Http.Render | src/modules/web_client/http.rs:20-47 | the whole serialised response, whose layout `RenderLayout` and `BlankLineAfterHead` state |
| Http.NoCarriageReturn | src/modules/web_client/http.rs:22-29 | when the inputs hold no CR, neither does the output: the function itself writes only LF terminators |
| Http.NoCarriageReturnInLines | src/modules/web_client/http.rs:36-40 | concatenating CR-free lines gives CR-free text |
| Server.RouteKey | src/modules/web_client/server.rs:96 | `format!("{method} {path}")`; `RouteKeyInjective` proves that distinct pairs give distinct keys |
| Server.Route | src/modules/web_client/server.rs:96-105 | a key of the route table picks that route's handler, and a key is sent to `handle_invalid_endpoint` exactly when it is none of the eight table keys |
| Server.UpToSpaceOfKey | src/modules/web_client/server.rs:95 | the method can be read back from the route key `"{method} {segment}"` |
| Server.RouteKeyInjective | src/modules/web_client/server.rs:95 | distinct (method, segment) pairs give distinct route keys, given a method without a space |
| Server.OtherPairsInvalid | src/modules/web_client/server.rs:95-104 | any other (method, segment) pair reaches `handle_invalid_endpoint` |
| Server.OtherKey | src/modules/web_client/server.rs:95 | a pair differing from a route's pair never produces that route's key |
| Server.Segment | src/modules/web_client/server.rs:94-95 | path segment i exists exactly when the path holds at least i slashes, and it never contains a slash |
| Server.ChatPathSegments | src/modules/web_client/server.rs:396-398 | for "/{route}/{id}", segment 1 is the route and segment 2 is the chat id |
| Server.ParseRegistration | src/modules/web_client/server.rs:176-190 | rejects any body without exactly two line breaks; an accepted registration has trimmed email and password of at least 2 and 8 bytes and no line breaks |
| Server.RegistrationLines | src/modules/web_client/server.rs:176-180 | a body written as three line-free fields separated by "\n" splits into exactly those three fields |
| Server.ParseRegistrationFields | src/modules/web_client/server.rs:176-190 | for every line-free name, email and password, "name\nemail\npassword" is accepted exactly when the trimmed email has at least 2 and the trimmed password at least 8 bytes, and then reads back as the name as written with the trimmed email and password |
| Server.TwoLineBreaks | src/modules/web_client/server.rs:176-180 | every body with exactly two line breaks is "name\nemail\npassword" of its three lines, so `ParseRegistrationFields` covers every body the line count admits |
| Server.RegistrationRoundTrip | src/modules/web_client/server.rs:176-195 | every registration a client can send as "name\nemail\npassword" is accepted and read back field for field |
| Server.NonEmpty | src/modules/web_client/server.rs:308-311 | the filter keeps only non-empty pieces taken from the input, keeps a list with no empty piece whole, and drops a list of empty pieces entirely |
| Server.NonEmptyAppend | src/modules/web_client/server.rs:308-311 | the filter works piece by piece: filtering a concatenation is filtering each half, in order, so every non-empty piece is kept in its place |
| Server.ParseLogin | src/modules/web_client/server.rs:307-316 | an accepted login is two non-empty pieces with no line breaks |
| Server.ParseLoginLines | src/modules/web_client/server.rs:307-316 | for any body, given as its lines: it is accepted exactly when it has two non-empty lines, and those are then the email and the password in order; any other number of non-empty lines gives None (the 400) |
| Server.LoginRoundTrip | src/modules/web_client/server.rs:307-317 | "email\npassword" with non-empty, line-free fields is accepted as exactly that email and password, untrimmed |
| Server.SplitTrailingSeparator | src/modules/web_client/server.rs:309 | a trailing separator adds one empty piece at the end |
| Server.NonEmptyDropsEmpty | src/modules/web_client/server.rs:310 | a trailing empty piece is filtered away |
| Server.LoginIgnoresTrailingNewline | src/modules/web_client/server.rs:307-316 | a trailing line break never changes how a login body is read |
| Server.ErrorReply | src/modules/web_client/server.rs:385-393 | `generic_error` writes the given code and reason with no body, and the response can be serialised |
| Server.InvalidRequestReply | src/modules/web_client/server.rs:79-84 | an unparsable request gets a body-less 400 |
| Server.CorsReply | src/modules/web_client/server.rs:251-262 | the preflight answer is a body-less 200 whose Allow-Origin, Allow-Headers and Allow-Methods headers are all "*" |
| Server.AudioReply | src/modules/web_client/server.rs:131-142 | a 200 with the audio as body whose Content-Length is the decimal UTF-8 length of that body |
| Server.RegisteredReply | src/modules/web_client/server.rs:199-210 | a serialisable 200 carrying the user-info JSON |
| Server.DeletedReply | src/modules/web_client/server.rs:226-237 | a body-less serialisable 200 |
| Server.ChatsReply | src/modules/web_client/server.rs:280-293 | a 200 whose body is the chat ids joined by "\n" and whose Content-Length is that body's UTF-8 length |
| Server.LoginReply | src/modules/web_client/server.rs:329-343 | a 200 carrying the user-info JSON and a `Cookie` header "Token={token}" |
| Server.NewChatReply | src/modules/web_client/server.rs:360-373 | a serialisable 200 whose body is the new chat id |
| Server.JsonReply | src/modules/web_client/server.rs:409-421 | a serialisable 200 carrying a JSON body |
| Server.StepKeepsValid | src/modules/web_client/server.rs:73-112 | a handler run keeps every written response serialisable and every sent request this connection's own |
| Server.TalkedTrans | src/modules/web_client/server.rs:88-112 | consecutive conversations with the actor compose |
| Server.CorsOutcome | src/modules/web_client/server.rs:246-266 | `handle_cors` reports handled exactly for an OPTIONS request, and then has written the CORS reply and nothing else |
| Server.GetAudioFileOutcome | src/modules/web_client/server.rs:154-171 | asks for the audio path; with an `AudioPath` reply it sends nothing more and serves the cached file, or panics when the file is missing; with any other reply it panics when synthesis fails, and otherwise sends exactly one `RecordAudioPath(id, "static/"+id)` and then writes the audio at that same path, panicking when the write fails and otherwise returning the audio; it writes no response itself |
| Server.GetAudioOutcome | src/modules/web_client/server.rs:114-152 | no Token gives 400; a non-`Email` validation reply gives 401; otherwise `GetMessage` for the body's id is sent, and a non-`Message` reply gives 403 |
| Server.GetAudioServes | src/modules/web_client/server.rs:114-171 | after `Email` and `Message` replies: a cached path is served as a 200 with the file, a missing file panics, and otherwise the synthesised audio is recorded under "static/{id}", written there and served, with a failed synthesis or a failed write panicking |
| Server.RegisterUserOutcome | src/modules/web_client/server.rs:173-214 | a malformed body gives 400 with nothing sent; otherwise exactly one `RegisterUser` with the untrimmed name and trimmed email and password is sent; a `Token` reply gives a 200 with that user's info, and any other reply gives 401 |
| Server.DeleteChatOutcome | src/modules/web_client/server.rs:216-244 | no Token gives 400; otherwise exactly one `DeleteChat` with the body as the chat id is sent; an `Ok` reply gives 200, and any other reply gives 404 |
| Server.GetChatsOutcome | src/modules/web_client/server.rs:268-303 | no Token gives 400; a non-`Email` validation reply gives 401; otherwise `GetChats` for that email is sent; a `Chats` reply gives the joined ids, and any other reply gives 500 |
| Server.LoginOutcome | src/modules/web_client/server.rs:305-347 | not exactly two non-empty lines gives 400 with nothing sent; otherwise one `LoginRequest` with the untrimmed email and the hash of the trimmed password is sent; a `UserInfo` reply gives 200 with the token cookie, and any other reply gives 401 |
| Server.NewChatOutcome | src/modules/web_client/server.rs:349-383 | no Token gives 400; a non-`Email` validation reply gives 401; otherwise `NewChat` for that email is sent; a `Messages` reply gives a 200 with the chat id, and any other reply gives 403 |
| Server.GetChatOutcome | src/modules/web_client/server.rs:395-433 | no segment 2 gives 400; no Token gives 401; otherwise exactly one `ChatRequest` is sent; a `Messages` reply gives a 200 with their JSON, and any other reply gives 403 |
| Server.RetrieveOutcome | src/modules/web_client/server.rs:511-522 | sends one `ChatRequest`; the messages come back exactly when the reply is `Messages` |
| Server.ReloadDecisions | src/modules/web_client/server.rs:458-463 | the context is reloaded only for a different chat id, and chat id and context change only when the reload returns messages |
| Server.ReplyDecisions | src/modules/web_client/server.rs:464-489 | an absent completion gives 502; otherwise the answer is sent as a second `NewMessage` with its role, content and the fresh answer id, and, once acknowledged, answered as JSON |
| Server.SendMessageOutcome | src/modules/web_client/server.rs:435-505 | no segment 2 gives 400, no Token gives 401, and a whitespace-only body gives 400, all with nothing sent; otherwise the first `NewMessage` carries sender "user", and a non-`Timestamp` reply gives 403 |
| Server.HandleRequestOutcome | src/modules/web_client/server.rs:88-112 | no method, or no path, writes nothing; OPTIONS writes only the CORS reply; a missing segment 1 gives 400; otherwise the handler `Route` picks for "{method} {segment 1}" runs, and an unknown route key gives 404 |
| Server.Dispatch | src/modules/web_client/server.rs:96-105 | each arm of the `match` runs its handler's outcome on the connection; `DispatchStep` proves every arm a step |
| Server.UpdateOutcome | src/modules/web_client/server.rs:73-86 | an unparsable request is answered 400 "Invalid Request" |
| Server.TalkedRefl | src/modules/web_client/server.rs:88-112 | doing nothing is a valid conversation |
| Server.AskedTalks | src/modules/web_client/server.rs:116-119 | sending an own request and taking the next reply is a valid conversation that writes nothing |
| Server.Answered | src/modules/web_client/server.rs:385-393 | a conversation followed by one serialisable response is a step that runs to the end |
| Server.StepTrans | src/modules/web_client/server.rs:88-112 | a conversation followed by a step is a step |
| Server.GetAudioStep | src/modules/web_client/server.rs:114-171 | `get_audio` is a step: only own requests, replies consumed in order, at most one serialisable response, and only when it finishes |
| Server.RegisterUserStep | src/modules/web_client/server.rs:173-214 | `register_user` is a step |
| Server.DeleteChatStep | src/modules/web_client/server.rs:216-244 | `delete_chat` is a step |
| Server.GetChatsStep | src/modules/web_client/server.rs:268-303 | `get_chats` is a step |
| Server.LoginStep | src/modules/web_client/server.rs:305-347 | `login` is a step |
| Server.NewChatStep | src/modules/web_client/server.rs:349-383 | `new_chat` is a step |
| Server.GetChatStep | src/modules/web_client/server.rs:395-433 | `get_chat` is a step |
| Server.ReloadTalks | src/modules/web_client/server.rs:458-463 | the context reload is a valid conversation that writes nothing |
| Server.ReplyStep | src/modules/web_client/server.rs:464-489 | answering with the completion is a step |
| Server.SendMessageStep | src/modules/web_client/server.rs:435-505 | `send_message` is a step |
| Server.DispatchStep | src/modules/web_client/server.rs:95-104 | whichever handler the route table picks, its run is a step |
| Server.HandleRequestStep | src/modules/web_client/server.rs:88-112 | `handle_request` is a step |
| Server.UpdateKeepsValid | src/modules/web_client/server.rs:73-86 | `update` is a step and keeps the connection valid |
| Server.WebConnection.constructor | src/modules/web_client/server.rs:56-71 | a new connection has sent, written and loaded nothing, and its completion client holds the empty chat id |
| Server.WebConnection.Send | src/modules/web_client/server.rs:116-118 | appends the request to the sent log |
| Server.WebConnection.Receive | src/modules/web_client/server.rs:119 | takes the next reply off the channel, if one will come |
| Server.WebConnection.Write | src/modules/web_client/server.rs:142 | appends the response to the written log |
| Server.WebConnection.GenericError | src/modules/web_client/server.rs:385-393 | writes `ErrorReply(code, reason)` |
| Server.WebConnection.HandleInvalidEndpoint | src/modules/web_client/server.rs:507-509 | writes a 404 |
| Server.WebConnection.Update | src/modules/web_client/server.rs:73-86 | new state and stop as in `UpdateOutcome` |
| Server.WebConnection.HandleRequest | src/modules/web_client/server.rs:88-112 | new state and stop as in `HandleRequestOutcome` |
| Server.WebConnection.HandleCors | src/modules/web_client/server.rs:246-266 | new state and result as in `CorsOutcome` |
| Server.WebConnection.GetAudio | src/modules/web_client/server.rs:114-152 | as in `GetAudioOutcome` |
| Server.WebConnection.GetAudioFile | src/modules/web_client/server.rs:154-171 | as in `GetAudioFileOutcome` |
| Server.WebConnection.RegisterUser | src/modules/web_client/server.rs:173-214 | as in `RegisterUserOutcome` |
| Server.WebConnection.DeleteChat | src/modules/web_client/server.rs:216-244 | as in `DeleteChatOutcome` |
| Server.WebConnection.GetChats | src/modules/web_client/server.rs:268-303 | as in `GetChatsOutcome` |
| Server.WebConnection.Login | src/modules/web_client/server.rs:305-347 | as in `LoginOutcome` |
| Server.WebConnection.NewChat | src/modules/web_client/server.rs:349-383 | as in `NewChatOutcome` |
| Server.WebConnection.GetChat | src/modules/web_client/server.rs:395-433 | as in `GetChatOutcome` |
| Server.WebConnection.SendMessage | src/modules/web_client/server.rs:435-463 | as in `SendMessageOutcome` |
| Server.WebConnection.Reply | src/modules/web_client/server.rs:464-489 | as in `ReplyOutcome` |
| Server.WebConnection.RetrieveMessages | src/modules/web_client/server.rs:511-522 | as in `RetrieveOutcome` |
| Database.MatchCount | src/modules/database/database.rs:67-72 | the number of matching `Users` rows is zero exactly when no row matches |
| Database.MatchCountOne | src/modules/database/database.rs:71 | a count of one means exactly one matching row, in both directions |
| Database.ValidateConnection | src/modules/database/database.rs:67-72 | a login is valid exactly when one `Users` row and no other matches the email and password hash |
| Database.TokenEmails | src/modules/database/database.rs:78-82 | the collected emails are empty exactly when no `Tokens` row has the token |
| Database.TokenEmailsFirst | src/modules/database/database.rs:78-83 | the first collected email belongs to the first row with the token |
| Database.ValidateToken | src/modules/database/database.rs:74-84 | the email of the first `Tokens` row with the token, or failure (the panic of `emails[0]`) exactly when no row has it |
| Database.Register | src/modules/database/database.rs:38-44 | with no id pending, nothing changes; otherwise one id is consumed, mapped to a fresh channel that replaces any earlier entry for it (all other entries unchanged), and exactly that channel's receiver is handed over |
| Database.LoginVerdict | src/modules/database/database.rs:50-54 | a login is answered `Ok` exactly when one `Users` row and no other matches, and `Err` otherwise |
| Database.Supported | src/modules/database/database.rs:48-63 | the requests the `match` serves without panicking: a login from a registered id, or a token validation from a registered id whose token has a row |
| Database.Handle | src/modules/database/database.rs:48-63 | panics exactly for an unregistered requester, an unknown token or any other request kind; a login gets `Ok`/`Err` on its own channel only; a token validation enqueues nothing; senders, handoff and inboxes are untouched |
| Database.Drain | src/modules/database/database.rs:46-65 | registrations, senders and handoff are untouched; unless the thread panics, the inbox ends empty |
| Database.Next | src/modules/database/database.rs:47-48 | one iteration of the `while let`: the first waiting request is taken off the inbox, and the thread panics exactly when that request is not supported |
| Database.Rounds | src/modules/database/database.rs:31-36 | the loop keeps every sender and handed-over receiver pointing at an existing channel and no two ids sharing one; a panic ends it |
| Database.RegisterWellFormed | src/modules/database/database.rs:40-42 | registration keeps every sender and handed-over receiver pointing at an existing channel, and gives the registered id a channel no other id has |
| Database.DrainCrashFree | src/modules/database/database.rs:47-63 | the drain ends without panicking exactly when every waiting request is a login or a token validation from a registered connection, with a known token for the latter |
| Database.DrainAnswersInOrder | src/modules/database/database.rs:47-57 | after a drain without a panic, each channel holds what it held plus the replies to its own connection's logins, in arrival order |
| Database.OwnChannelOwnReplies | src/modules/database/database.rs:49-56 | since no two ids share a channel, what lands on a registered id's channel is exactly the replies to that id's own logins |
| Database.DrainAnswersOwnLogins | src/modules/database/database.rs:47-57 | after a drain without a panic, a registered connection's channel holds what it held plus the replies to its own logins, in arrival order, and nothing for anyone else |
| Database.NextReplies | src/modules/database/database.rs:49-56 | one handled login adds its reply to its own channel, in front of the later replies |
| Database.RoundsHandOffAtMost | src/modules/database/database.rs:31-44 | n rounds extend the handoff queue by at most n receivers |
| Database.CrashIsFinal | src/modules/database/database.rs:31-36 | once the thread has panicked after some rounds, any number of further rounds changes nothing: no id is registered, no receiver handed over, no request answered |
| Database.DbConnection.constructor | src/modules/database/database.rs:17-29 | a new actor has no senders, no channels and an empty handoff queue |
| Database.DbConnection.ReceiveNewConnections | src/modules/database/database.rs:38-44 | the new state is `Register` of the old one |
| Database.DbConnection.HandleMessage | src/modules/database/database.rs:48-63 | the new state is `Handle` of the old one |
| Database.DbConnection.ReceiveMessages | src/modules/database/database.rs:46-65 | the `while let` loop leaves the state `Drain` of the old one |
| Database.DbConnection.Update | src/modules/database/database.rs:31-36 | the loop, run for the given number of rounds or until the thread panics, leaves the state `Rounds` of the old one |

## Left out

- TCP is not modelled. This covers the accept loop of `WebServer::update`, the socket `read`, and the parse by `httparse`. Header values and bodies are taken as already-decoded strings: the decoding by `String::from_utf8_lossy` (src/modules/web_client/http.rs:4 and :31, and in each handler of src/modules/web_client/server.rs) is not modelled, so bytes that are not valid UTF-8, which it would turn into U+FFFD and which would change `ByteLen`, are not covered. `Update` takes the parsed request, or None for a parse failure. Writes to the stream are a log of (response, body) values. The byte encoding by `response_to_bytes` is not part of this model; the written response is the value `response_to_string` would lay out.
- `get_request_body` is not part of this model. A request carries the body it extracts.
- Threads and channels become FIFO sequences with no interleaving.
  - A connection's future replies are a fixed script.
  - The actor's inboxes hold the ids and requests that are already waiting; new arrivals between rounds are not modelled.
  - A `send` to a dropped receiver is modelled as appending to that channel.
- Rust panics end the run: in a handler an `unwrap` on a missing file, a failed synthesis or a failed `std::fs::write`, which return `Panicked`; in the actor an `unwrap` on a missing sender, `emails[0]` on no row and `todo!()`, which set `crashed`, after which the actor takes no further round. A `recv` that never returns is `Blocked`.
- A `recv` whose sending end has been dropped (the actor thread has died) returns an error in Rust, and its `unwrap` panics. The scripted replies cannot express a dropped sender, so the model treats that `recv` like a reply that never comes: `Blocked`, not `Panicked`.
- The `Users` and `Tokens` tables are read-only sequences of rows. SQL, sqlite and any table src/modules/database/database.rs does not query are not modelled. This includes token minting, chat and message storage, and fan-out to other sessions, none of which the `match` in `receive_messages` implements.
- Foreign calls are fields of `Services` and are otherwise uninterpreted: SHA-256 with hex encoding, speech synthesis, the completion service and the `json!` encodings. UUIDs are parameters (`messageId`, `answerId`). The file system is the connection's `files` map, with the set `readOnly` of paths where `std::fs::write` fails.
- src/modules/web_client/client.rs is not part of this model. It lacks `new_message`, `new_audio` and `chat_id`, so:
  - the completion is a `Services` function of the loaded context and the user's message;
  - `load_context` replaces the context;
  - the context changes only on a reload.
- src/modules/env/env.rs is configuration I/O and is not modelled.
- Serialisation derived by serde is not modelled.
- `DatabaseMessage::Message` carries a `Message` of src/modules/web_client/types.rs, an enum of system, user and assistant variants over `GenericMessage`. `get_audio` passes it on as text, so the model's `Message` carries only that text and does not model the enum's variants.
- Server.WebConnection.constructor: the completion client's `chat_id` starts as the empty string. client.rs does not show its initial value. With this choice, a first message to a chat whose id is empty skips the context reload.
- Database.Rounds: `update` loops forever. The model runs a given number of rounds, and nothing is claimed about an unbounded run beyond what holds for every bound.
- Server.ReplyOutcome: the answer's `role` and `content` are modelled as always present. The source unwraps `answer.role` and `answer.content`, fields that the `Message` enum of src/modules/web_client/types.rs does not have.
- Server.LoginOutcome: the handler expects a `UserInfo` reply, but `receive_messages` in src/modules/database/database.rs answers a login with `Ok` or `Err`. With these two files together, every login would therefore get 401. Likewise, the `TokenValidation` arm of `receive_messages` (src/modules/database/database.rs:58-61) computes the email but sends no reply, so with both files together `get_audio`, `get_chats` and `new_chat` would stay blocked at their first `recv`. The two files are separate snapshots, and each is modelled as written.
- Server.ReloadDecisions, Server.ReplyDecisions: these state the context reload and the completion reply as lemmas about `ReloadOutcome` and `ReplyOutcome`. The functions themselves carry only a frame condition.
- Strings.ByteLen: UTF-8 lengths are computed per character from code-point ranges. Surrogate code points, which a Rust `str` cannot hold, are counted as three bytes.
