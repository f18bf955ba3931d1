/**
 One client connection of the relay's web server (`WebConnection`,
 src/modules/web_client/server.rs): routing, validation of paths and bodies,
 the fixed conversation each handler holds with the storage actor, and the HTTP
 response it writes.

 The replies the actor will send on this connection's reply channel are a
 scripted sequence (`replies`); the requests the handler puts on the shared
 request channel are logged in `sent`; the responses written to the TCP stream
 are logged in `written`, as the `httparse::Response` and body that
 `response_to_bytes` serialises.  A `recv` on an exhausted script stands for a
 reply that never comes: the handler stays blocked and writes nothing.
 */
module Server {
  import opened Wrappers
  import opened Strings
  import opened Http
  import opened Protocol

  /**
   A request as `httparse` parsed it.  `body` is what `get_request_body`
   extracts from the raw bytes.
   */
  datatype Request = Request(verb: Option<string>, path: Option<string>, headers: seq<Header>, body: string)

  /**
   The foreign calls a handler makes: SHA-256 with hex encoding of the password,
   speech synthesis (`new_audio`), the completion service (`new_message`, given
   the loaded context and the user's message) and the `json!` encodings.
   */
  datatype Services = Services(
    hash: string -> string,
    synthesize: string -> Option<string>,
    complete: (seq<WebMessage>, WebMessage) -> Option<ChatMessage>,
    userInfoJson: UserInfo -> string,
    messagesJson: seq<WebMessage> -> string,
    webMessageJson: WebMessage -> string)

  /** A response written to the stream: its head and optional body. */
  datatype Written = Written(response: Response, body: Option<string>)

  /** How a handler ended: it ran to the end, waits forever on `recv`, or panicked on an `unwrap`. */
  datatype Stop = Finished | Blocked | Panicked

  /** The handlers the route table dispatches to. */
  datatype Endpoint =
    | GetChatEndpoint | NewChatEndpoint | SendMessageEndpoint | LoginEndpoint
    | GetChatsEndpoint | DeleteChatEndpoint | RegisterEndpoint | GetAudioEndpoint
    | InvalidEndpoint

  // ---------------------------------------------------------------------------
  // Routing and path validation

  /** `format!("{method} {path}")` */
  function RouteKey(verb: string, segment: string): string {
    verb + " " + segment
  }

  /**
   The `match` of `handle_request` on the route key: a key of the route table
   picks that route's handler, any other key the invalid-endpoint handler.
   */
  function Route(key: string): (e: Endpoint)
    ensures forall k :: 0 <= k < |Routes| && key == RouteKey(Routes[k].0, Routes[k].1) ==> e == Routes[k].2
    ensures e == InvalidEndpoint <==> forall k :: 0 <= k < |Routes| ==> key != RouteKey(Routes[k].0, Routes[k].1)
  {
    RouteKeys();
    if key == "GET chat" then GetChatEndpoint
    else if key == "POST new_chat" then NewChatEndpoint
    else if key == "POST new_message" then SendMessageEndpoint
    else if key == "POST login" then LoginEndpoint
    else if key == "GET chats" then GetChatsEndpoint
    else if key == "DELETE delete_chat" then DeleteChatEndpoint
    else if key == "POST register" then RegisterEndpoint
    else if key == "GET audio" then GetAudioEndpoint
    else InvalidEndpoint
  }

  /** The route table's keys, written out. */
  lemma RouteKeys()
    ensures RouteKey(Routes[0].0, Routes[0].1) == "GET chat"
    ensures RouteKey(Routes[1].0, Routes[1].1) == "POST new_chat"
    ensures RouteKey(Routes[2].0, Routes[2].1) == "POST new_message"
    ensures RouteKey(Routes[3].0, Routes[3].1) == "POST login"
    ensures RouteKey(Routes[4].0, Routes[4].1) == "GET chats"
    ensures RouteKey(Routes[5].0, Routes[5].1) == "DELETE delete_chat"
    ensures RouteKey(Routes[6].0, Routes[6].1) == "POST register"
    ensures RouteKey(Routes[7].0, Routes[7].1) == "GET audio"
  {
  }

  /** The routes as (method, first path segment, handler). */
  const Routes: seq<(string, string, Endpoint)> := [
    ("GET", "chat", GetChatEndpoint),
    ("POST", "new_chat", NewChatEndpoint),
    ("POST", "new_message", SendMessageEndpoint),
    ("POST", "login", LoginEndpoint),
    ("GET", "chats", GetChatsEndpoint),
    ("DELETE", "delete_chat", DeleteChatEndpoint),
    ("POST", "register", RegisterEndpoint),
    ("GET", "audio", GetAudioEndpoint)
  ]

  /** The text before the first space of `k`: the method of a route key. */
  function UpToSpace(k: string): string {
    if k == [] || k[0] == ' ' then [] else [k[0]] + UpToSpace(k[1..])
  }

  lemma {:induction false} UpToSpaceOfKey(verb: string, segment: string)
    requires ' ' !in verb
    ensures UpToSpace(RouteKey(verb, segment)) == verb
  {
    if verb != [] {
      assert RouteKey(verb, segment)[1..] == RouteKey(verb[1..], segment);
      UpToSpaceOfKey(verb[1..], segment);
    }
  }

  /** A route key determines the method and the segment, as long as the method holds no space. */
  lemma RouteKeyInjective(m1: string, s1: string, m2: string, s2: string)
    requires ' ' !in m1 && ' ' !in m2
    requires RouteKey(m1, s1) == RouteKey(m2, s2)
    ensures m1 == m2 && s1 == s2
  {
    var k := RouteKey(m1, s1);
    UpToSpaceOfKey(m1, s1);
    UpToSpaceOfKey(m2, s2);
    assert s1 == k[|m1| + 1..];
  }

  /**
   For a method without spaces (an HTTP token), a (method, segment) pair that
   is not in the table is an invalid endpoint.
   */
  lemma OtherPairsInvalid(verb: string, segment: string)
    requires ' ' !in verb
    requires forall k :: 0 <= k < |Routes| ==> (Routes[k].0, Routes[k].1) != (verb, segment)
    ensures Route(RouteKey(verb, segment)) == InvalidEndpoint
  {
    forall k | 0 <= k < |Routes|
      ensures RouteKey(verb, segment) != RouteKey(Routes[k].0, Routes[k].1)
    {
      assert ' ' !in Routes[k].0;
      OtherKey(verb, segment, Routes[k].0, Routes[k].1);
    }
  }

  lemma OtherKey(verb: string, segment: string, m: string, s: string)
    requires ' ' !in verb && ' ' !in m && (verb, segment) != (m, s)
    ensures RouteKey(verb, segment) != RouteKey(m, s)
  {
    if RouteKey(verb, segment) == RouteKey(m, s) {
      RouteKeyInjective(verb, segment, m, s);
    }
  }

  /** `path.split("/").collect::<Vec<_>>().get(i)` */
  function Segment(path: string, i: nat): (r: Option<string>)
    ensures r.None? <==> Count(path, '/') < i
    ensures r.Some? ==> '/' !in r.value
  {
    var parts := Split(path, '/');
    if i < |parts| then Some(parts[i]) else None
  }

  /** A path "/{route}/{id}" yields the chat id `id` as segment 2 and the route as segment 1. */
  lemma ChatPathSegments(route: string, id: string)
    requires '/' !in route && '/' !in id
    ensures Segment("/" + route + "/" + id, 1) == Some(route)
    ensures Segment("/" + route + "/" + id, 2) == Some(id)
  {
    var path := "/" + route + "/" + id;
    SplitNoSeparator(id, '/');
    SplitAfterPiece(route, id, '/');
    assert route + "/" + id == route + ['/'] + id;
    SplitAfterPiece("", route + "/" + id, '/');
    assert path == "" + ['/'] + (route + "/" + id);
    assert Split(path, '/') == ["", route, id];
  }

  /** The `Token` request header. */
  function TokenHeader(request: Request): Option<string> {
    GetHeader(request.headers, "Token")
  }

  // ---------------------------------------------------------------------------
  // Body validation

  datatype Registration = Registration(name: string, email: string, password: string)

  /**
   `register_user`'s checks: the body has exactly three lines (name, email,
   password); the email and password are trimmed; the email must be at least 2
   and the password at least 8 bytes long.  The name is kept as it is.
   */
  function ParseRegistration(body: string): (r: Option<Registration>)
    ensures Count(body, '\n') != 2 ==> r.None?
    ensures r.Some? ==> '\n' !in r.value.name && '\n' !in r.value.email && '\n' !in r.value.password
    ensures r.Some? ==> Trim(r.value.email) == r.value.email && Trim(r.value.password) == r.value.password
    ensures r.Some? ==> ByteLen(r.value.email) >= 2 && ByteLen(r.value.password) >= 8
  {
    var slice := Split(body, '\n');
    if |slice| != 3 then None
    else
      var email := Trim(slice[1]);
      var password := Trim(slice[2]);
      TrimIdempotent(slice[1]);
      TrimIdempotent(slice[2]);
      TrimKeepsAbsent(slice[1], '\n');
      TrimKeepsAbsent(slice[2], '\n');
      if ByteLen(Trim(email)) < 2 || ByteLen(Trim(password)) < 8 then None
      else
        Some(Registration(slice[0], email, password))
  }

  /** The registration body a client writes. */
  function RegistrationBody(r: Registration): string {
    r.name + "\n" + r.email + "\n" + r.password
  }

  /** A registration a client could have sent is accepted and read back field for field. */
  lemma RegistrationRoundTrip(r: Registration)
    requires '\n' !in r.name && '\n' !in r.email && '\n' !in r.password
    requires Trim(r.email) == r.email && Trim(r.password) == r.password
    requires ByteLen(r.email) >= 2 && ByteLen(r.password) >= 8
    ensures ParseRegistration(RegistrationBody(r)) == Some(r)
  {
    RegistrationLines(r);
  }

  /** A registration body splits back into its three fields. */
  lemma RegistrationLines(r: Registration)
    requires '\n' !in r.name && '\n' !in r.email && '\n' !in r.password
    ensures Split(RegistrationBody(r), '\n') == [r.name, r.email, r.password]
  {
    JoinThree(r.name, r.email, r.password, '\n');
    SplitJoin([r.name, r.email, r.password], '\n');
  }

  /**
   How `register_user` reads any body with exactly two line breaks: the name
   is kept as written, the email and password are trimmed, and a trimmed email
   under 2 bytes or a trimmed password under 8 bytes rejects the body.
   */
  lemma ParseRegistrationFields(name: string, email: string, password: string)
    requires '\n' !in name && '\n' !in email && '\n' !in password
    ensures ParseRegistration(RegistrationBody(Registration(name, email, password)))
         == if ByteLen(Trim(email)) >= 2 && ByteLen(Trim(password)) >= 8
            then Some(Registration(name, Trim(email), Trim(password)))
            else None
  {
    RegistrationLines(Registration(name, email, password));
    TrimIdempotent(email);
    TrimIdempotent(password);
  }

  /** Every body with exactly two line breaks is a registration body of its three lines. */
  lemma TwoLineBreaks(body: string)
    requires Count(body, '\n') == 2
    ensures var p := Split(body, '\n'); body == RegistrationBody(Registration(p[0], p[1], p[2]))
  {
    var p := Split(body, '\n');
    JoinSplit(body, '\n');
    JoinThree(p[0], p[1], p[2], '\n');
    assert p == [p[0], p[1], p[2]];
  }

  /** `split("\n").filter(|x| !x.is_empty())` */
  function NonEmpty(parts: seq<string>): (r: seq<string>)
    ensures |r| <= |parts|
    ensures forall i :: 0 <= i < |r| ==> r[i] != [] && r[i] in parts
    ensures (forall i :: 0 <= i < |parts| ==> parts[i] != []) ==> r == parts
    ensures (forall i :: 0 <= i < |parts| ==> parts[i] == []) ==> r == []
  {
    if parts == [] then []
    else if parts[0] == [] then NonEmpty(parts[1..])
    else [parts[0]] + NonEmpty(parts[1..])
  }

  /** The filter works piece by piece: it keeps the non-empty pieces of both halves, in order. */
  lemma {:induction false} NonEmptyAppend(a: seq<string>, b: seq<string>)
    ensures NonEmpty(a + b) == NonEmpty(a) + NonEmpty(b)
  {
    if a == [] {
      assert a + b == b;
    } else {
      assert (a + b)[0] == a[0] && (a + b)[1..] == a[1..] + b;
      NonEmptyAppend(a[1..], b);
      if a[0] != [] {
        assert NonEmpty(a + b) == [a[0]] + (NonEmpty(a[1..]) + NonEmpty(b));
      }
    }
  }

  /**
   `login`'s check: the non-empty lines of the body must be exactly two, the
   email and the password, both returned as written (the password is trimmed
   only when it is hashed).
   */
  function ParseLogin(body: string): (r: Option<(string, string)>)
    ensures r.Some? ==> r.value.0 != [] && r.value.1 != []
    ensures r.Some? ==> '\n' !in r.value.0 && '\n' !in r.value.1
  {
    var slice := NonEmpty(Split(body, '\n'));
    if |slice| != 2 then None else Some((slice[0], slice[1]))
  }

  /**
   How `login` reads any body, given as its lines: it is accepted exactly
   when the non-empty lines are two, and then they are the email and the
   password, in order; blank lines anywhere are skipped.
   */
  lemma ParseLoginLines(lines: seq<string>)
    requires forall i :: 0 <= i < |lines| ==> '\n' !in lines[i]
    ensures ParseLogin(Join(lines, '\n')).Some? <==> |NonEmpty(lines)| == 2
    ensures ParseLogin(Join(lines, '\n')).Some? ==>
      NonEmpty(lines) == [ParseLogin(Join(lines, '\n')).value.0, ParseLogin(Join(lines, '\n')).value.1]
  {
    if lines == [] {
      assert Split("", '\n') == [""];
      assert NonEmpty([""]) == [];
    } else {
      SplitJoin(lines, '\n');
    }
  }

  /** Credentials a client could have sent are accepted and read back. */
  lemma LoginRoundTrip(email: string, password: string)
    requires email != [] && password != []
    requires '\n' !in email && '\n' !in password
    ensures ParseLogin(email + "\n" + password) == Some((email, password))
  {
    SplitJoin([email, password], '\n');
    assert Join([email, password], '\n') == email + "\n" + password;
    assert NonEmpty([email, password]) == [email, password] by {
      assert [email, password][1..] == [password] && [password][1..] == [];
      assert NonEmpty([password]) == [password] + NonEmpty([]);
    }
  }

  lemma {:induction false} SplitTrailingSeparator(s: string, sep: char)
    ensures Split(s + [sep], sep) == Split(s, sep) + [""]
  {
    if s == [] {
      assert Split([sep], sep) == [""] + Split([], sep);
    } else {
      assert (s + [sep])[1..] == s[1..] + [sep];
      SplitTrailingSeparator(s[1..], sep);
    }
  }

  lemma {:induction false} NonEmptyDropsEmpty(parts: seq<string>)
    ensures NonEmpty(parts + [""]) == NonEmpty(parts)
  {
    if parts == [] {
      assert NonEmpty([""]) == NonEmpty([]);
    } else {
      assert (parts + [""])[1..] == parts[1..] + [""];
      NonEmptyDropsEmpty(parts[1..]);
    }
  }

  /** Empty lines do not count: a trailing newline does not change how a login body is read. */
  lemma LoginIgnoresTrailingNewline(body: string)
    ensures ParseLogin(body + "\n") == ParseLogin(body)
  {
    SplitTrailingSeparator(body, '\n');
    NonEmptyDropsEmpty(Split(body, '\n'));
  }

  // ---------------------------------------------------------------------------
  // Responses

  const AllowOrigin := ("Access-Control-Allow-Origin", "*")
  const AllowHeaders := ("Access-Control-Allow-Headers", "*")
  const AllowMethods := ("Access-Control-Allow-Methods", "*")
  const ExposeHeaders := ("Access-Control-Expose-Headers", "*")
  const PlainText := ("Content-Type", "text/plain")
  const JsonType := ("Content-Type", "application/json")

  /** `("Content-Length", body.len().to_string())` */
  function ContentLength(body: string): (string, string) {
    ("Content-Length", Decimal(ByteLen(body)))
  }

  /** The response a handler builds with `new_headers` and `httparse::Response`. */
  function Respond(code: nat, reason: string, pairs: seq<(string, string)>, body: Option<string>): Written {
    Written(Response(Some(code), Some(reason), NewHeaders(pairs)), body)
  }

  /**
   A written response can be serialised (code and reason present) and, when it
   carries a Content-Length header, has a body whose UTF-8 length that header
   states in decimal.
   */
  predicate Sendable(w: Written) {
    && w.response.code.Some? && w.response.reason.Some?
    && match GetHeader(w.response.headers, "Content-Length")
       case None => true
       case Some(v) => w.body.Some? && IsDigits(v) && ParseDecimal(v) == ByteLen(w.body.value)
  }

  /** `generic_error`: only the allow-origin header, no body. */
  function ErrorReply(code: nat, reason: string): (w: Written)
    ensures Sendable(w) && w.body.None?
    ensures w.response.code == Some(code) && w.response.reason == Some(reason)
  {
    Respond(code, reason, [AllowOrigin], None)
  }

  /** The answer to a request `httparse` could not parse: 400, no headers. */
  function InvalidRequestReply(): (w: Written)
    ensures Sendable(w) && w.body.None? && w.response.code == Some(400)
  {
    Written(Response(Some(400), Some("Invalid Request"), []), None)
  }

  /** `handle_cors`: 200 allowing every origin, header and method. */
  function CorsReply(): (w: Written)
    ensures Sendable(w) && w.body.None? && w.response.code == Some(200)
    ensures GetHeader(w.response.headers, "Access-Control-Allow-Origin") == Some("*")
    ensures GetHeader(w.response.headers, "Access-Control-Allow-Headers") == Some("*")
    ensures GetHeader(w.response.headers, "Access-Control-Allow-Methods") == Some("*")
  {
    var pairs := [AllowOrigin, AllowHeaders, AllowMethods];
    GetHeaderOfNewHeaders(pairs, "Access-Control-Allow-Origin", 0);
    GetHeaderOfNewHeaders(pairs, "Access-Control-Allow-Headers", 1);
    GetHeaderOfNewHeaders(pairs, "Access-Control-Allow-Methods", 2);
    Respond(200, "OK", pairs, None)
  }

  /** `get_audio` success: the audio as body, with its length. */
  function AudioReply(data: string): (w: Written)
    ensures Sendable(w) && w.body == Some(data) && w.response.code == Some(200)
    ensures GetHeader(w.response.headers, "Content-Length") == Some(Decimal(ByteLen(data)))
  {
    var pairs := [AllowOrigin, AllowHeaders, ContentLength(data)];
    GetHeaderOfNewHeaders(pairs, "Content-Length", 2);
    DecimalRoundTrip(ByteLen(data));
    Respond(200, "OK", pairs, Some(data))
  }

  /** `register_user` success: the user info as JSON. */
  function RegisteredReply(json: string): (w: Written)
    ensures Sendable(w) && w.body == Some(json) && w.response.code == Some(200)
  {
    Respond(200, "OK", [AllowOrigin, AllowHeaders], Some(json))
  }

  /** `delete_chat` success: no body. */
  function DeletedReply(): (w: Written)
    ensures Sendable(w) && w.body.None? && w.response.code == Some(200)
  {
    Respond(200, "OK", [AllowOrigin, AllowHeaders], None)
  }

  /** `get_chats` success: the chat ids, one per line, as plain text. */
  function ChatsReply(chats: seq<string>): (w: Written)
    ensures Sendable(w) && w.body == Some(Join(chats, '\n')) && w.response.code == Some(200)
    ensures GetHeader(w.response.headers, "Content-Length") == Some(Decimal(ByteLen(Join(chats, '\n'))))
  {
    var body := Join(chats, '\n');
    var pairs := [AllowOrigin, ContentLength(body), PlainText];
    GetHeaderOfNewHeaders(pairs, "Content-Length", 1);
    DecimalRoundTrip(ByteLen(body));
    Respond(200, "OK", pairs, Some(body))
  }

  /** `login` success: the token as a `Cookie: Token=...` header and the user info as JSON. */
  function LoginReply(info: UserInfo, json: string): (w: Written)
    ensures Sendable(w) && w.body == Some(json) && w.response.code == Some(200)
    ensures GetHeader(w.response.headers, "Cookie") == Some("Token=" + info.token)
  {
    var pairs := [AllowOrigin, ExposeHeaders, ("Cookie", "Token=" + info.token)];
    GetHeaderOfNewHeaders(pairs, "Cookie", 2);
    Respond(200, "OK", pairs, Some(json))
  }

  /** `new_chat` success: the new chat's id as plain text. */
  function NewChatReply(id: string): (w: Written)
    ensures Sendable(w) && w.body == Some(id) && w.response.code == Some(200)
  {
    var pairs := [ContentLength(id), PlainText, AllowOrigin];
    GetHeaderOfNewHeaders(pairs, "Content-Length", 0);
    DecimalRoundTrip(ByteLen(id));
    Respond(200, "OK", pairs, Some(id))
  }

  /** `get_chat` and `send_message` success: a JSON body with its length. */
  function JsonReply(json: string): (w: Written)
    ensures Sendable(w) && w.body == Some(json) && w.response.code == Some(200)
  {
    var pairs := [AllowOrigin, JsonType, ContentLength(json)];
    GetHeaderOfNewHeaders(pairs, "Content-Length", 2);
    DecimalRoundTrip(ByteLen(json));
    Respond(200, "OK", pairs, Some(json))
  }

  /** Where a synthesised clip for message `id` is stored: `format!("static/{}", id)`. */
  function AudioFile(id: string): string {
    "static/" + id
  }

  /** A request this connection may put on the shared channel: it names this connection, or none. */
  predicate OwnRequest(m: NetworkMessage, addr: string) {
    m.RecordAudioPath? || m.conn == addr
  }

  // ---------------------------------------------------------------------------
  // The state of a connection and its elementary steps

  /**
   What a `WebConnection` holds and what it has done: the peer address (its id
   with the storage actor), the foreign services, the requests sent to the actor
   (oldest first), the replies the actor has yet to deliver on this
   connection's channel, the responses written to the stream (oldest first),
   `web_client.chat_id` with the context last loaded into the completion
   client, the files on disk that audio paths name, and the paths where
   `std::fs::write` fails.
   */
  datatype Conn = Conn(
    addr: string,
    services: Services,
    sent: seq<NetworkMessage>,
    replies: seq<DatabaseMessage>,
    written: seq<Written>,
    chatId: string,
    context: seq<WebMessage>,
    files: map<string, string>,
    readOnly: set<string>)

  /** `self.sender.send(m)` */
  function Sent(c: Conn, m: NetworkMessage): Conn {
    c.(sent := c.sent + [m])
  }

  /** `self.receiver.recv()`: the next scripted reply, or None when none will come. */
  function Received(c: Conn): (Conn, Option<DatabaseMessage>) {
    if c.replies == [] then (c, None) else (c.(replies := c.replies[1..]), Some(c.replies[0]))
  }

  /** A send followed by a receive. */
  function Asked(c: Conn, m: NetworkMessage): (Conn, Option<DatabaseMessage>) {
    Received(Sent(c, m))
  }

  /** `self.stream.write_all(&response_to_bytes(response, body))` */
  function Wrote(c: Conn, w: Written): Conn {
    c.(written := c.written + [w])
  }

  /** The response written on the way from `c` to `c2`, if any. */
  function Answer(c: Conn, c2: Conn): Option<Written> {
    if |c.written| < |c2.written| then Some(c2.written[|c.written|]) else None
  }

  /**
   From `c` to `c2` the connection kept its identity, only appended requests
   that speak for itself, and consumed replies from the front of the script.
   */
  ghost predicate Talked(c: Conn, c2: Conn) {
    && c2.addr == c.addr && c2.services == c.services
    && c.sent <= c2.sent
    && (forall i :: |c.sent| <= i < |c2.sent| ==> OwnRequest(c2.sent[i], c.addr))
    && |c2.replies| <= |c.replies| && c2.replies == c.replies[|c.replies| - |c2.replies|..]
  }

  /**
   One handler run: `Talked`, and at most one response appended, which can be
   serialised, and only when the handler ran to the end.
   */
  ghost predicate Step(c: Conn, c2: Conn, stop: Stop) {
    && Talked(c, c2)
    && c.written <= c2.written
    && |c2.written| <= |c.written| + (if stop == Finished then 1 else 0)
    && (forall i :: |c.written| <= i < |c2.written| ==> Sendable(c2.written[i]))
  }

  /** The completion state and the files are as they were. */
  ghost predicate Keeps(c: Conn, c2: Conn) {
    c2.chatId == c.chatId && c2.context == c.context && c2.files == c.files
  }

  /** Everything on the stream can be serialised; everything sent speaks for this connection. */
  ghost predicate ConnValid(c: Conn) {
    && (forall i :: 0 <= i < |c.written| ==> Sendable(c.written[i]))
    && (forall i :: 0 <= i < |c.sent| ==> OwnRequest(c.sent[i], c.addr))
  }

  /** A handler run keeps a connection valid. */
  lemma StepKeepsValid(c: Conn, c2: Conn, stop: Stop)
    requires ConnValid(c) && Step(c, c2, stop)
    ensures ConnValid(c2)
  {
    forall i | 0 <= i < |c2.written|
      ensures Sendable(c2.written[i])
    {
      if i < |c.written| {
        assert c2.written[i] == c.written[i];
      }
    }
    forall i | 0 <= i < |c2.sent|
      ensures OwnRequest(c2.sent[i], c2.addr)
    {
      if i < |c.sent| {
        assert c2.sent[i] == c.sent[i];
      }
    }
  }

  /** Two handler conversations in a row are one. */
  lemma TalkedTrans(c: Conn, c1: Conn, c2: Conn)
    requires Talked(c, c1) && Talked(c1, c2)
    ensures Talked(c, c2)
  {
    assert c.sent <= c2.sent by {
      assert c2.sent[..|c.sent|] == c1.sent[..|c1.sent|][..|c.sent|];
    }
    var n, n1 := |c.replies|, |c1.replies|;
    assert c2.replies == c.replies[n - |c2.replies|..] by {
      assert c2.replies == c.replies[n - n1..][n1 - |c2.replies|..];
    }
  }

  // ---------------------------------------------------------------------------
  // The handlers, each as the state change and stop it makes

  /** `handle_cors`: an OPTIONS request gets the CORS answer, and the caller is told it was handled. */
  function CorsOutcome(c: Conn, request: Request): (r: (Conn, bool))
    ensures r.1 <==> request.verb == Some("OPTIONS")
    ensures r.0 == c.(written := c.written + if r.1 then [CorsReply()] else [])
  {
    if request.verb.Some? then
      if request.verb.value != "OPTIONS" then (c, false) else (Wrote(c, CorsReply()), true)
    else
      (c, false)
  }

  /**
   `get_audio_file`: asks for the cached path of message `id`.  A cached path
   is read from disk (a missing file panics) and nothing else is sent; on any
   other reply the message is synthesised (a failure panics), exactly one
   `RecordAudioPath(id, "static/{id}")` is sent and the audio is written to
   that path (a failed write panics, after the path was recorded).  The audio
   returned is what is on disk under the path used.
   */
  function GetAudioFileOutcome(c: Conn, id: string, message: string): (r: (Conn, Stop, string))
    ensures Talked(c, r.0) && r.0.written == c.written
    ensures r.0.chatId == c.chatId && r.0.context == c.context
    ensures c.sent + [GetAudioPath(c.addr, id)] <= r.0.sent
    ensures c.replies == [] ==> r.1 == Blocked && r.0 == Sent(c, GetAudioPath(c.addr, id))
    ensures c.replies != [] ==> r.0.replies == c.replies[1..] && r.1 != Blocked
    ensures c.replies != [] && c.replies[0].AudioPath? ==>
      && r.0.sent == c.sent + [GetAudioPath(c.addr, id)] && r.0.files == c.files
      && (r.1 == Finished <==> c.replies[0].path in c.files)
      && (r.1 == Finished ==> r.2 == c.files[c.replies[0].path])
    ensures c.replies != [] && !c.replies[0].AudioPath? ==>
      var audio := c.services.synthesize(message);
      && (r.1 == Finished <==> audio.Some? && AudioFile(id) !in c.readOnly)
      && (audio.None? ==> r.0.sent == c.sent + [GetAudioPath(c.addr, id)] && r.0.files == c.files)
      && (audio.Some? ==> r.0.sent == c.sent + [GetAudioPath(c.addr, id), RecordAudioPath(id, AudioFile(id))])
      && (r.1 != Finished ==> r.0.files == c.files)
      && (r.1 == Finished ==> r.0.files == c.files[AudioFile(id) := audio.value] && r.2 == audio.value)
  {
    var (c1, reply) := Asked(c, GetAudioPath(c.addr, id));
    if reply.None? then (c1, Blocked, "")
    else if reply.value.AudioPath? then
      if reply.value.path in c1.files then (c1, Finished, c1.files[reply.value.path]) else (c1, Panicked, "")
    else
      var audio := c.services.synthesize(message);
      if audio.None? then (c1, Panicked, "")
      else
        var path := AudioFile(id);
        var c2 := Sent(c1, RecordAudioPath(id, path));
        if path in c2.readOnly then (c2, Panicked, "")
        else (c2.(files := c2.files[path := audio.value]), Finished, audio.value)
  }

  /**
   `get_audio`: without a Token header 400; a non-Email reply to the token
   validation 401; then the message named by the body is fetched, a
   non-Message reply gives 403, and its audio is returned with 200.
   */
  function GetAudioOutcome(c: Conn, request: Request): (r: (Conn, Stop))
    ensures r.0.chatId == c.chatId && r.0.context == c.context
    ensures var token, rs := TokenHeader(request), c.replies;
      && (token.None? ==> r == (Wrote(c, ErrorReply(400, "Bad Request")), Finished))
      && (token.Some? ==>
            var validation := TokenValidation(c.addr, token.value);
            var fetch := GetMessage(c.addr, request.body);
            && c.sent + [validation] <= r.0.sent
            && (rs == [] ==> r == (Sent(c, validation), Blocked))
            && (rs != [] && !rs[0].Email? ==>
                  r == (Wrote(Sent(c, validation).(replies := rs[1..]), ErrorReply(401, "Unauthorized")), Finished))
            && (rs != [] && rs[0].Email? ==>
                  && c.sent + [validation, fetch] <= r.0.sent
                  && (|rs| == 1 ==> r.1 == Blocked && r.0.sent == c.sent + [validation, fetch])
                  && (|rs| >= 2 && !rs[1].Message? ==>
                        r.1 == Finished && r.0.sent == c.sent + [validation, fetch] && r.0.replies == rs[2..]
                        && Answer(c, r.0) == Some(ErrorReply(403, "Forbidden")))))
  {
    var token := TokenHeader(request);
    if token.None? then (Wrote(c, ErrorReply(400, "Bad Request")), Finished)
    else
      var (c1, reply) := Asked(c, TokenValidation(c.addr, token.value));
      if reply.None? then (c1, Blocked)
      else if !reply.value.Email? then (Wrote(c1, ErrorReply(401, "Unauthorized")), Finished)
      else
        var id := request.body;
        var (c2, reply2) := Asked(c1, GetMessage(c.addr, id));
        if reply2.None? then (c2, Blocked)
        else if !reply2.value.Message? then (Wrote(c2, ErrorReply(403, "Forbidden")), Finished)
        else
          var (c3, stop, data) := GetAudioFileOutcome(c2, id, reply2.value.content);
          if stop != Finished then (c3, stop) else (Wrote(c3, AudioReply(data)), Finished)
  }

  /**
   Once the token is valid and the message exists, `get_audio` answers with
   the cached file when the actor knows a path for the message (and panics
   when that file is missing), and otherwise with freshly synthesised audio,
   whose path `static/{id}` is recorded with the actor and which is stored
   there (a failed synthesis panics, and so does a failed write, after the
   path was recorded).
   */
  lemma GetAudioServes(c: Conn, request: Request)
    requires TokenHeader(request).Some?
    requires |c.replies| >= 3 && c.replies[0].Email? && c.replies[1].Message?
    ensures var r, id, rs := GetAudioOutcome(c, request), request.body, c.replies;
      var asked := c.sent + [TokenValidation(c.addr, TokenHeader(request).value), GetMessage(c.addr, id), GetAudioPath(c.addr, id)];
      && r.0.replies == rs[3..]
      && (rs[2].AudioPath? ==>
            && r.0.sent == asked && r.0.files == c.files
            && (rs[2].path in c.files ==> r.1 == Finished && Answer(c, r.0) == Some(AudioReply(c.files[rs[2].path])))
            && (rs[2].path !in c.files ==> r.1 == Panicked && r.0.written == c.written))
      && (!rs[2].AudioPath? ==>
            var audio := c.services.synthesize(rs[1].content);
            && (audio.None? ==> r.1 == Panicked && r.0.written == c.written && r.0.sent == asked)
            && (audio.Some? ==> r.0.sent == asked + [RecordAudioPath(id, AudioFile(id))])
            && (audio.Some? && AudioFile(id) in c.readOnly ==>
                  r.1 == Panicked && r.0.written == c.written && r.0.files == c.files)
            && (audio.Some? && AudioFile(id) !in c.readOnly ==>
                  && r.0.files == c.files[AudioFile(id) := audio.value]
                  && r.1 == Finished && Answer(c, r.0) == Some(AudioReply(audio.value))))
  {
    var id, rs := request.body, c.replies;
    var c1 := Asked(c, TokenValidation(c.addr, TokenHeader(request).value)).0;
    var c2 := Asked(c1, GetMessage(c.addr, id)).0;
    assert c2.replies == rs[2..] && c2.written == c.written;
    var f := GetAudioFileOutcome(c2, id, rs[1].content);
    assert GetAudioOutcome(c, request) == if f.1 != Finished then (f.0, f.1) else (Wrote(f.0, AudioReply(f.2)), Finished);
  }

  /**
   `register_user`: a body that is not a valid registration gets 400 and
   nothing is sent; otherwise `RegisterUser` with the name as written and the
   trimmed email and password is sent, and a `Token` reply gives 200 with the
   user info as JSON, any other reply 401.
   */
  function RegisterUserOutcome(c: Conn, request: Request): (r: (Conn, Stop))
    ensures Keeps(c, r.0)
    ensures var registration, rs := ParseRegistration(request.body), c.replies;
      && (registration.None? ==> r == (Wrote(c, ErrorReply(400, "Bad Request")), Finished))
      && (registration.Some? ==>
            var g := registration.value;
            && r.0.sent == c.sent + [NetworkMessage.RegisterUser(c.addr, g.name, g.email, g.password)]
            && (rs == [] <==> r.1 == Blocked)
            && (rs != [] ==>
                  r.0.replies == rs[1..]
                  && Answer(c, r.0) == Some(
                       if rs[0].Token? then RegisteredReply(c.services.userInfoJson(UserInfo.UserInfo(g.email, g.name, rs[0].token)))
                       else ErrorReply(401, "Unauthorized"))))
  {
    var registration := ParseRegistration(request.body);
    if registration.None? then (Wrote(c, ErrorReply(400, "Bad Request")), Finished)
    else
      var g := registration.value;
      var (c1, reply) := Asked(c, NetworkMessage.RegisterUser(c.addr, g.name, g.email, g.password));
      if reply.None? then (c1, Blocked)
      else if reply.value.Token? then
        (Wrote(c1, RegisteredReply(c.services.userInfoJson(UserInfo.UserInfo(g.email, g.name, reply.value.token)))), Finished)
      else
        (Wrote(c1, ErrorReply(401, "Unauthorized")), Finished)
  }

  /**
   `delete_chat`: without a Token header 400; otherwise, with no token
   validation of its own, `DeleteChat` for the chat id in the body is sent,
   and an `Ok` reply gives 200, any other 404.
   */
  function DeleteChatOutcome(c: Conn, request: Request): (r: (Conn, Stop))
    ensures Keeps(c, r.0)
    ensures var token, rs := TokenHeader(request), c.replies;
      && (token.None? ==> r == (Wrote(c, ErrorReply(400, "Bad Request")), Finished))
      && (token.Some? ==>
            && r.0.sent == c.sent + [NetworkMessage.DeleteChat(c.addr, token.value, request.body)]
            && (rs == [] <==> r.1 == Blocked)
            && (rs != [] ==>
                  r.0.replies == rs[1..]
                  && Answer(c, r.0) == Some(if rs[0].Ok? then DeletedReply() else ErrorReply(404, "Not Found"))))
  {
    var token := TokenHeader(request);
    if token.None? then (Wrote(c, ErrorReply(400, "Bad Request")), Finished)
    else
      var (c1, reply) := Asked(c, NetworkMessage.DeleteChat(c.addr, token.value, request.body));
      if reply.None? then (c1, Blocked)
      else if reply.value.Ok? then (Wrote(c1, DeletedReply()), Finished)
      else (Wrote(c1, ErrorReply(404, "Not Found")), Finished)
  }

  /**
   `get_chats`: without a Token header 400; a non-Email reply to the token
   validation 401; then `GetChats` for that email, and a `Chats` reply gives
   200 with the ids joined by newlines, any other reply 500.
   */
  function GetChatsOutcome(c: Conn, request: Request): (r: (Conn, Stop))
    ensures Keeps(c, r.0)
    ensures var token, rs := TokenHeader(request), c.replies;
      && (token.None? ==> r == (Wrote(c, ErrorReply(400, "Bad Request")), Finished))
      && (token.Some? ==>
            var validation := TokenValidation(c.addr, token.value);
            && (rs == [] ==> r == (Sent(c, validation), Blocked))
            && (rs != [] && !rs[0].Email? ==>
                  r.1 == Finished && r.0.sent == c.sent + [validation] && r.0.replies == rs[1..]
                  && Answer(c, r.0) == Some(ErrorReply(401, "Unauthorized")))
            && (rs != [] && rs[0].Email? ==>
                  && r.0.sent == c.sent + [validation, NetworkMessage.GetChats(c.addr, rs[0].email)]
                  && (|rs| == 1 <==> r.1 == Blocked)
                  && (|rs| >= 2 ==>
                        r.0.replies == rs[2..]
                        && Answer(c, r.0) == Some(
                             if rs[1].Chats? then ChatsReply(rs[1].chats) else ErrorReply(500, "Internal Server Error")))))
  {
    var token := TokenHeader(request);
    if token.None? then (Wrote(c, ErrorReply(400, "Bad Request")), Finished)
    else
      var (c1, reply) := Asked(c, TokenValidation(c.addr, token.value));
      if reply.None? then (c1, Blocked)
      else if !reply.value.Email? then (Wrote(c1, ErrorReply(401, "Unauthorized")), Finished)
      else
        var (c2, reply2) := Asked(c1, NetworkMessage.GetChats(c.addr, reply.value.email));
        if reply2.None? then (c2, Blocked)
        else if reply2.value.Chats? then (Wrote(c2, ChatsReply(reply2.value.chats)), Finished)
        else (Wrote(c2, ErrorReply(500, "Internal Server Error")), Finished)
  }

  /**
   `login`: a body without exactly two non-empty lines gets 400 and nothing is
   sent; otherwise `LoginRequest` with the email as written and the hash of the
   trimmed password is sent, and a `UserInfo` reply gives 200 with the token
   cookie, any other reply 401.
   */
  function LoginOutcome(c: Conn, request: Request): (r: (Conn, Stop))
    ensures Keeps(c, r.0)
    ensures var credentials, rs := ParseLogin(request.body), c.replies;
      && (credentials.None? ==> r == (Wrote(c, ErrorReply(400, "Bad Request")), Finished))
      && (credentials.Some? ==>
            var (email, password) := credentials.value;
            && r.0.sent == c.sent + [LoginRequest(c.addr, email, c.services.hash(Trim(password)))]
            && (rs == [] <==> r.1 == Blocked)
            && (rs != [] ==>
                  r.0.replies == rs[1..]
                  && Answer(c, r.0) == Some(
                       if rs[0].UserInfo? then LoginReply(rs[0].info, c.services.userInfoJson(rs[0].info))
                       else ErrorReply(401, "Unauthorized"))))
  {
    var credentials := ParseLogin(request.body);
    if credentials.None? then (Wrote(c, ErrorReply(400, "Bad Request")), Finished)
    else
      var (email, password) := credentials.value;
      var (c1, reply) := Asked(c, LoginRequest(c.addr, email, c.services.hash(Trim(password))));
      if reply.None? then (c1, Blocked)
      else if reply.value.UserInfo? then
        (Wrote(c1, LoginReply(reply.value.info, c.services.userInfoJson(reply.value.info))), Finished)
      else
        (Wrote(c1, ErrorReply(401, "Unauthorized")), Finished)
  }

  /**
   `new_chat`: without a Token header 400; a non-Email reply to the token
   validation 401; then `NewChat` for that email, and a `Messages` reply gives
   200 with the new chat's id, any other reply 403.
   */
  function NewChatOutcome(c: Conn, request: Request): (r: (Conn, Stop))
    ensures Keeps(c, r.0)
    ensures var token, rs := TokenHeader(request), c.replies;
      && (token.None? ==> r == (Wrote(c, ErrorReply(400, "Bad Request")), Finished))
      && (token.Some? ==>
            var validation := TokenValidation(c.addr, token.value);
            && (rs == [] ==> r == (Sent(c, validation), Blocked))
            && (rs != [] && !rs[0].Email? ==>
                  r.1 == Finished && r.0.sent == c.sent + [validation] && r.0.replies == rs[1..]
                  && Answer(c, r.0) == Some(ErrorReply(401, "Unauthorized")))
            && (rs != [] && rs[0].Email? ==>
                  && r.0.sent == c.sent + [validation, NetworkMessage.NewChat(c.addr, rs[0].email)]
                  && (|rs| == 1 <==> r.1 == Blocked)
                  && (|rs| >= 2 ==>
                        r.0.replies == rs[2..]
                        && Answer(c, r.0) == Some(
                             if rs[1].Messages? then NewChatReply(rs[1].chatId) else ErrorReply(403, "Forbidden")))))
  {
    var token := TokenHeader(request);
    if token.None? then (Wrote(c, ErrorReply(400, "Bad Request")), Finished)
    else
      var (c1, reply) := Asked(c, TokenValidation(c.addr, token.value));
      if reply.None? then (c1, Blocked)
      else if !reply.value.Email? then (Wrote(c1, ErrorReply(401, "Unauthorized")), Finished)
      else
        var (c2, reply2) := Asked(c1, NetworkMessage.NewChat(c.addr, reply.value.email));
        if reply2.None? then (c2, Blocked)
        else if reply2.value.Messages? then (Wrote(c2, NewChatReply(reply2.value.chatId)), Finished)
        else (Wrote(c2, ErrorReply(403, "Forbidden")), Finished)
  }

  /**
   `get_chat`: a path without a chat id (segment 2) gets 400, a request
   without a Token header 401; otherwise `ChatRequest` is sent, and a
   `Messages` reply gives 200 with the messages as JSON, any other 403.
   */
  function GetChatOutcome(c: Conn, request: Request): (r: (Conn, Stop))
    requires request.path.Some?
    ensures Keeps(c, r.0)
    ensures var chat, token, rs := Segment(request.path.value, 2), TokenHeader(request), c.replies;
      && (chat.None? ==> r == (Wrote(c, ErrorReply(400, "Bad Request")), Finished))
      && (chat.Some? && token.None? ==> r == (Wrote(c, ErrorReply(401, "Unauthorized")), Finished))
      && (chat.Some? && token.Some? ==>
            && r.0.sent == c.sent + [ChatRequest(c.addr, token.value, chat.value)]
            && (rs == [] <==> r.1 == Blocked)
            && (rs != [] ==>
                  r.0.replies == rs[1..]
                  && Answer(c, r.0) == Some(
                       if rs[0].Messages? then JsonReply(c.services.messagesJson(rs[0].messages))
                       else ErrorReply(403, "Forbidden"))))
  {
    var chat := Segment(request.path.value, 2);
    if chat.None? then (Wrote(c, ErrorReply(400, "Bad Request")), Finished)
    else
      var token := TokenHeader(request);
      if token.None? then (Wrote(c, ErrorReply(401, "Unauthorized")), Finished)
      else
        var (c1, reply) := Asked(c, ChatRequest(c.addr, token.value, chat.value));
        if reply.None? then (c1, Blocked)
        else if reply.value.Messages? then (Wrote(c1, JsonReply(c.services.messagesJson(reply.value.messages))), Finished)
        else (Wrote(c1, ErrorReply(403, "Forbidden")), Finished)
  }

  /** `retrieve_messages`: a `ChatRequest`, whose `Messages` reply yields the chat's messages. */
  function RetrieveOutcome(c: Conn, token: string, chat: string): (r: (Conn, Stop, Option<seq<WebMessage>>))
    ensures r.0.sent == c.sent + [ChatRequest(c.addr, token, chat)] && r.1 != Panicked
    ensures r.0 == (if c.replies == [] then Sent(c, ChatRequest(c.addr, token, chat)) else Sent(c, ChatRequest(c.addr, token, chat)).(replies := c.replies[1..]))
    ensures r.1 == Blocked <==> c.replies == []
    ensures r.2.Some? <==> c.replies != [] && c.replies[0].Messages?
    ensures r.2.Some? ==> r.2.value == c.replies[0].messages
  {
    var (c1, reply) := Asked(c, ChatRequest(c.addr, token, chat));
    if reply.None? then (c1, Blocked, None)
    else if reply.value.Messages? then (c1, Finished, Some(reply.value.messages))
    else (c1, Finished, None)
  }

  /**
   The reload in `send_message`: when the chat differs from the loaded one its
   messages are fetched, and only if that yields messages are the context and
   `chat_id` replaced.
   */
  function ReloadOutcome(c: Conn, token: string, chat: string): (Conn, Stop)
  {
    if c.chatId == chat then (c, Finished)
    else
      var (c1, stop, messages) := RetrieveOutcome(c, token, chat);
      if stop != Finished then (c1, stop)
      else if messages.Some? then (c1.(context := messages.value, chatId := chat), Finished)
      else (c1, Finished)
  }

  /**
   The reload leaves the completion state alone when the chat is the loaded
   one; otherwise it sends one `ChatRequest`, and the chat becomes the loaded
   one exactly when the reply is `Messages`.
   */
  lemma ReloadDecisions(c: Conn, token: string, chat: string)
    ensures var r := ReloadOutcome(c, token, chat); r.1 != Panicked && r.0.files == c.files && r.0.written == c.written
    ensures c.chatId == chat ==> ReloadOutcome(c, token, chat) == (c, Finished)
    ensures var r := ReloadOutcome(c, token, chat); c.chatId != chat ==>
      && r.0.sent == c.sent + [ChatRequest(c.addr, token, chat)]
      && (r.1 == Blocked <==> c.replies == [])
      && (c.replies == [] ==> r.0.chatId == c.chatId && r.0.context == c.context)
      && (c.replies != [] ==>
            && r.0.replies == c.replies[1..]
            && (c.replies[0].Messages? ==> r.0.chatId == chat && r.0.context == c.replies[0].messages)
            && (!c.replies[0].Messages? ==> r.0.chatId == c.chatId && r.0.context == c.context))
  {
  }

  /**
   The rest of `send_message` once the user's message is stored at
   `timestamp`: reload the chat if needed; an absent completion of the user's
   message in the loaded context gives 502; a present one is stored with a
   second `NewMessage` under `answerId` and returned as JSON.
   */
  function ReplyOutcome(c: Conn, token: string, chat: string, content: string, timestamp: nat, answerId: string): (r: (Conn, Stop))
    ensures r.0.files == c.files
  {
    var (c1, stop) := ReloadOutcome(c, token, chat);
    if stop != Finished then (c1, stop)
    else
      var answer := c.services.complete(c1.context, WebMessage(ChatMessage("user", content), timestamp, ""));
      if answer.None? then (Wrote(c1, ErrorReply(502, "Bad Gateway")), Finished)
      else
        var (c2, reply) := Asked(c1, NewMessage(c.addr, token, answer.value.role, chat, answer.value.content, answerId));
        if reply.None? then (c2, Blocked)
        else (Wrote(c2, JsonReply(c.services.webMessageJson(WebMessage(answer.value, timestamp, answerId)))), Finished)
  }

  /**
   What `ReplyOutcome` does: after the reload, an absent completion gives 502
   and nothing more is sent; a present one is stored under `answerId`, with
   the role and content the completion gave, and returned as JSON.
   */
  lemma ReplyDecisions(c: Conn, token: string, chat: string, content: string, timestamp: nat, answerId: string)
    ensures var r, (c1, stop) := ReplyOutcome(c, token, chat, content, timestamp, answerId), ReloadOutcome(c, token, chat);
      var answer := c.services.complete(c1.context, WebMessage(ChatMessage("user", content), timestamp, ""));
      && r.0.chatId == c1.chatId && r.0.context == c1.context
      && (stop != Finished ==> r == (c1, stop))
      && (stop == Finished && answer.None? ==> r == (Wrote(c1, ErrorReply(502, "Bad Gateway")), Finished))
      && (stop == Finished && answer.Some? ==>
            && r.0.sent == c1.sent + [NewMessage(c.addr, token, answer.value.role, chat, answer.value.content, answerId)]
            && (r.1 == Blocked <==> c1.replies == [])
            && (c1.replies != [] ==>
                  r.0.replies == c1.replies[1..]
                  && Answer(c1, r.0) == Some(JsonReply(c.services.webMessageJson(WebMessage(answer.value, timestamp, answerId))))))
  {
  }

  /**
   `send_message`: a path without a chat id gets 400, a request without a
   Token header 401, and a whitespace-only message 400, all before anything
   is sent.  Otherwise the user's message is stored as `NewMessage` with sender
   "user"; a non-Timestamp reply gives 403, and a timestamp goes on to
   `ReplyOutcome`.
   */
  function SendMessageOutcome(c: Conn, request: Request, messageId: string, answerId: string): (r: (Conn, Stop))
    requires request.path.Some?
    ensures r.0.files == c.files
    ensures var chat, token, rs := Segment(request.path.value, 2), TokenHeader(request), c.replies;
      && (chat.None? ==> r == (Wrote(c, ErrorReply(400, "Bad Request")), Finished))
      && (chat.Some? && token.None? ==> r == (Wrote(c, ErrorReply(401, "Unauthorized")), Finished))
      && (chat.Some? && token.Some? && AllWhitespace(request.body) ==>
            r == (Wrote(c, ErrorReply(400, "Bad Request")), Finished))
      && (chat.Some? && token.Some? && !AllWhitespace(request.body) ==>
            var first := NewMessage(c.addr, token.value, "user", chat.value, request.body, messageId);
            var c1 := Sent(c, first).(replies := if rs == [] then [] else rs[1..]);
            && (rs == [] ==> r == (c1, Blocked))
            && (rs != [] && !rs[0].Timestamp? ==> r == (Wrote(c1, ErrorReply(403, "Forbidden")), Finished))
            && (rs != [] && rs[0].Timestamp? ==>
                  r == ReplyOutcome(c1, token.value, chat.value, request.body, rs[0].timestamp, answerId)))
  {
    var chat := Segment(request.path.value, 2);
    if chat.None? then (Wrote(c, ErrorReply(400, "Bad Request")), Finished)
    else
      var token := TokenHeader(request);
      if token.None? then (Wrote(c, ErrorReply(401, "Unauthorized")), Finished)
      else
        var content := request.body;
        if ByteLen(Trim(content)) < 1 then (Wrote(c, ErrorReply(400, "Bad Request")), Finished)
        else
          var (c1, reply) := Asked(c, NewMessage(c.addr, token.value, "user", chat.value, content, messageId));
          if reply.None? then (c1, Blocked)
          else if !reply.value.Timestamp? then (Wrote(c1, ErrorReply(403, "Forbidden")), Finished)
          else ReplyOutcome(c1, token.value, chat.value, content, reply.value.timestamp, answerId)
  }

  /**
   `handle_request`: nothing without a method; an OPTIONS request gets the
   CORS answer and no handler runs; otherwise, with a path, the route key
   "{method} {segment 1}" picks a handler, a path without segment 1 gets 400,
   and an unknown key 404.
   */
  function HandleRequestOutcome(c: Conn, request: Request, messageId: string, answerId: string): (r: (Conn, Stop))
    ensures request.verb.None? ==> r == (c, Finished)
    ensures request.verb == Some("OPTIONS") ==> r == (Wrote(c, CorsReply()), Finished)
    ensures request.verb.Some? && request.verb != Some("OPTIONS") ==>
      var path := request.path;
      && (path.None? ==> r == (c, Finished))
      && (path.Some? && Segment(path.value, 1).None? ==> r == (Wrote(c, ErrorReply(400, "Bad Request")), Finished))
      && (path.Some? && Segment(path.value, 1).Some? ==>
            r == Dispatch(Route(RouteKey(request.verb.value, Segment(path.value, 1).value)), c, request, messageId, answerId))
      && (path.Some? && Segment(path.value, 1).Some?
          && Route(RouteKey(request.verb.value, Segment(path.value, 1).value)) == InvalidEndpoint ==>
            r == (Wrote(c, ErrorReply(404, "Not Found")), Finished))
  {
    if request.verb.None? then (c, Finished)
    else
      var (c1, handled) := CorsOutcome(c, request);
      if handled then (c1, Finished)
      else if request.path.None? then (c1, Finished)
      else
        var segment := Segment(request.path.value, 1);
        if segment.None? then (Wrote(c1, ErrorReply(400, "Bad Request")), Finished)
        else
          Dispatch(Route(RouteKey(request.verb.value, segment.value)), c1, request, messageId, answerId)
  }

  /** The handler an endpoint names, run on `c`. */
  function Dispatch(e: Endpoint, c: Conn, request: Request, messageId: string, answerId: string): (Conn, Stop)
    requires request.path.Some?
  {
    match e
    case GetChatEndpoint => GetChatOutcome(c, request)
    case NewChatEndpoint => NewChatOutcome(c, request)
    case SendMessageEndpoint => SendMessageOutcome(c, request, messageId, answerId)
    case LoginEndpoint => LoginOutcome(c, request)
    case GetChatsEndpoint => GetChatsOutcome(c, request)
    case DeleteChatEndpoint => DeleteChatOutcome(c, request)
    case RegisterEndpoint => RegisterUserOutcome(c, request)
    case GetAudioEndpoint => GetAudioOutcome(c, request)
    case InvalidEndpoint => (Wrote(c, ErrorReply(404, "Not Found")), Finished)
  }

  /** `update`, given what `httparse` made of the bytes read: a request that does not parse gets 400. */
  function UpdateOutcome(c: Conn, parsed: Option<Request>, messageId: string, answerId: string): (r: (Conn, Stop))
    ensures parsed.None? ==> r == (Wrote(c, InvalidRequestReply()), Finished)
  {
    if parsed.None? then (Wrote(c, InvalidRequestReply()), Finished)
    else HandleRequestOutcome(c, parsed.value, messageId, answerId)
  }

  // ---------------------------------------------------------------------------
  // Every handler run is a `Step`

  lemma TalkedRefl(c: Conn)
    ensures Talked(c, c)
  {
    assert c.replies == c.replies[0..];
  }

  /** Sending a request of this connection's own is talk. */
  lemma SentTalks(c: Conn, m: NetworkMessage)
    requires OwnRequest(m, c.addr)
    ensures Talked(c, Sent(c, m))
  {
    var c2 := Sent(c, m);
    assert c2.sent[..|c.sent|] == c.sent;
    assert c2.replies == c.replies[|c.replies| - |c2.replies|..];
    forall i | |c.sent| <= i < |c2.sent|
      ensures OwnRequest(c2.sent[i], c.addr)
    {
      assert c2.sent[i] == m;
    }
  }

  /** Taking the next reply off the channel is talk. */
  lemma ReceivedTalks(c: Conn)
    ensures Talked(c, Received(c).0)
  {
    var c2 := Received(c).0;
    assert c2.sent == c.sent;
    if c.replies != [] {
      assert c2.replies == c.replies[|c.replies| - |c2.replies|..];
    } else {
      assert c2.replies == c.replies[|c.replies|..];
    }
  }

  /** A round trip with the actor, for a request of this connection's own, is talk and writes nothing. */
  lemma AskedTalks(c: Conn, m: NetworkMessage)
    requires OwnRequest(m, c.addr)
    ensures var c2 := Asked(c, m).0; Talked(c, c2) && c2.written == c.written
  {
    SentTalks(c, m);
    ReceivedTalks(Sent(c, m));
    TalkedTrans(c, Sent(c, m), Asked(c, m).0);
  }

  /** After talk alone, stopping is a `Step`, and so is writing one serialisable response and finishing. */
  lemma Answered(c: Conn, c1: Conn, w: Written, stop: Stop)
    requires Talked(c, c1) && c1.written == c.written
    ensures Step(c, c1, stop)
    ensures Sendable(w) ==> Step(c, Wrote(c1, w), Finished)
  {
    assert Wrote(c1, w).written == c.written + [w];
  }

  /** Talk followed by a `Step` is a `Step`. */
  lemma StepTrans(c: Conn, c1: Conn, c2: Conn, stop: Stop)
    requires Talked(c, c1) && c1.written == c.written && Step(c1, c2, stop)
    ensures Step(c, c2, stop)
  {
    TalkedTrans(c, c1, c2);
  }

  lemma {:induction false} GetAudioStep(c: Conn, request: Request)
    ensures var r := GetAudioOutcome(c, request); Step(c, r.0, r.1)
  {
    TalkedRefl(c);
    var token := TokenHeader(request);
    if token.None? {
      Answered(c, c, ErrorReply(400, "Bad Request"), Finished);
      return;
    }
    var validation := TokenValidation(c.addr, token.value);
    var (c1, reply) := Asked(c, validation);
    AskedTalks(c, validation);
    Answered(c, c1, ErrorReply(401, "Unauthorized"), Blocked);
    if reply.None? || !reply.value.Email? {
      return;
    }
    var fetch := GetMessage(c.addr, request.body);
    var (c2, reply2) := Asked(c1, fetch);
    AskedTalks(c1, fetch);
    TalkedTrans(c, c1, c2);
    Answered(c, c2, ErrorReply(403, "Forbidden"), Blocked);
    if reply2.None? || !reply2.value.Message? {
      return;
    }
    var (c3, stop, data) := GetAudioFileOutcome(c2, request.body, reply2.value.content);
    TalkedTrans(c, c2, c3);
    Answered(c, c3, AudioReply(data), stop);
  }

  lemma {:induction false} RegisterUserStep(c: Conn, request: Request)
    ensures var r := RegisterUserOutcome(c, request); Step(c, r.0, r.1)
  {
    TalkedRefl(c);
    var registration := ParseRegistration(request.body);
    if registration.None? {
      Answered(c, c, ErrorReply(400, "Bad Request"), Finished);
      return;
    }
    var g := registration.value;
    var m := NetworkMessage.RegisterUser(c.addr, g.name, g.email, g.password);
    var (c1, reply) := Asked(c, m);
    AskedTalks(c, m);
    Answered(c, c1, ErrorReply(401, "Unauthorized"), Blocked);
    if reply.Some? && reply.value.Token? {
      Answered(c, c1, RegisteredReply(c.services.userInfoJson(UserInfo.UserInfo(g.email, g.name, reply.value.token))), Blocked);
    }
  }

  lemma {:induction false} DeleteChatStep(c: Conn, request: Request)
    ensures var r := DeleteChatOutcome(c, request); Step(c, r.0, r.1)
  {
    TalkedRefl(c);
    var token := TokenHeader(request);
    if token.None? {
      Answered(c, c, ErrorReply(400, "Bad Request"), Finished);
      return;
    }
    var m := NetworkMessage.DeleteChat(c.addr, token.value, request.body);
    var (c1, reply) := Asked(c, m);
    AskedTalks(c, m);
    Answered(c, c1, DeletedReply(), Blocked);
    Answered(c, c1, ErrorReply(404, "Not Found"), Blocked);
  }

  lemma {:induction false} GetChatsStep(c: Conn, request: Request)
    ensures var r := GetChatsOutcome(c, request); Step(c, r.0, r.1)
  {
    TalkedRefl(c);
    var token := TokenHeader(request);
    if token.None? {
      Answered(c, c, ErrorReply(400, "Bad Request"), Finished);
      return;
    }
    var validation := TokenValidation(c.addr, token.value);
    var (c1, reply) := Asked(c, validation);
    AskedTalks(c, validation);
    Answered(c, c1, ErrorReply(401, "Unauthorized"), Blocked);
    if reply.None? || !reply.value.Email? {
      return;
    }
    var m := NetworkMessage.GetChats(c.addr, reply.value.email);
    var (c2, reply2) := Asked(c1, m);
    AskedTalks(c1, m);
    TalkedTrans(c, c1, c2);
    Answered(c, c2, ErrorReply(500, "Internal Server Error"), Blocked);
    if reply2.Some? && reply2.value.Chats? {
      Answered(c, c2, ChatsReply(reply2.value.chats), Blocked);
    }
  }

  lemma {:induction false} LoginStep(c: Conn, request: Request)
    ensures var r := LoginOutcome(c, request); Step(c, r.0, r.1)
  {
    TalkedRefl(c);
    var credentials := ParseLogin(request.body);
    if credentials.None? {
      Answered(c, c, ErrorReply(400, "Bad Request"), Finished);
      return;
    }
    var (email, password) := credentials.value;
    var m := LoginRequest(c.addr, email, c.services.hash(Trim(password)));
    var (c1, reply) := Asked(c, m);
    AskedTalks(c, m);
    Answered(c, c1, ErrorReply(401, "Unauthorized"), Blocked);
    if reply.Some? && reply.value.UserInfo? {
      Answered(c, c1, LoginReply(reply.value.info, c.services.userInfoJson(reply.value.info)), Blocked);
    }
  }

  lemma {:induction false} NewChatStep(c: Conn, request: Request)
    ensures var r := NewChatOutcome(c, request); Step(c, r.0, r.1)
  {
    TalkedRefl(c);
    var token := TokenHeader(request);
    if token.None? {
      Answered(c, c, ErrorReply(400, "Bad Request"), Finished);
      return;
    }
    var validation := TokenValidation(c.addr, token.value);
    var (c1, reply) := Asked(c, validation);
    AskedTalks(c, validation);
    Answered(c, c1, ErrorReply(401, "Unauthorized"), Blocked);
    if reply.None? || !reply.value.Email? {
      return;
    }
    var m := NetworkMessage.NewChat(c.addr, reply.value.email);
    var (c2, reply2) := Asked(c1, m);
    AskedTalks(c1, m);
    TalkedTrans(c, c1, c2);
    Answered(c, c2, ErrorReply(403, "Forbidden"), Blocked);
    if reply2.Some? && reply2.value.Messages? {
      Answered(c, c2, NewChatReply(reply2.value.chatId), Blocked);
    }
  }

  lemma {:induction false} GetChatStep(c: Conn, request: Request)
    requires request.path.Some?
    ensures var r := GetChatOutcome(c, request); Step(c, r.0, r.1)
  {
    TalkedRefl(c);
    var chat := Segment(request.path.value, 2);
    var token := TokenHeader(request);
    Answered(c, c, ErrorReply(400, "Bad Request"), Finished);
    Answered(c, c, ErrorReply(401, "Unauthorized"), Finished);
    if chat.None? || token.None? {
      return;
    }
    var m := ChatRequest(c.addr, token.value, chat.value);
    var (c1, reply) := Asked(c, m);
    AskedTalks(c, m);
    Answered(c, c1, ErrorReply(403, "Forbidden"), Blocked);
    if reply.Some? && reply.value.Messages? {
      Answered(c, c1, JsonReply(c.services.messagesJson(reply.value.messages)), Blocked);
    }
  }

  lemma ReloadTalks(c: Conn, token: string, chat: string)
    ensures var r := ReloadOutcome(c, token, chat); Talked(c, r.0) && r.0.written == c.written
  {
    TalkedRefl(c);
    if c.chatId != chat {
      AskedTalks(c, ChatRequest(c.addr, token, chat));
    }
  }

  lemma {:induction false} ReplyStep(c: Conn, token: string, chat: string, content: string, timestamp: nat, answerId: string)
    ensures var r := ReplyOutcome(c, token, chat, content, timestamp, answerId); Step(c, r.0, r.1)
  {
    var (c1, stop) := ReloadOutcome(c, token, chat);
    ReloadTalks(c, token, chat);
    Answered(c, c1, ErrorReply(502, "Bad Gateway"), stop);
    var answer := c.services.complete(c1.context, WebMessage(ChatMessage("user", content), timestamp, ""));
    if stop != Finished || answer.None? {
      return;
    }
    var second := NewMessage(c.addr, token, answer.value.role, chat, answer.value.content, answerId);
    var (c2, reply) := Asked(c1, second);
    AskedTalks(c1, second);
    TalkedTrans(c, c1, c2);
    Answered(c, c2, JsonReply(c.services.webMessageJson(WebMessage(answer.value, timestamp, answerId))), Blocked);
  }

  lemma {:induction false} SendMessageStep(c: Conn, request: Request, messageId: string, answerId: string)
    requires request.path.Some?
    ensures var r := SendMessageOutcome(c, request, messageId, answerId); Step(c, r.0, r.1)
  {
    TalkedRefl(c);
    var chat := Segment(request.path.value, 2);
    var token := TokenHeader(request);
    Answered(c, c, ErrorReply(400, "Bad Request"), Finished);
    Answered(c, c, ErrorReply(401, "Unauthorized"), Finished);
    if chat.None? || token.None? || ByteLen(Trim(request.body)) < 1 {
      return;
    }
    var first := NewMessage(c.addr, token.value, "user", chat.value, request.body, messageId);
    var (c1, reply) := Asked(c, first);
    AskedTalks(c, first);
    Answered(c, c1, ErrorReply(403, "Forbidden"), Blocked);
    if reply.None? || !reply.value.Timestamp? {
      return;
    }
    var r := ReplyOutcome(c1, token.value, chat.value, request.body, reply.value.timestamp, answerId);
    ReplyStep(c1, token.value, chat.value, request.body, reply.value.timestamp, answerId);
    StepTrans(c, c1, r.0, r.1);
  }

  /** Whatever the request, `handle_request` is a `Step`: at most one serialisable response, only own requests. */
  lemma {:induction false} HandleRequestStep(c: Conn, request: Request, messageId: string, answerId: string)
    ensures var r := HandleRequestOutcome(c, request, messageId, answerId); Step(c, r.0, r.1)
  {
    TalkedRefl(c);
    Answered(c, c, CorsReply(), Finished);
    Answered(c, c, ErrorReply(400, "Bad Request"), Finished);
    if request.verb.None? || request.verb == Some("OPTIONS") || request.path.None? {
      return;
    }
    assert CorsOutcome(c, request).0 == c;
    var segment := Segment(request.path.value, 1);
    if segment.None? {
      return;
    }
    DispatchStep(Route(RouteKey(request.verb.value, segment.value)), c, request, messageId, answerId);
  }

  lemma {:induction false} DispatchStep(e: Endpoint, c: Conn, request: Request, messageId: string, answerId: string)
    requires request.path.Some?
    ensures var r := Dispatch(e, c, request, messageId, answerId); Step(c, r.0, r.1)
  {
    match e
    case GetChatEndpoint => GetChatStep(c, request);
    case NewChatEndpoint => NewChatStep(c, request);
    case SendMessageEndpoint => SendMessageStep(c, request, messageId, answerId);
    case LoginEndpoint => LoginStep(c, request);
    case GetChatsEndpoint => GetChatsStep(c, request);
    case DeleteChatEndpoint => DeleteChatStep(c, request);
    case RegisterEndpoint => RegisterUserStep(c, request);
    case GetAudioEndpoint => GetAudioStep(c, request);
    case InvalidEndpoint =>
      TalkedRefl(c);
      Answered(c, c, ErrorReply(404, "Not Found"), Finished);
  }

  /**
   `update` is a `Step`, so a connection that only ever wrote serialisable
   responses and sent its own requests still has only done so afterwards.
   */
  lemma UpdateKeepsValid(c: Conn, parsed: Option<Request>, messageId: string, answerId: string)
    ensures var r := UpdateOutcome(c, parsed, messageId, answerId); Step(c, r.0, r.1)
    ensures ConnValid(c) ==> ConnValid(UpdateOutcome(c, parsed, messageId, answerId).0)
  {
    var r := UpdateOutcome(c, parsed, messageId, answerId);
    if parsed.None? {
      TalkedRefl(c);
      Answered(c, c, InvalidRequestReply(), Finished);
    } else {
      HandleRequestStep(c, parsed.value, messageId, answerId);
    }
    if ConnValid(c) {
      StepKeepsValid(c, r.0, r.1);
    }
  }

  // ---------------------------------------------------------------------------
  // The connection

  class WebConnection {
    /** The peer address, used as this connection's id with the storage actor. */
    const addr: string
    const services: Services
    /** Requests sent to the storage actor, oldest first. */
    var sent: seq<NetworkMessage>
    /** Replies the storage actor has yet to deliver on this connection's channel. */
    var replies: seq<DatabaseMessage>
    /** Responses written to the TCP stream, oldest first. */
    var written: seq<Written>
    /** `web_client.chat_id`: the chat whose context the completion client holds. */
    var chatId: string
    /** The context last loaded into the completion client. */
    var context: seq<WebMessage>
    /** The files on disk that audio paths name. */
    var files: map<string, string>
    /** The paths where `std::fs::write` fails. */
    const readOnly: set<string>

    function State(): Conn
      reads this
    {
      Conn(addr, services, sent, replies, written, chatId, context, files, readOnly)
    }

    constructor (addr: string, services: Services, replies: seq<DatabaseMessage>, files: map<string, string>, readOnly: set<string>)
      ensures State() == Conn(addr, services, [], replies, [], "", [], files, readOnly)
      ensures ConnValid(State())
    {
      this.addr := addr;
      this.services := services;
      this.replies := replies;
      this.files := files;
      this.readOnly := readOnly;
      sent := [];
      written := [];
      chatId := "";
      context := [];
    }

    /** `self.sender.send(m)` */
    method Send(m: NetworkMessage)
      modifies this
      ensures State() == Sent(old(State()), m)
    {
      sent := sent + [m];
    }

    /** `self.receiver.recv()` */
    method Receive() returns (reply: Option<DatabaseMessage>)
      modifies this
      ensures (State(), reply) == Received(old(State()))
    {
      if replies == [] {
        reply := None;
      } else {
        reply := Some(replies[0]);
        replies := replies[1..];
      }
    }

    /** `self.stream.write_all(&response_to_bytes(response, body))` */
    method Write(w: Written)
      modifies this
      ensures State() == Wrote(old(State()), w)
    {
      written := written + [w];
    }

    /** `generic_error` */
    method GenericError(code: nat, reason: string)
      modifies this
      ensures State() == Wrote(old(State()), ErrorReply(code, reason))
    {
      Write(ErrorReply(code, reason));
    }

    /** `handle_invalid_endpoint` */
    method HandleInvalidEndpoint()
      modifies this
      ensures State() == Wrote(old(State()), ErrorReply(404, "Not Found"))
    {
      GenericError(404, "Not Found");
    }

    method Update(parsed: Option<Request>, messageId: string, answerId: string) returns (stop: Stop)
      modifies this
      ensures (State(), stop) == UpdateOutcome(old(State()), parsed, messageId, answerId)
    {
      if parsed.None? {
        Write(InvalidRequestReply());
        return Finished;
      }
      stop := HandleRequest(parsed.value, messageId, answerId);
    }

    method HandleRequest(request: Request, messageId: string, answerId: string) returns (stop: Stop)
      modifies this
      ensures (State(), stop) == HandleRequestOutcome(old(State()), request, messageId, answerId)
    {
      stop := Finished;
      if request.verb.None? {
        return;
      }
      var cors := HandleCors(request);
      if cors {
        return;
      }
      if request.path.None? {
        return;
      }
      var segment := Segment(request.path.value, 1);
      if segment.None? {
        GenericError(400, "Bad Request");
        return;
      }
      match Route(RouteKey(request.verb.value, segment.value))
      case GetChatEndpoint => stop := GetChat(request);
      case NewChatEndpoint => stop := NewChat(request);
      case SendMessageEndpoint => stop := SendMessage(request, messageId, answerId);
      case LoginEndpoint => stop := Login(request);
      case GetChatsEndpoint => stop := GetChats(request);
      case DeleteChatEndpoint => stop := DeleteChat(request);
      case RegisterEndpoint => stop := RegisterUser(request);
      case GetAudioEndpoint => stop := GetAudio(request);
      case InvalidEndpoint => HandleInvalidEndpoint();
    }

    method HandleCors(request: Request) returns (handled: bool)
      modifies this
      ensures (State(), handled) == CorsOutcome(old(State()), request)
    {
      if request.verb.Some? {
        if request.verb.value != "OPTIONS" {
          return false;
        }
        Write(CorsReply());
        return true;
      }
      return false;
    }

    method GetAudio(request: Request) returns (stop: Stop)
      modifies this
      ensures (State(), stop) == GetAudioOutcome(old(State()), request)
    {
      var token := GetHeader(request.headers, "Token");
      if token.None? {
        GenericError(400, "Bad Request");
        return Finished;
      }
      Send(TokenValidation(addr, token.value));
      var response := Receive();
      if response.None? {
        return Blocked;
      }
      if !response.value.Email? {
        GenericError(401, "Unauthorized");
        return Finished;
      }
      var id := request.body;
      Send(GetMessage(addr, id));
      response := Receive();
      if response.None? {
        return Blocked;
      }
      if !response.value.Message? {
        GenericError(403, "Forbidden");
        return Finished;
      }
      var data;
      stop, data := GetAudioFile(id, response.value.content);
      if stop != Finished {
        return;
      }
      Write(AudioReply(data));
    }

    method GetAudioFile(id: string, message: string) returns (stop: Stop, data: string)
      modifies this
      ensures (State(), stop, data) == GetAudioFileOutcome(old(State()), id, message)
    {
      Send(GetAudioPath(addr, id));
      var response := Receive();
      if response.None? {
        return Blocked, "";
      }
      if response.value.AudioPath? {
        var path := response.value.path;
        if path !in files {
          return Panicked, "";
        }
        return Finished, files[path];
      }
      var audio := services.synthesize(message);
      if audio.None? {
        return Panicked, "";
      }
      var path := AudioFile(id);
      Send(RecordAudioPath(id, path));
      if path in readOnly {
        return Panicked, "";
      }
      files := files[path := audio.value];
      return Finished, audio.value;
    }

    method RegisterUser(request: Request) returns (stop: Stop)
      modifies this
      ensures (State(), stop) == RegisterUserOutcome(old(State()), request)
    {
      var registration := ParseRegistration(request.body);
      if registration.None? {
        GenericError(400, "Bad Request");
        return Finished;
      }
      var g := registration.value;
      Send(NetworkMessage.RegisterUser(addr, g.name, g.email, g.password));
      var response := Receive();
      if response.None? {
        return Blocked;
      }
      if response.value.Token? {
        Write(RegisteredReply(services.userInfoJson(UserInfo.UserInfo(g.email, g.name, response.value.token))));
      } else {
        GenericError(401, "Unauthorized");
      }
      return Finished;
    }

    method DeleteChat(request: Request) returns (stop: Stop)
      modifies this
      ensures (State(), stop) == DeleteChatOutcome(old(State()), request)
    {
      var token := GetHeader(request.headers, "Token");
      if token.None? {
        GenericError(400, "Bad Request");
        return Finished;
      }
      Send(NetworkMessage.DeleteChat(addr, token.value, request.body));
      var response := Receive();
      if response.None? {
        return Blocked;
      }
      if response.value.Ok? {
        Write(DeletedReply());
      } else {
        GenericError(404, "Not Found");
      }
      return Finished;
    }

    method GetChats(request: Request) returns (stop: Stop)
      modifies this
      ensures (State(), stop) == GetChatsOutcome(old(State()), request)
    {
      var token := GetHeader(request.headers, "Token");
      if token.None? {
        GenericError(400, "Bad Request");
        return Finished;
      }
      Send(TokenValidation(addr, token.value));
      var response := Receive();
      if response.None? {
        return Blocked;
      }
      if !response.value.Email? {
        GenericError(401, "Unauthorized");
        return Finished;
      }
      Send(NetworkMessage.GetChats(addr, response.value.email));
      response := Receive();
      if response.None? {
        return Blocked;
      }
      if response.value.Chats? {
        Write(ChatsReply(response.value.chats));
      } else {
        GenericError(500, "Internal Server Error");
      }
      return Finished;
    }

    method Login(request: Request) returns (stop: Stop)
      modifies this
      ensures (State(), stop) == LoginOutcome(old(State()), request)
    {
      var credentials := ParseLogin(request.body);
      if credentials.None? {
        GenericError(400, "Bad Request");
        return Finished;
      }
      var (email, password) := credentials.value;
      var passwordHash := services.hash(Trim(password));
      Send(LoginRequest(addr, email, passwordHash));
      var response := Receive();
      if response.None? {
        return Blocked;
      }
      if response.value.UserInfo? {
        var info := response.value.info;
        Write(LoginReply(info, services.userInfoJson(info)));
      } else {
        GenericError(401, "Unauthorized");
      }
      return Finished;
    }

    method NewChat(request: Request) returns (stop: Stop)
      modifies this
      ensures (State(), stop) == NewChatOutcome(old(State()), request)
    {
      var token := GetHeader(request.headers, "Token");
      if token.None? {
        GenericError(400, "Bad Request");
        return Finished;
      }
      Send(TokenValidation(addr, token.value));
      var response := Receive();
      if response.None? {
        return Blocked;
      }
      if !response.value.Email? {
        GenericError(401, "Unauthorized");
        return Finished;
      }
      Send(NetworkMessage.NewChat(addr, response.value.email));
      response := Receive();
      if response.None? {
        return Blocked;
      }
      if response.value.Messages? {
        Write(NewChatReply(response.value.chatId));
      } else {
        GenericError(403, "Forbidden");
      }
      return Finished;
    }

    method GetChat(request: Request) returns (stop: Stop)
      requires request.path.Some?
      modifies this
      ensures (State(), stop) == GetChatOutcome(old(State()), request)
    {
      var chat := Segment(request.path.value, 2);
      if chat.None? {
        GenericError(400, "Bad Request");
        return Finished;
      }
      var token := GetHeader(request.headers, "Token");
      if token.None? {
        GenericError(401, "Unauthorized");
        return Finished;
      }
      Send(ChatRequest(addr, token.value, chat.value));
      var response := Receive();
      if response.None? {
        return Blocked;
      }
      if response.value.Messages? {
        Write(JsonReply(services.messagesJson(response.value.messages)));
      } else {
        GenericError(403, "Forbidden");
      }
      return Finished;
    }

    method SendMessage(request: Request, messageId: string, answerId: string) returns (stop: Stop)
      requires request.path.Some?
      modifies this
      ensures (State(), stop) == SendMessageOutcome(old(State()), request, messageId, answerId)
    {
      var chat := Segment(request.path.value, 2);
      if chat.None? {
        GenericError(400, "Bad Request");
        return Finished;
      }
      var token := GetHeader(request.headers, "Token");
      if token.None? {
        GenericError(401, "Unauthorized");
        return Finished;
      }
      var content := request.body;
      if ByteLen(Trim(content)) < 1 {
        GenericError(400, "Bad Request");
        return Finished;
      }
      Send(NewMessage(addr, token.value, "user", chat.value, content, messageId));
      var response := Receive();
      if response.None? {
        return Blocked;
      }
      if !response.value.Timestamp? {
        GenericError(403, "Forbidden");
        return Finished;
      }
      stop := Reply(token.value, chat.value, content, response.value.timestamp, answerId);
    }

    /** The rest of `send_message` once the user's message is stored at `timestamp`. */
    method Reply(token: string, chat: string, content: string, timestamp: nat, answerId: string) returns (stop: Stop)
      modifies this
      ensures (State(), stop) == ReplyOutcome(old(State()), token, chat, content, timestamp, answerId)
    {
      var messages: Option<seq<WebMessage>> := None;
      stop := Finished;
      if chatId != chat {
        stop, messages := RetrieveMessages(token, chat);
        if stop != Finished {
          return;
        }
      }
      if messages.Some? {
        context := messages.value;
        chatId := chat;
      }
      var answer := services.complete(context, WebMessage(ChatMessage("user", content), timestamp, ""));
      if answer.None? {
        GenericError(502, "Bad Gateway");
        return Finished;
      }
      Send(NewMessage(addr, token, answer.value.role, chat, answer.value.content, answerId));
      var response := Receive();
      if response.None? {
        return Blocked;
      }
      Write(JsonReply(services.webMessageJson(WebMessage(answer.value, timestamp, answerId))));
      return Finished;
    }

    method RetrieveMessages(token: string, chat: string) returns (stop: Stop, messages: Option<seq<WebMessage>>)
      modifies this
      ensures (State(), stop, messages) == RetrieveOutcome(old(State()), token, chat)
    {
      Send(ChatRequest(addr, token, chat));
      var response := Receive();
      if response.None? {
        return Blocked, None;
      }
      if response.value.Messages? {
        return Finished, Some(response.value.messages);
      }
      return Finished, None;
    }
  }
}
