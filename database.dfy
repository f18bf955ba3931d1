/**
 The storage actor (`DbConnection`, src/modules/database/database.rs): a
 single thread that registers new connections and answers the requests the
 connection handlers put on the shared request channel.

 Channels are FIFO sequences.  A reply channel created by `channel()` is an
 index into `channels`; `senders` maps a connection id to the index of its
 reply channel, and the handoff queue carries the indices whose receiving
 ends were passed back to the server.  The `Users` and `Tokens` tables are
 read-only rows.  A panic (an `unwrap` on a missing sender, `emails[0]` on no
 row, `todo!()`) stops the thread: the model sets `crashed` and the actor does
 nothing more.
 */
module Database {
  import opened Wrappers
  import opened Protocol

  /** A row of `Users`, as far as the login query reads it. */
  datatype UserRow = UserRow(email: string, password: string)

  /** A row of `Tokens`. */
  datatype TokenRow = TokenRow(token: string, email: string)

  /** The database file's two tables. */
  datatype Store = Store(users: seq<UserRow>, tokens: seq<TokenRow>)

  /**
   The actor's state: the table rows, the `senders` map, the contents of every
   reply channel created so far, the ids waiting on `nreceiver`, the receivers
   sent on `receiver_sender`, the requests waiting on `receiver`, and whether
   the thread has panicked.
   */
  datatype Actor = Actor(
    store: Store,
    senders: map<string, nat>,
    channels: seq<seq<DatabaseMessage>>,
    registrations: seq<string>,
    handoff: seq<nat>,
    requests: seq<NetworkMessage>,
    crashed: bool)

  /**
   Every sender and every handed-over receiver is the end of a channel that
   exists, and no two connection ids share a reply channel.
   */
  ghost predicate WellFormed(a: Actor) {
    && (forall id :: id in a.senders ==> a.senders[id] < |a.channels|)
    && (forall k :: 0 <= k < |a.handoff| ==> a.handoff[k] < |a.channels|)
    && (forall id1, id2 :: id1 in a.senders && id2 in a.senders && id1 != id2 ==> a.senders[id1] != a.senders[id2])
  }

  // ---------------------------------------------------------------------------
  // The queries

  predicate UserMatches(row: UserRow, email: string, password: string) {
    row.email == email && row.password == password
  }

  /** `select * from Users where email = ? and password = ?`, counted. */
  function MatchCount(users: seq<UserRow>, email: string, password: string): (n: nat)
    ensures n <= |users|
    ensures n == 0 <==> forall i :: 0 <= i < |users| ==> !UserMatches(users[i], email, password)
  {
    if users == [] then 0
    else (if UserMatches(users[0], email, password) then 1 else 0) + MatchCount(users[1..], email, password)
  }

  /** Row `i` is the only row that matches. */
  ghost predicate OnlyMatch(users: seq<UserRow>, email: string, password: string, i: int) {
    && 0 <= i < |users| && UserMatches(users[i], email, password)
    && forall j :: 0 <= j < |users| && UserMatches(users[j], email, password) ==> j == i
  }

  /** Exactly one match is one matching row and no other. */
  lemma {:induction false} MatchCountOne(users: seq<UserRow>, email: string, password: string)
    ensures MatchCount(users, email, password) == 1 <==> exists i :: OnlyMatch(users, email, password, i)
  {
    if users != [] {
      var rest := users[1..];
      MatchCountOne(rest, email, password);
      if MatchCount(users, email, password) == 1 {
        if UserMatches(users[0], email, password) {
          assert MatchCount(rest, email, password) == 0;
          forall j | 0 < j < |users|
            ensures !UserMatches(users[j], email, password)
          {
            assert users[j] == rest[j - 1];
          }
          assert OnlyMatch(users, email, password, 0);
        } else {
          var i :| OnlyMatch(rest, email, password, i);
          assert OnlyMatch(users, email, password, i + 1) by {
            forall j | 0 < j < |users| && UserMatches(users[j], email, password)
              ensures j == i + 1
            {
              assert UserMatches(rest[j - 1], email, password);
            }
          }
        }
      }
      if i :| OnlyMatch(users, email, password, i) {
        if i == 0 {
          assert MatchCount(rest, email, password) == 0 by {
            forall j | 0 <= j < |rest|
              ensures !UserMatches(rest[j], email, password)
            {
              assert rest[j] == users[j + 1];
            }
          }
        } else {
          assert OnlyMatch(rest, email, password, i - 1) by {
            forall j | 0 <= j < |rest| && UserMatches(rest[j], email, password)
              ensures j == i - 1
            {
              assert rest[j] == users[j + 1];
            }
          }
        }
      }
    }
  }

  /** `validate_connection`: the login is valid exactly when one row matches. */
  function ValidateConnection(store: Store, email: string, password: string): (ok: bool)
    ensures ok <==> exists i :: OnlyMatch(store.users, email, password, i)
  {
    MatchCountOne(store.users, email, password);
    MatchCount(store.users, email, password) == 1
  }

  /** The `email` column of the `Tokens` rows whose token is `token`, in table order. */
  function TokenEmails(tokens: seq<TokenRow>, token: string): (emails: seq<string>)
    ensures emails == [] <==> forall i :: 0 <= i < |tokens| ==> tokens[i].token != token
  {
    if tokens == [] then []
    else (if tokens[0].token == token then [tokens[0].email] else []) + TokenEmails(tokens[1..], token)
  }

  /** Row `i` is the first row with token `token`. */
  ghost predicate FirstToken(tokens: seq<TokenRow>, token: string, i: int) {
    0 <= i < |tokens| && tokens[i].token == token && forall j :: 0 <= j < i ==> tokens[j].token != token
  }

  /** The first email collected is that of the first matching row. */
  lemma {:induction false} TokenEmailsFirst(tokens: seq<TokenRow>, token: string)
    requires TokenEmails(tokens, token) != []
    ensures exists i :: FirstToken(tokens, token, i) && tokens[i].email == TokenEmails(tokens, token)[0]
  {
    if tokens[0].token == token {
      assert FirstToken(tokens, token, 0);
    } else {
      var rest := tokens[1..];
      assert TokenEmails(tokens, token) == TokenEmails(rest, token);
      TokenEmailsFirst(rest, token);
      var i :| FirstToken(rest, token, i) && rest[i].email == TokenEmails(rest, token)[0];
      assert FirstToken(tokens, token, i + 1) by {
        forall j | 0 < j < i + 1
          ensures tokens[j].token != token
        {
          assert tokens[j] == rest[j - 1];
        }
      }
    }
  }

  /**
   `validate_token`: the email of the first `Tokens` row with this token;
   None where the source indexes an empty result and panics.
   */
  function ValidateToken(store: Store, token: string): (email: Option<string>)
    ensures email.None? <==> forall i :: 0 <= i < |store.tokens| ==> store.tokens[i].token != token
    ensures email.Some? ==> exists i :: FirstToken(store.tokens, token, i) && store.tokens[i].email == email.value
  {
    var emails := TokenEmails(store.tokens, token);
    if emails == [] then None
    else
      TokenEmailsFirst(store.tokens, token);
      Some(emails[0])
  }

  // ---------------------------------------------------------------------------
  // The actor's steps

  /**
   `receive_new_connections`: at most one pending id is taken; it gets a new
   channel, replacing any earlier sender for that id, and the channel's
   receiving end is handed over.
   */
  function Register(a: Actor): (r: Actor)
    ensures r.store == a.store && r.requests == a.requests && r.crashed == a.crashed
    ensures a.registrations == [] ==> r == a
    ensures a.registrations != [] ==>
      var ch := |a.channels|;
      && r.registrations == a.registrations[1..]
      && r.senders == a.senders[a.registrations[0] := ch]
      && r.channels == a.channels + [[]]
      && r.handoff == a.handoff + [ch]
  {
    if a.registrations == [] then a
    else
      var id, ch := a.registrations[0], |a.channels|;
      a.(registrations := a.registrations[1..],
         senders := a.senders[id := ch],
         channels := a.channels + [[]],
         handoff := a.handoff + [ch])
  }

  /** The reply a login request gets: `Ok` for exactly one matching `Users` row, `Err` otherwise. */
  function LoginVerdict(store: Store, email: string, password: string): (m: DatabaseMessage)
    ensures m.Ok? || m.Err?
    ensures m.Ok? <==> exists i :: OnlyMatch(store.users, email, password, i)
  {
    if ValidateConnection(store, email, password) then DatabaseMessage.Ok else Err
  }

  /** Requests the actor can serve without panicking, given its senders and tables. */
  predicate Supported(store: Store, senders: map<string, nat>, m: NetworkMessage) {
    match m
    case LoginRequest(id, _, _) => id in senders
    case TokenValidation(id, token) => id in senders && ValidateToken(store, token).Some?
    case _ => false
  }

  /**
   One arm of the `match` in `receive_messages`.  A login is answered `Ok` or
   `Err` on the requester's own channel only; a token validation is computed
   and answered nowhere; an unregistered requester, a token with no row and
   any other kind of request panic.
   */
  function Handle(a: Actor, m: NetworkMessage): (r: Actor)
    requires WellFormed(a) && !a.crashed
    ensures WellFormed(r)
    ensures r.crashed <==> !Supported(a.store, a.senders, m)
    ensures r.store == a.store && r.senders == a.senders && r.registrations == a.registrations
    ensures r.handoff == a.handoff && r.requests == a.requests
    ensures |r.channels| == |a.channels|
    ensures !m.LoginRequest? || r.crashed ==> r.channels == a.channels
    ensures m.LoginRequest? && !r.crashed ==>
      var ch := a.senders[m.conn];
      && r.channels[ch] == a.channels[ch] + [LoginVerdict(a.store, m.email, m.passwordHash)]
      && forall k :: 0 <= k < |a.channels| && k != ch ==> r.channels[k] == a.channels[k]
  {
    match m
    case LoginRequest(id, email, password) =>
      if id !in a.senders then a.(crashed := true)
      else
        var ch := a.senders[id];
        a.(channels := a.channels[ch := a.channels[ch] + [LoginVerdict(a.store, email, password)]])
    case TokenValidation(id, token) =>
      if id !in a.senders then a.(crashed := true)
      else if ValidateToken(a.store, token).None? then a.(crashed := true)
      else a
    case _ => a.(crashed := true)
  }

  /** Take the next request off the inbox and handle it. */
  function Next(a: Actor): (r: Actor)
    requires WellFormed(a) && !a.crashed && a.requests != []
    ensures r.crashed <==> !Supported(a.store, a.senders, a.requests[0])
    ensures r.requests == a.requests[1..]
  {
    Handle(a.(requests := a.requests[1..]), a.requests[0])
  }

  /** `receive_messages`: handle requests in arrival order until the inbox is empty or the thread panics. */
  function Drain(a: Actor): (r: Actor)
    requires WellFormed(a)
    ensures WellFormed(r)
    ensures r.store == a.store && r.senders == a.senders && r.registrations == a.registrations && r.handoff == a.handoff
    ensures |r.channels| == |a.channels|
    ensures !r.crashed ==> r.requests == []
    decreases |a.requests|
  {
    if a.crashed || a.requests == [] then a else Drain(Next(a))
  }

  /**
   `update`'s loop, run `n` times: a registration attempt, then a full drain.
   A panic unwinds out of the loop, so a crashed actor takes no further round.
   */
  function Rounds(a: Actor, n: nat): (r: Actor)
    requires WellFormed(a)
    ensures WellFormed(r)
    decreases n
  {
    if n == 0 || a.crashed then a else Rounds(Drain(Register(a)), n - 1)
  }

  // ---------------------------------------------------------------------------
  // What the steps promise

  /**
   Registration keeps the channels well formed: the new channel is the only
   one with its index, so the newly registered id shares it with no other id.
   */
  lemma RegisterWellFormed(a: Actor)
    requires WellFormed(a)
    ensures WellFormed(Register(a))
  {
    var r := Register(a);
    if a.registrations != [] {
      var id, ch := a.registrations[0], |a.channels|;
      forall k | 0 <= k < |r.handoff|
        ensures r.handoff[k] < |r.channels|
      {
        if k < |a.handoff| {
          assert r.handoff[k] == a.handoff[k];
        }
      }
      forall id1, id2 | id1 in r.senders && id2 in r.senders && id1 != id2
        ensures r.senders[id1] != r.senders[id2]
      {
        if id1 == id {
          assert r.senders[id2] == a.senders[id2];
        } else if id2 == id {
          assert r.senders[id1] == a.senders[id1];
        }
      }
    }
  }

  /** Replies the login requests in `requests` put on channel `ch`, in arrival order. */
  function RepliesOn(store: Store, senders: map<string, nat>, requests: seq<NetworkMessage>, ch: nat): seq<DatabaseMessage> {
    if requests == [] then []
    else
      var m := requests[0];
      (if m.LoginRequest? && m.conn in senders && senders[m.conn] == ch then [LoginVerdict(store, m.email, m.passwordHash)] else [])
      + RepliesOn(store, senders, requests[1..], ch)
  }

  /** The replies owed to connection `id`: one per login request it sent, in arrival order. */
  function RepliesTo(store: Store, requests: seq<NetworkMessage>, id: string): seq<DatabaseMessage> {
    if requests == [] then []
    else
      var m := requests[0];
      (if m.LoginRequest? && m.conn == id then [LoginVerdict(store, m.email, m.passwordHash)] else [])
      + RepliesTo(store, requests[1..], id)
  }

  /**
   Because no two ids share a channel, what lands on the channel of a
   registered id is exactly the replies to that id's own logins.
   */
  lemma {:induction false} OwnChannelOwnReplies(a: Actor, requests: seq<NetworkMessage>, id: string)
    requires WellFormed(a) && id in a.senders
    ensures RepliesOn(a.store, a.senders, requests, a.senders[id]) == RepliesTo(a.store, requests, id)
  {
    if requests != [] {
      OwnChannelOwnReplies(a, requests[1..], id);
    }
  }

  /** Handling one request appends its reply, if any, to the channel `RepliesOn` names. */
  lemma NextReplies(a: Actor, ch: nat)
    requires WellFormed(a) && !a.crashed && a.requests != [] && !Next(a).crashed && ch < |a.channels|
    ensures Next(a).channels[ch] + RepliesOn(a.store, a.senders, a.requests[1..], ch)
         == a.channels[ch] + RepliesOn(a.store, a.senders, a.requests, ch)
  {
  }

  /** A drain runs to the end without panicking exactly when every waiting request is supported. */
  lemma {:induction false} DrainCrashFree(a: Actor)
    requires WellFormed(a) && !a.crashed
    ensures !Drain(a).crashed <==> forall i :: 0 <= i < |a.requests| ==> Supported(a.store, a.senders, a.requests[i])
    decreases |a.requests|
  {
    if a.requests != [] {
      var b := Next(a);
      if !b.crashed {
        DrainCrashFree(b);
        assert b.requests == a.requests[1..];
        assert forall i :: 0 < i < |a.requests| ==> a.requests[i] == b.requests[i - 1];
      }
    }
  }

  /**
   A drain that does not panic has put on each channel the replies to that
   channel's logins, in the order the requests arrived, after what was
   already there.
   */
  lemma {:induction false} DrainAnswersInOrder(a: Actor, ch: nat)
    requires WellFormed(a) && !a.crashed && !Drain(a).crashed && ch < |a.channels|
    ensures Drain(a).channels[ch] == a.channels[ch] + RepliesOn(a.store, a.senders, a.requests, ch)
    decreases |a.requests|
  {
    if a.requests != [] {
      var b := Next(a);
      DrainAnswersInOrder(b, ch);
      NextReplies(a, ch);
    }
  }

  /**
   After a drain without a panic, the channel of a registered connection holds
   what it held plus the replies to that connection's own logins, in the order
   they arrived, and nothing meant for any other connection.
   */
  lemma DrainAnswersOwnLogins(a: Actor, id: string)
    requires WellFormed(a) && !a.crashed && !Drain(a).crashed && id in a.senders
    ensures Drain(a).channels[a.senders[id]] == a.channels[a.senders[id]] + RepliesTo(a.store, a.requests, id)
  {
    DrainAnswersInOrder(a, a.senders[id]);
    OwnChannelOwnReplies(a, a.requests, id);
  }

  /** Each round hands over at most one receiver, so `n` rounds hand over at most `n`. */
  lemma {:induction false} RoundsHandOffAtMost(a: Actor, n: nat)
    requires WellFormed(a)
    ensures a.handoff <= Rounds(a, n).handoff
    ensures |Rounds(a, n).handoff| <= |a.handoff| + n
    decreases n
  {
    if n > 0 && !a.crashed {
      RegisterWellFormed(a);
      var b := Drain(Register(a));
      RoundsHandOffAtMost(b, n - 1);
    }
  }

  /**
   A panic is final: once the thread has panicked after `m` rounds, any
   number of further rounds registers no id, hands over no receiver and
   answers no request.
   */
  lemma {:induction false} CrashIsFinal(a: Actor, m: nat, n: nat)
    requires WellFormed(a) && m <= n && Rounds(a, m).crashed
    ensures Rounds(a, n) == Rounds(a, m)
    decreases m
  {
    if m > 0 && !a.crashed {
      RegisterWellFormed(a);
      CrashIsFinal(Drain(Register(a)), m - 1, n - 1);
    }
  }

  // ---------------------------------------------------------------------------
  // The actor

  class DbConnection {
    /** The database file, read only here. */
    const store: Store
    var senders: map<string, nat>
    /** Every reply channel created, by index: the messages it holds. */
    var channels: seq<seq<DatabaseMessage>>
    /** Connection ids waiting on `nreceiver`. */
    var registrations: seq<string>
    /** Receivers sent on `receiver_sender`, as channel indices. */
    var handoff: seq<nat>
    /** Requests waiting on `receiver`. */
    var requests: seq<NetworkMessage>
    /** The thread has panicked. */
    var crashed: bool

    function State(): Actor
      reads this
    {
      Actor(store, senders, channels, registrations, handoff, requests, crashed)
    }

    ghost predicate Valid()
      reads this
    {
      WellFormed(State())
    }

    /** `DbConnection::new`, with the ids and requests that will arrive. */
    constructor (store: Store, registrations: seq<string>, requests: seq<NetworkMessage>)
      ensures Valid()
      ensures State() == Actor(store, map[], [], registrations, [], requests, false)
    {
      this.store := store;
      this.registrations := registrations;
      this.requests := requests;
      senders := map[];
      channels := [];
      handoff := [];
      crashed := false;
    }

    method ReceiveNewConnections()
      requires Valid()
      modifies this
      ensures Valid() && State() == Register(old(State()))
    {
      RegisterWellFormed(State());
      if registrations != [] {
        var id := registrations[0];
        registrations := registrations[1..];
        var ch := |channels|;
        channels := channels + [[]];
        senders := senders[id := ch];
        handoff := handoff + [ch];
      }
    }

    /** The body of the `while let` loop for one request. */
    method HandleMessage(m: NetworkMessage)
      requires Valid() && !crashed
      modifies this
      ensures Valid() && State() == Handle(old(State()), m)
    {
      match m
      case LoginRequest(id, email, password) =>
        if id !in senders {
          crashed := true;
          return;
        }
        var ch := senders[id];
        var reply := if ValidateConnection(store, email, password) then DatabaseMessage.Ok else Err;
        channels := channels[ch := channels[ch] + [reply]];
      case TokenValidation(id, token) =>
        if id !in senders {
          crashed := true;
          return;
        }
        var email := ValidateToken(store, token);
        if email.None? {
          crashed := true;
        }
      case _ =>
        crashed := true;
    }

    method ReceiveMessages()
      requires Valid()
      modifies this
      ensures Valid() && State() == Drain(old(State()))
    {
      while !crashed && requests != []
        invariant Valid()
        invariant Drain(State()) == Drain(old(State()))
        decreases |requests|
      {
        var m := requests[0];
        requests := requests[1..];
        HandleMessage(m);
      }
    }

    /** `update`'s endless loop, for `rounds` rounds or until the thread panics. */
    method Update(rounds: nat)
      requires Valid()
      modifies this
      ensures Valid() && State() == Rounds(old(State()), rounds)
    {
      var i := 0;
      while i < rounds && !crashed
        invariant 0 <= i <= rounds
        invariant Valid()
        invariant Rounds(State(), rounds - i) == Rounds(old(State()), rounds)
      {
        ReceiveNewConnections();
        ReceiveMessages();
        i := i + 1;
      }
    }
  }
}
