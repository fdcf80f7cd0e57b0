/**
 * The API server: the users, chat_sessions and messages tables, the bearer
 * token gate, and the register, login and chat-session handlers.
 *
 * The tables live in one `Store` object. CURRENT_TIMESTAMP is a clock that
 * advances on every write that reads it; AUTO_INCREMENT ids are counters.
 * bcrypt, jsonwebtoken and JSON.stringify/parse are the function-valued
 * fields of `Externals`. The connection pool is the number of connections
 * that handlers have acquired and not yet released.
 */
module Server {
  import opened Wrappers
  import opened Text

  const DefaultTitle: string := "새 대화"

  const ErrTokenRequired: string := "액세스 토큰이 필요합니다"
  const ErrInvalidToken: string := "유효하지 않은 토큰입니다"
  const ErrMissingFields: string := "모든 필드를 입력해주세요"
  const ErrDuplicateUser: string := "이미 존재하는 사용자명 또는 이메일입니다"
  const ErrLoginMissing: string := "사용자명과 비밀번호를 입력해주세요"
  const ErrBadCredentials: string := "사용자명 또는 비밀번호가 올바르지 않습니다"
  const ErrSessionNotFound: string := "채팅 세션을 찾을 수 없습니다"
  const ErrServer: string := "서버 오류가 발생했습니다"
  const MsgRegistered: string := "회원가입이 완료되었습니다"
  const MsgLoggedIn: string := "로그인이 완료되었습니다"
  const MsgRenamed: string := "대화 이름이 변경되었습니다"
  const MsgDeleted: string := "대화가 삭제되었습니다"

  /** A JSON value, as carried in the `data` field of a message. */
  datatype Json =
    | JNull
    | JBool(b: bool)
    | JNumber(n: real)
    | JString(s: string)
    | JArray(items: seq<Json>)
    | JObject(fields: seq<(string, Json)>)

  /** JavaScript truthiness of a JSON value. */
  predicate Truthy(j: Json) {
    match j
    case JNull => false
    case JBool(b) => b
    case JNumber(n) => n != 0.0
    case JString(s) => s != ""
    case _ => true
  }

  /** The column `sender ENUM('user', 'assistant')`. */
  datatype Sender = UserSide | AssistantSide

  /** The payload of a session token: `{ userId, username }`. */
  datatype Claims = Claims(userId: int, username: string)

  /** The libraries the handlers call and whose internals are not modelled. */
  datatype Externals = Externals(
    hash: string -> string,              // bcrypt.hash(password, 10)
    compare: (string, string) -> bool,   // bcrypt.compare(password, hash)
    sign: Claims -> string,              // jwt.sign(claims, JWT_SECRET, { expiresIn: '24h' })
    verify: string -> Option<Claims>,    // jwt.verify(token, JWT_SECRET); None for an error
    stringify: Json -> string,           // JSON.stringify
    parse: string -> Json)               // JSON.parse

  /** JSON.parse undoes JSON.stringify, which never yields the empty string. */
  ghost predicate CodecInverse(ext: Externals) {
    forall j :: ext.parse(ext.stringify(j)) == j && ext.stringify(j) != ""
  }

  /** A row of `users`. */
  datatype User = User(id: nat, username: string, email: string, passwordHash: string,
                       createdAt: nat, updatedAt: nat)

  /** A row of `chat_sessions`. */
  datatype ChatSession = ChatSession(id: nat, userId: int, title: string, createdAt: nat, updatedAt: nat)

  /** A row of `messages`; `data` is the JSON column, stored as text or NULL. */
  datatype Message = Message(id: nat, sessionId: nat, sender: Sender, text: string,
                             data: Option<string>, timestamp: nat)

  /** A message as the list-messages handler returns it, with `data` parsed. */
  datatype MessageView = MessageView(id: nat, sessionId: nat, sender: Sender, text: string,
                                     data: Json, timestamp: nat)

  datatype UserInfo = UserInfo(id: nat, username: string, email: string)

  /** The JSON bodies the handlers send. */
  datatype Body =
    | ErrorBody(error: string)
    | AuthBody(message: string, token: string, user: UserInfo)
    | SessionsBody(sessions: seq<ChatSession>)
    | CreatedSession(id: nat, title: string)
    | NoticeBody(message: string)
    | MessagesBody(messages: seq<MessageView>)
    | CreatedMessage(id: nat)

  datatype Response = Response(status: nat, body: Body)

  // ---------------------------------------------------------------------
  // The token gate

  /** `authHeader && authHeader.split(' ')[1]`, kept only when it is a non-empty string. */
  function BearerToken(header: Option<string>): (token: Option<string>)
    ensures token.Some? ==> token.value != "" && ' ' !in token.value
    ensures header.None? || header.value == "" ==> token.None?
    ensures token.Some? ==> header.Some? && |Split(header.value, ' ')| >= 2
                            && token.value == Split(header.value, ' ')[1]
    ensures header.Some? && |Split(header.value, ' ')| >= 2 && Split(header.value, ' ')[1] != "" ==> token.Some?
  {
    if header.None? then None
    else
      var parts := Split(header.value, ' ');
      if |parts| >= 2 && parts[1] != "" then Some(parts[1]) else None
  }

  /** The `Authorization` value the clients send for a token. */
  function BearerHeader(token: string): string {
    "Bearer " + token
  }

  /** The header a client builds for a space-free token yields that token back. */
  lemma BearerTokenOfHeader(token: string)
    requires token != "" && ' ' !in token
    ensures BearerToken(Some(BearerHeader(token))) == Some(token)
  {
    assert BearerHeader(token) == "Bearer" + [' '] + token;
    SplitAfterWord("Bearer", ' ', token);
    SplitWithoutSeparator(token, ' ');
  }

  datatype Gate = Admit(caller: Claims) | Reject(response: Response)

  /** The `authenticateToken` middleware: 401 without a token, 403 for a token that fails verification. */
  function AuthenticateToken(header: Option<string>, verify: string -> Option<Claims>): (g: Gate)
    ensures BearerToken(header).None? <==> g == Reject(Response(401, ErrorBody(ErrTokenRequired)))
    ensures g == Reject(Response(403, ErrorBody(ErrInvalidToken)))
            <==> BearerToken(header).Some? && verify(BearerToken(header).value).None?
    ensures g.Admit? <==> BearerToken(header).Some? && verify(BearerToken(header).value).Some?
    ensures g.Admit? ==> verify(BearerToken(header).value) == Some(g.caller)
  {
    match BearerToken(header)
    case None => Reject(Response(401, ErrorBody(ErrTokenRequired)))
    case Some(token) =>
      match verify(token)
      case None => Reject(Response(403, ErrorBody(ErrInvalidToken)))
      case Some(claims) => Admit(claims)
  }

  /** A token signed by the server and sent back as `Bearer <token>` admits its claims. */
  lemma IssuedTokenAdmitted(ext: Externals, claims: Claims)
    requires ext.verify(ext.sign(claims)) == Some(claims)
    requires ext.sign(claims) != "" && ' ' !in ext.sign(claims)
    ensures AuthenticateToken(Some(BearerHeader(ext.sign(claims))), ext.verify) == Admit(claims)
  {
    BearerTokenOfHeader(ext.sign(claims));
  }

  // ---------------------------------------------------------------------
  // Queries on the tables

  /** `title || '새 대화'`. */
  function TitleOrDefault(title: string): (r: string)
    ensures r != ""
    ensures title != "" ==> r == title
    ensures title == "" ==> r == DefaultTitle
  {
    if title != "" then title else DefaultTitle
  }

  /** `SELECT id FROM users WHERE username = ? OR email = ?` finds a row. */
  predicate Taken(users: seq<User>, username: string, email: string): (r: bool)
    ensures !r ==> FindUser(users, username).None?
    ensures r <== FindUser(users, username).Some?
    ensures (exists i :: 0 <= i < |users| && users[i].email == email) ==> r
  {
    exists i :: 0 <= i < |users| && (users[i].username == username || users[i].email == email)
  }

  /** `SELECT * FROM users WHERE username = ?`, first row. */
  function FindUser(users: seq<User>, username: string): (r: Option<User>)
    ensures r.None? <==> forall i :: 0 <= i < |users| ==> users[i].username != username
    ensures r.Some? ==> r.value in users && r.value.username == username
    ensures r.Some? ==> exists i :: 0 <= i < |users| && users[i] == r.value
                                    && forall j :: 0 <= j < i ==> users[j].username != username
  {
    if |users| == 0 then None
    else if users[0].username == username then Some(users[0])
    else
      var r := FindUser(users[1..], username);
      assert forall i :: 0 <= i < |users[1..]| ==> users[1..][i] == users[i + 1];
      r
  }

  /** Looking up a name nobody had finds the user appended with it. */
  lemma {:induction false} FindAppendedUser(users: seq<User>, u: User)
    requires forall i :: 0 <= i < |users| ==> users[i].username != u.username
    ensures FindUser(users + [u], u.username) == Some(u)
  {
    if |users| > 0 {
      assert (users + [u])[1..] == users[1..] + [u];
      FindAppendedUser(users[1..], u);
    }
  }

  /** The user ids are 1, 2, ... in insertion order, and names and emails are unique and non-empty. */
  ghost predicate UsersValid(users: seq<User>, clock: nat) {
    && (forall i :: 0 <= i < |users| ==>
          users[i].id == i + 1 && users[i].username != "" && users[i].email != ""
          && users[i].createdAt == users[i].updatedAt < clock)
    && (forall i, j :: 0 <= i < j < |users| ==>
          users[i].username != users[j].username && users[i].email != users[j].email)
  }

  /** Every session is stored under its id, belongs to an existing user and was last updated in the past. */
  ghost predicate SessionsValid(sessions: map<nat, ChatSession>, userCount: nat, nextId: nat, clock: nat) {
    forall k :: k in sessions ==>
      && sessions[k].id == k && 0 < k < nextId
      && 1 <= sessions[k].userId <= userCount
      && sessions[k].createdAt <= sessions[k].updatedAt < clock
  }

  /** Every message belongs to an existing session; ids and timestamps grow in insertion order. */
  ghost predicate MessagesValid(messages: seq<Message>, sessions: map<nat, ChatSession>, nextId: nat, clock: nat) {
    && (forall i :: 0 <= i < |messages| ==>
          messages[i].sessionId in sessions && messages[i].id < nextId && messages[i].timestamp < clock)
    && InsertionOrdered(messages)
  }

  /** A registration with a fresh name and email, stamped now, keeps the users table valid. */
  lemma UsersAppendValid(users: seq<User>, u: User, clock: nat)
    requires UsersValid(users, clock) && !Taken(users, u.username, u.email)
    requires u.id == |users| + 1 && u.username != "" && u.email != "" && u.createdAt == u.updatedAt == clock
    ensures UsersValid(users + [u], clock + 1)
  {
    var t := users + [u];
    forall i, j | 0 <= i < j < |t| ensures t[i].username != t[j].username && t[i].email != t[j].email {
      assert t[i] == users[i];
      if j < |users| {
        assert t[j] == users[j];
      }
    }
  }

  /** A later clock keeps the users table valid. */
  lemma UsersValidLater(users: seq<User>, clock: nat, clock': nat)
    requires UsersValid(users, clock) && clock <= clock'
    ensures UsersValid(users, clock')
  {
  }

  /** More users, a later clock and a larger id counter keep the sessions table valid. */
  lemma SessionsValidLater(sessions: map<nat, ChatSession>, userCount: nat, userCount': nat, nextId: nat, nextId': nat,
                           clock: nat, clock': nat)
    requires SessionsValid(sessions, userCount, nextId, clock)
    requires userCount <= userCount' && nextId <= nextId' && clock <= clock'
    ensures SessionsValid(sessions, userCount', nextId', clock')
  {
  }

  /** Touching a session's `updated_at` now keeps the sessions table valid one tick later. */
  lemma TouchSessionValid(sessions: map<nat, ChatSession>, userCount: nat, nextId: nat, clock: nat, sid: nat)
    requires SessionsValid(sessions, userCount, nextId, clock) && sid in sessions
    ensures SessionsValid(sessions[sid := sessions[sid].(updatedAt := clock)], userCount, nextId, clock + 1)
  {
  }

  /** A later clock and a table with the same sessions keep the messages table valid. */
  lemma MessagesValidLater(messages: seq<Message>, sessions: map<nat, ChatSession>, sessions': map<nat, ChatSession>,
                           nextId: nat, clock: nat, clock': nat)
    requires MessagesValid(messages, sessions, nextId, clock)
    requires sessions.Keys <= sessions'.Keys && clock <= clock'
    ensures MessagesValid(messages, sessions', nextId, clock')
  {
  }

  /** A message of an existing session, with the next id and stamped now, keeps the messages table valid. */
  lemma MessageAppendValid(messages: seq<Message>, sessions: map<nat, ChatSession>, nextId: nat, clock: nat, m: Message)
    requires MessagesValid(messages, sessions, nextId, clock)
    requires m.sessionId in sessions && m.id == nextId && m.timestamp == clock
    ensures MessagesValid(messages + [m], sessions, nextId + 1, clock + 1)
  {
    var t := messages + [m];
    forall i, j | 0 <= i < j < |t| ensures t[i].id < t[j].id && t[i].timestamp < t[j].timestamp {
      assert t[i] == messages[i];
      if j < |messages| {
        assert t[j] == messages[j];
      }
    }
  }

  /** AUTO_INCREMENT ids and CURRENT_TIMESTAMP values grow along the table. */
  predicate InsertionOrdered(ms: seq<Message>) {
    forall i, j :: 0 <= i < j < |ms| ==> ms[i].id < ms[j].id && ms[i].timestamp < ms[j].timestamp
  }

  /** `WHERE id = ? AND user_id = ?` finds the session. */
  predicate Owns(sessions: map<nat, ChatSession>, sessionId: int, caller: Claims): (r: bool)
    ensures r ==> sessionId >= 0 && sessionId in sessions && sessions[sessionId].userId == caller.userId
    ensures sessionId < 0 || sessionId !in sessions ==> !r
  {
    sessionId >= 0 && sessionId in sessions && sessions[sessionId].userId == caller.userId
  }

  /** `SELECT * FROM messages WHERE session_id = ?`, in table order. */
  function MessagesOf(ms: seq<Message>, sessionId: nat): (r: seq<Message>)
    ensures forall m :: m in r <==> m in ms && m.sessionId == sessionId
    ensures |r| <= |ms|
  {
    if ms == [] then []
    else (if ms[0].sessionId == sessionId then [ms[0]] else []) + MessagesOf(ms[1..], sessionId)
  }

  /** The rows left after `ON DELETE CASCADE` removes the messages of one session. */
  function Without(ms: seq<Message>, sessionId: nat): (r: seq<Message>)
    ensures forall m :: m in r <==> m in ms && m.sessionId != sessionId
  {
    if ms == [] then []
    else (if ms[0].sessionId != sessionId then [ms[0]] else []) + Without(ms[1..], sessionId)
  }

  predicate Ascending(ms: seq<Message>) {
    forall i, j :: 0 <= i < j < |ms| ==> ms[i].timestamp < ms[j].timestamp
  }

  /** Filtering keeps order: the messages of a session come out oldest first. */
  lemma {:induction false} MessagesOfAscending(ms: seq<Message>, sessionId: nat)
    requires Ascending(ms)
    ensures Ascending(MessagesOf(ms, sessionId))
  {
    if ms != [] {
      MessagesOfAscending(ms[1..], sessionId);
      var rest := MessagesOf(ms[1..], sessionId);
      forall m | m in rest ensures ms[0].timestamp < m.timestamp {
        assert m in ms[1..];
      }
    }
  }

  /** Appending a row adds it at the end of its own session's list and changes no other list. */
  lemma {:induction false} MessagesOfAppend(ms: seq<Message>, m: Message, sessionId: nat)
    ensures MessagesOf(ms + [m], sessionId)
            == MessagesOf(ms, sessionId) + (if m.sessionId == sessionId then [m] else [])
  {
    if ms == [] {
      assert ms + [m] == [m] && [m][1..] == [];
    } else {
      var t := ms + [m];
      assert t[0] == ms[0] && t[1..] == ms[1..] + [m];
      var head := if ms[0].sessionId == sessionId then [ms[0]] else [];
      assert MessagesOf(t, sessionId) == head + MessagesOf(ms[1..] + [m], sessionId);
      MessagesOfAppend(ms[1..], m, sessionId);
    }
  }

  /** The cascade leaves no message of the deleted session and every other session's messages as they were. */
  lemma {:induction false} CascadeRemovesExactlyOneSession(ms: seq<Message>, deleted: nat, other: nat)
    ensures MessagesOf(Without(ms, deleted), deleted) == []
    ensures other != deleted ==> MessagesOf(Without(ms, deleted), other) == MessagesOf(ms, other)
  {
    if ms != [] {
      CascadeRemovesExactlyOneSession(ms[1..], deleted, other);
      var w := Without(ms[1..], deleted);
      if ms[0].sessionId != deleted {
        var r := [ms[0]] + w;
        assert Without(ms, deleted) == r;
        assert r[0] == ms[0] && r[1..] == w;
      } else {
        assert Without(ms, deleted) == w;
      }
    }
  }

  /** `data ? JSON.stringify(data) : null` */
  function StoredData(data: Option<Json>, stringify: Json -> string): (r: Option<string>)
    ensures r.Some? <==> data.Some? && Truthy(data.value)
    ensures r.Some? ==> r.value == stringify(data.value)
  {
    if data.Some? && Truthy(data.value) then Some(stringify(data.value)) else None
  }

  /** A row as returned: `data: message.data ? JSON.parse(message.data) : null`. */
  function View(m: Message, parse: string -> Json): (v: MessageView)
    ensures v.id == m.id && v.sessionId == m.sessionId && v.sender == m.sender && v.text == m.text
    ensures v.timestamp == m.timestamp
    ensures m.data.None? || m.data == Some("") ==> v.data == JNull
    ensures m.data.Some? && m.data.value != "" ==> v.data == parse(m.data.value)
  {
    var data := if m.data.Some? && m.data.value != "" then parse(m.data.value) else JNull;
    MessageView(m.id, m.sessionId, m.sender, m.text, data, m.timestamp)
  }

  function Views(ms: seq<Message>, parse: string -> Json): (r: seq<MessageView>)
    ensures |r| == |ms|
    ensures forall i :: 0 <= i < |ms| ==> r[i] == View(ms[i], parse)
  {
    seq(|ms|, i requires 0 <= i < |ms| => View(ms[i], parse))
  }

  /** A truthy payload stored by append comes back unchanged from list-messages; a falsy one comes back as null. */
  lemma PayloadRoundTrip(ext: Externals, m: Message, data: Option<Json>)
    requires CodecInverse(ext)
    requires m.data == StoredData(data, ext.stringify)
    ensures View(m, ext.parse).data == if data.Some? && Truthy(data.value) then data.value else JNull
  {
    if data.Some? && Truthy(data.value) {
      assert ext.parse(ext.stringify(data.value)) == data.value && ext.stringify(data.value) != "";
    }
  }

  // ---------------------------------------------------------------------
  // Session list order

  /** `ORDER BY updated_at DESC` */
  predicate NewestFirstOrder(list: seq<ChatSession>) {
    forall i, j :: 0 <= i < j < |list| ==> list[i].updatedAt >= list[j].updatedAt
  }

  predicate DistinctIds(list: seq<ChatSession>) {
    forall i, j :: 0 <= i < j < |list| ==> list[i].id != list[j].id
  }

  /** Places `s` before the first session that is not newer than it. */
  function InsertByRecency(list: seq<ChatSession>, s: ChatSession): (r: seq<ChatSession>)
    ensures multiset(r) == multiset(list) + multiset{s}
  {
    if list == [] || s.updatedAt >= list[0].updatedAt then [s] + list
    else
      assert list == [list[0]] + list[1..];
      [list[0]] + InsertByRecency(list[1..], s)
  }

  /** A session newer than, and different from, every session of an ordered list can go in front. */
  lemma PrependNewest(x: ChatSession, list: seq<ChatSession>)
    requires NewestFirstOrder(list) && DistinctIds(list)
    requires forall y :: y in list ==> y.updatedAt <= x.updatedAt && y.id != x.id
    ensures NewestFirstOrder([x] + list) && DistinctIds([x] + list)
  {
    var r := [x] + list;
    forall i, j | 0 <= i < j < |r|
      ensures r[i].updatedAt >= r[j].updatedAt && r[i].id != r[j].id
    {
      assert r[j] == list[j - 1] && list[j - 1] in list;
      if i > 0 {
        assert r[i] == list[i - 1];
      }
    }
  }

  /** Insertion keeps the list newest first and each session in it once. */
  lemma {:induction false} InsertByRecencyOrdered(list: seq<ChatSession>, s: ChatSession)
    requires NewestFirstOrder(list) && DistinctIds(list)
    requires forall x :: x in list ==> x.id != s.id
    ensures NewestFirstOrder(InsertByRecency(list, s)) && DistinctIds(InsertByRecency(list, s))
  {
    if list == [] || s.updatedAt >= list[0].updatedAt {
      forall y | y in list ensures y.updatedAt <= s.updatedAt {
        var k :| 0 <= k < |list| && list[k] == y;
        assert k == 0 || list[0].updatedAt >= list[k].updatedAt;
      }
      PrependNewest(s, list);
    } else {
      var tail := list[1..];
      assert NewestFirstOrder(tail) && DistinctIds(tail);
      InsertByRecencyOrdered(tail, s);
      var rest := InsertByRecency(tail, s);
      forall x | x in rest
        ensures x.updatedAt <= list[0].updatedAt && x.id != list[0].id
      {
        assert x in multiset(rest);
        if x != s {
          assert x in tail;
          var k :| 0 <= k < |tail| && tail[k] == x;
          assert list[k + 1] == x;
        }
      }
      PrependNewest(list[0], rest);
    }
  }

  /** `s` is a row of `sessions`, stored under its id and owned by `userId`. */
  predicate OwnedRow(sessions: map<nat, ChatSession>, userId: int, s: ChatSession) {
    s.id in sessions && sessions[s.id] == s && s.userId == userId
  }

  /** The loop's invariant: the owned rows outside `pending`, each once, newest first. */
  ghost predicate ListedExcept(list: seq<ChatSession>, sessions: map<nat, ChatSession>, userId: int, pending: set<nat>) {
    && NewestFirstOrder(list) && DistinctIds(list)
    && forall s :: s in list <==> OwnedRow(sessions, userId, s) && s.id !in pending
  }

  /** Taking key `k` out of `pending`, and inserting its row when the user owns it, keeps the invariant. */
  lemma ListingStep(list: seq<ChatSession>, sessions: map<nat, ChatSession>, userId: int, pending: set<nat>, k: nat)
    requires forall key :: key in sessions ==> sessions[key].id == key
    requires k in pending && pending <= sessions.Keys
    requires ListedExcept(list, sessions, userId, pending)
    ensures sessions[k].userId == userId ==> ListedExcept(InsertByRecency(list, sessions[k]), sessions, userId, pending - {k})
    ensures sessions[k].userId != userId ==> ListedExcept(list, sessions, userId, pending - {k})
  {
    var s := sessions[k];
    if s.userId == userId {
      InsertByRecencyOrdered(list, s);
      InsertByRecencyMembers(list, s);
    }
  }

  /** Insertion adds `s` and keeps every other session. */
  lemma InsertByRecencyMembers(list: seq<ChatSession>, s: ChatSession)
    ensures forall x :: x in InsertByRecency(list, s) <==> x in list || x == s
  {
    var next := InsertByRecency(list, s);
    forall x ensures x in next <==> x in list || x == s {
      assert x in next <==> x in multiset(next);
      assert x in list <==> x in multiset(list);
    }
  }

  /** The sessions of `userId` in `sessions`, each once, most recently updated first. */
  method ListOwnedNewestFirst(sessions: map<nat, ChatSession>, userId: int) returns (list: seq<ChatSession>)
    requires forall k :: k in sessions ==> sessions[k].id == k
    ensures NewestFirstOrder(list)
    ensures DistinctIds(list)
    ensures forall s :: s in list <==> s.id in sessions && sessions[s.id] == s && s.userId == userId
  {
    list := [];
    var pending := sessions.Keys;
    while pending != {}
      invariant pending <= sessions.Keys
      invariant ListedExcept(list, sessions, userId, pending)
      decreases pending
    {
      var k :| k in pending;
      ListingStep(list, sessions, userId, pending, k);
      pending := pending - {k};
      if sessions[k].userId == userId {
        list := InsertByRecency(list, sessions[k]);
      }
    }
  }

  /** A session updated after every other one is the head of its owner's list. */
  lemma LatestUpdatedListedFirst(list: seq<ChatSession>, sessions: map<nat, ChatSession>, userId: int, latest: nat)
    requires NewestFirstOrder(list) && DistinctIds(list)
    requires forall s :: s in list <==> s.id in sessions && sessions[s.id] == s && s.userId == userId
    requires latest in sessions && sessions[latest].id == latest && sessions[latest].userId == userId
    requires forall k :: k in sessions && k != latest ==> sessions[k].updatedAt < sessions[latest].updatedAt
    ensures |list| > 0 && list[0] == sessions[latest]
  {
    var s := sessions[latest];
    assert s in list;
    var i :| 0 <= i < |list| && list[i] == s;
    assert list[0] in list;
  }

  // ---------------------------------------------------------------------
  // Login

  /** What the login handler answers for a users table and a request body. */
  function LoginResponse(users: seq<User>, ext: Externals, username: string, password: string): (r: Response)
    ensures r.status == 400 <==> username == "" || password == ""
    ensures r.status == 401 <==>
              (&& username != "" && password != ""
               && (FindUser(users, username).None?
                   || !ext.compare(password, FindUser(users, username).value.passwordHash)))
    ensures r.status == 401 ==> r.body == ErrorBody(ErrBadCredentials)
    ensures r.status == 200 ==> r.body.AuthBody? && r.body.user.username == username
    ensures r.status == 200 ==> && FindUser(users, username).Some?
                                && var u := FindUser(users, username).value;
                                   r.body == AuthBody(MsgLoggedIn, ext.sign(Claims(u.id, u.username)),
                                                      UserInfo(u.id, u.username, u.email))
    ensures r.status in {200, 400, 401}
  {
    if username == "" || password == "" then Response(400, ErrorBody(ErrLoginMissing))
    else
      match FindUser(users, username)
      case None => Response(401, ErrorBody(ErrBadCredentials))
      case Some(u) =>
        if !ext.compare(password, u.passwordHash) then Response(401, ErrorBody(ErrBadCredentials))
        else Response(200, AuthBody(MsgLoggedIn, ext.sign(Claims(u.id, u.username)),
                                    UserInfo(u.id, u.username, u.email)))
  }

  /** An unknown user name and a wrong password get the very same answer. */
  lemma LoginFailuresIndistinguishable(users: seq<User>, ext: Externals, unknown: string, known: string, password: string)
    requires unknown != "" && password != "" && FindUser(users, unknown).None?
    requires known != "" && FindUser(users, known).Some?
    requires !ext.compare(password, FindUser(users, known).value.passwordHash)
    ensures LoginResponse(users, ext, unknown, password) == LoginResponse(users, ext, known, password)
  {
  }

  /** A user who has just registered can log in with the same password and gets the registered id. */
  lemma RegisteredUserCanLogIn(users: seq<User>, ext: Externals, username: string, email: string,
                               password: string, now: nat)
    requires UsersValid(users, now)
    requires username != "" && email != "" && password != "" && !Taken(users, username, email)
    requires ext.compare(password, ext.hash(password))
    ensures var id := |users| + 1;
            LoginResponse(users + [User(id, username, email, ext.hash(password), now, now)], ext, username, password)
            == Response(200, AuthBody(MsgLoggedIn, ext.sign(Claims(id, username)), UserInfo(id, username, email)))
  {
    var u := User(|users| + 1, username, email, ext.hash(password), now, now);
    FindAppendedUser(users, u);
  }

  // ---------------------------------------------------------------------
  // The store

  datatype Tables = Tables(users: seq<User>, sessions: map<nat, ChatSession>, messages: seq<Message>)

  class Store {
    const ext: Externals
    var users: seq<User>
    var sessions: map<nat, ChatSession>
    var messages: seq<Message>
    var nextSessionId: nat
    var nextMessageId: nat
    var clock: nat
    /** Connections taken from the pool and not yet released. */
    var held: nat

    ghost predicate Valid()
      reads this
    {
      && nextSessionId > 0
      && UsersValid(users, clock)
      && SessionsValid(sessions, |users|, nextSessionId, clock)
      && MessagesValid(messages, sessions, nextMessageId, clock)
    }

    function Snapshot(): Tables
      reads this
    {
      Tables(users, sessions, messages)
    }

    /** The three tables after `initializeDatabase`, empty. */
    constructor (ext: Externals)
      ensures Valid()
      ensures this.ext == ext && Snapshot() == Tables([], map[], []) && held == 0
    {
      this.ext := ext;
      users, sessions, messages := [], map[], [];
      nextSessionId, nextMessageId, clock, held := 1, 1, 0, 0;
    }

    method Acquire()
      modifies this`held
      ensures held == old(held) + 1
    {
      held := held + 1;
    }

    method Release()
      requires held > 0
      modifies this`held
      ensures held == old(held) - 1
    {
      held := held - 1;
    }

    /** Reads CURRENT_TIMESTAMP: a time later than every earlier one. */
    method Now() returns (now: nat)
      modifies this`clock
      ensures now == old(clock) && clock == old(clock) + 1
    {
      now := clock;
      clock := clock + 1;
    }

    /** POST /api/register */
    method Register(username: string, email: string, password: string) returns (res: Response)
      requires Valid()
      modifies this
      ensures Valid() && held == old(held)
      ensures sessions == old(sessions) && messages == old(messages)
      ensures username == "" || email == "" || password == "" ==>
                res == Response(400, ErrorBody(ErrMissingFields)) && users == old(users)
      ensures username != "" && email != "" && password != "" && Taken(old(users), username, email) ==>
                res == Response(400, ErrorBody(ErrDuplicateUser)) && users == old(users)
      ensures username != "" && email != "" && password != "" && !Taken(old(users), username, email) ==>
                var id := |old(users)| + 1;
                && users == old(users) + [User(id, username, email, ext.hash(password), old(clock), old(clock))]
                && res == Response(201, AuthBody(MsgRegistered, ext.sign(Claims(id, username)),
                                                 UserInfo(id, username, email)))
    {
      if username == "" || email == "" || password == "" {
        return Response(400, ErrorBody(ErrMissingFields));
      }
      Acquire();
      if Taken(users, username, email) {
        Release();
        return Response(400, ErrorBody(ErrDuplicateUser));
      }
      var hashed := ext.hash(password);
      var now := Now();
      var id := |users| + 1;
      var u := User(id, username, email, hashed, now, now);
      UsersAppendValid(users, u, now);
      SessionsValidLater(sessions, |users|, |users| + 1, nextSessionId, nextSessionId, now, clock);
      MessagesValidLater(messages, sessions, sessions, nextMessageId, now, clock);
      users := users + [u];
      Release();
      var token := ext.sign(Claims(id, username));
      res := Response(201, AuthBody(MsgRegistered, token, UserInfo(id, username, email)));
    }

    /** POST /api/login */
    method Login(username: string, password: string) returns (res: Response)
      requires Valid()
      modifies this`held
      ensures held == old(held)
      ensures res == LoginResponse(users, ext, username, password)
    {
      if username == "" || password == "" {
        return Response(400, ErrorBody(ErrLoginMissing));
      }
      Acquire();
      var found := FindUser(users, username);
      Release();
      if found.None? {
        return Response(401, ErrorBody(ErrBadCredentials));
      }
      var u := found.value;
      if !ext.compare(password, u.passwordHash) {
        return Response(401, ErrorBody(ErrBadCredentials));
      }
      var token := ext.sign(Claims(u.id, u.username));
      res := Response(200, AuthBody(MsgLoggedIn, token, UserInfo(u.id, u.username, u.email)));
    }

    /** GET /api/chat-sessions */
    method ListSessions(authorization: Option<string>) returns (res: Response)
      requires Valid()
      modifies this`held
      ensures held == old(held)
      ensures AuthenticateToken(authorization, ext.verify).Reject? ==>
                res == AuthenticateToken(authorization, ext.verify).response
      ensures AuthenticateToken(authorization, ext.verify).Admit? ==>
                var caller := AuthenticateToken(authorization, ext.verify).caller;
                && res.status == 200 && res.body.SessionsBody?
                && NewestFirstOrder(res.body.sessions) && DistinctIds(res.body.sessions)
                && forall s :: s in res.body.sessions <==>
                     s.id in sessions && sessions[s.id] == s && s.userId == caller.userId
    {
      var gate := AuthenticateToken(authorization, ext.verify);
      if gate.Reject? {
        return gate.response;
      }
      Acquire();
      var list := ListOwnedNewestFirst(sessions, gate.caller.userId);
      Release();
      res := Response(200, SessionsBody(list));
    }

    /** POST /api/chat-sessions */
    method CreateSession(authorization: Option<string>, title: string) returns (res: Response)
      requires Valid()
      modifies this
      ensures Valid() && users == old(users) && messages == old(messages)
      ensures AuthenticateToken(authorization, ext.verify).Reject? ==>
                res == AuthenticateToken(authorization, ext.verify).response
                && sessions == old(sessions) && held == old(held)
      ensures AuthenticateToken(authorization, ext.verify).Admit? ==>
                var caller := AuthenticateToken(authorization, ext.verify).caller;
                if 1 <= caller.userId <= |users| then
                  var id := old(nextSessionId);
                  && id !in old(sessions)
                  && sessions == old(sessions)[id := ChatSession(id, caller.userId, TitleOrDefault(title),
                                                                 old(clock), old(clock))]
                  && res == Response(201, CreatedSession(id, TitleOrDefault(title)))
                  && held == old(held)
                else
                  // the foreign key rejects the insert; the catch block answers 500 without releasing
                  && sessions == old(sessions)
                  && res == Response(500, ErrorBody(ErrServer))
                  && held == old(held) + 1
    {
      var gate := AuthenticateToken(authorization, ext.verify);
      if gate.Reject? {
        return gate.response;
      }
      Acquire();
      var userId := gate.caller.userId;
      if !(1 <= userId <= |users|) {
        return Response(500, ErrorBody(ErrServer));
      }
      var id := nextSessionId;
      var now := Now();
      var effective := TitleOrDefault(title);
      sessions := sessions[id := ChatSession(id, userId, effective, now, now)];
      nextSessionId := nextSessionId + 1;
      Release();
      res := Response(201, CreatedSession(id, effective));
    }

    /** PUT /api/chat-sessions/:sessionId */
    method RenameSession(authorization: Option<string>, sessionId: int, title: string) returns (res: Response)
      requires Valid()
      modifies this
      ensures Valid() && held == old(held) && users == old(users) && messages == old(messages)
      ensures AuthenticateToken(authorization, ext.verify).Reject? ==>
                res == AuthenticateToken(authorization, ext.verify).response && sessions == old(sessions)
      ensures AuthenticateToken(authorization, ext.verify).Admit? ==>
                var caller := AuthenticateToken(authorization, ext.verify).caller;
                if Owns(old(sessions), sessionId, caller) then
                  var s := old(sessions)[sessionId];
                  && res == Response(200, NoticeBody(MsgRenamed))
                  // ON UPDATE CURRENT_TIMESTAMP fires only when the title actually changes
                  && sessions == old(sessions)[sessionId := s.(title := title,
                                  updatedAt := if title != s.title then old(clock) else s.updatedAt)]
                else
                  res == Response(404, ErrorBody(ErrSessionNotFound)) && sessions == old(sessions)
    {
      var gate := AuthenticateToken(authorization, ext.verify);
      if gate.Reject? {
        return gate.response;
      }
      Acquire();
      if !Owns(sessions, sessionId, gate.caller) {
        Release();
        return Response(404, ErrorBody(ErrSessionNotFound));
      }
      var s := sessions[sessionId];
      if title != s.title {
        var now := Now();
        sessions := sessions[sessionId := s.(title := title, updatedAt := now)];
      } else {
        sessions := sessions[sessionId := s.(title := title)];
      }
      Release();
      res := Response(200, NoticeBody(MsgRenamed));
    }

    /** DELETE /api/chat-sessions/:sessionId; the messages go with the session. */
    method DeleteSession(authorization: Option<string>, sessionId: int) returns (res: Response)
      requires Valid()
      modifies this
      ensures Valid() && held == old(held) && users == old(users)
      ensures AuthenticateToken(authorization, ext.verify).Reject? ==>
                res == AuthenticateToken(authorization, ext.verify).response && Snapshot() == old(Snapshot())
      ensures AuthenticateToken(authorization, ext.verify).Admit? ==>
                var caller := AuthenticateToken(authorization, ext.verify).caller;
                if Owns(old(sessions), sessionId, caller) then
                  && res == Response(200, NoticeBody(MsgDeleted))
                  && sessions == old(sessions) - {sessionId as nat}
                  && messages == Without(old(messages), sessionId as nat)
                else
                  res == Response(404, ErrorBody(ErrSessionNotFound)) && Snapshot() == old(Snapshot())
    {
      var gate := AuthenticateToken(authorization, ext.verify);
      if gate.Reject? {
        return gate.response;
      }
      Acquire();
      if !Owns(sessions, sessionId, gate.caller) {
        Release();
        return Response(404, ErrorBody(ErrSessionNotFound));
      }
      var sid := sessionId as nat;
      WithoutKeepsOrder(messages, sid);
      sessions := sessions - {sid};
      messages := Without(messages, sid);
      Release();
      res := Response(200, NoticeBody(MsgDeleted));
    }

    /** GET /api/chat-sessions/:sessionId/messages */
    method ListMessages(authorization: Option<string>, sessionId: int) returns (res: Response)
      requires Valid()
      modifies this`held
      ensures held == old(held)
      ensures AuthenticateToken(authorization, ext.verify).Reject? ==>
                res == AuthenticateToken(authorization, ext.verify).response
      ensures AuthenticateToken(authorization, ext.verify).Admit? ==>
                var caller := AuthenticateToken(authorization, ext.verify).caller;
                if Owns(sessions, sessionId, caller) then
                  && res == Response(200, MessagesBody(Views(MessagesOf(messages, sessionId as nat), ext.parse)))
                  && Ascending(MessagesOf(messages, sessionId as nat))
                else
                  res == Response(404, ErrorBody(ErrSessionNotFound))
    {
      var gate := AuthenticateToken(authorization, ext.verify);
      if gate.Reject? {
        return gate.response;
      }
      Acquire();
      if !Owns(sessions, sessionId, gate.caller) {
        Release();
        return Response(404, ErrorBody(ErrSessionNotFound));
      }
      var rows := MessagesOf(messages, sessionId as nat);
      MessagesOfAscending(messages, sessionId as nat);
      var parsed := Views(rows, ext.parse);
      Release();
      res := Response(200, MessagesBody(parsed));
    }

    /** POST /api/chat-sessions/:sessionId/messages */
    method AppendMessage(authorization: Option<string>, sessionId: int, sender: Sender, text: string,
                         data: Option<Json>) returns (res: Response)
      requires Valid()
      modifies this
      ensures Valid() && held == old(held) && users == old(users)
      ensures AuthenticateToken(authorization, ext.verify).Reject? ==>
                res == AuthenticateToken(authorization, ext.verify).response && Snapshot() == old(Snapshot())
      ensures AuthenticateToken(authorization, ext.verify).Admit? ==>
                var caller := AuthenticateToken(authorization, ext.verify).caller;
                if Owns(old(sessions), sessionId, caller) then
                  var sid := sessionId as nat;
                  var m := Message(old(nextMessageId), sid, sender, text, StoredData(data, ext.stringify), old(clock));
                  && res == Response(201, CreatedMessage(m.id))
                  && messages == old(messages) + [m]
                  && (forall i :: 0 <= i < |old(messages)| ==> old(messages)[i].id != m.id)
                  && sessions == old(sessions)[sid := old(sessions)[sid].(updatedAt := old(clock))]
                  && (forall k :: k in sessions && k != sid ==> sessions[k].updatedAt < sessions[sid].updatedAt)
                else
                  res == Response(404, ErrorBody(ErrSessionNotFound)) && Snapshot() == old(Snapshot())
    {
      var gate := AuthenticateToken(authorization, ext.verify);
      if gate.Reject? {
        return gate.response;
      }
      res := AppendOwned(gate.caller, sessionId, sender, text, data);
    }

    /** The append route past the gate: the ownership check, the insert and the session touch. */
    method AppendOwned(caller: Claims, sessionId: int, sender: Sender, text: string, data: Option<Json>)
      returns (res: Response)
      requires Valid()
      modifies this
      ensures Valid() && held == old(held) && users == old(users)
      ensures if Owns(old(sessions), sessionId, caller) then
                var sid := sessionId as nat;
                var m := Message(old(nextMessageId), sid, sender, text, StoredData(data, ext.stringify), old(clock));
                && res == Response(201, CreatedMessage(m.id))
                && messages == old(messages) + [m]
                && (forall i :: 0 <= i < |old(messages)| ==> old(messages)[i].id != m.id)
                && sessions == old(sessions)[sid := old(sessions)[sid].(updatedAt := old(clock))]
                && (forall k :: k in sessions && k != sid ==> sessions[k].updatedAt < sessions[sid].updatedAt)
              else
                res == Response(404, ErrorBody(ErrSessionNotFound)) && Snapshot() == old(Snapshot())
    {
      Acquire();
      if !Owns(sessions, sessionId, caller) {
        Release();
        return Response(404, ErrorBody(ErrSessionNotFound));
      }
      var sid := sessionId as nat;
      var now := Now();
      var m := Message(nextMessageId, sid, sender, text, StoredData(data, ext.stringify), now);
      UsersValidLater(users, now, clock);
      MessageAppendValid(messages, sessions, nextMessageId, now, m);
      TouchSessionValid(sessions, |users|, nextSessionId, now, sid);
      MessagesValidLater(messages + [m], sessions, sessions[sid := sessions[sid].(updatedAt := now)],
                         nextMessageId + 1, clock, clock);
      messages := messages + [m];
      nextMessageId := nextMessageId + 1;
      sessions := sessions[sid := sessions[sid].(updatedAt := now)];
      Release();
      res := Response(201, CreatedMessage(m.id));
    }
  }

  /** The cascade keeps the surviving rows in insertion order. */
  lemma {:induction false} WithoutKeepsOrder(ms: seq<Message>, sessionId: nat)
    requires InsertionOrdered(ms)
    ensures InsertionOrdered(Without(ms, sessionId))
  {
    if ms != [] {
      WithoutKeepsOrder(ms[1..], sessionId);
      var rest := Without(ms[1..], sessionId);
      forall m | m in rest ensures ms[0].id < m.id && ms[0].timestamp < m.timestamp {
        assert m in ms[1..];
      }
    }
  }
}
