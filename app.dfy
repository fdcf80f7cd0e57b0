/**
 * The top of the client, App.js: the signed-in state (`token`, `user`,
 * `isAuthenticated`), the two localStorage keys that carry it across
 * reloads, and which screen is shown.
 */
module App {
  import opened Wrappers
  import Server
  import ClientApi

  const TokenKey: string := "token"
  const UserKey: string := "user"

  /**
   * JSON.stringify and JSON.parse on the stored user. `parse` takes the
   * result of `getItem` (None for a missing key) and gives None for a
   * value that parses to null.
   */
  datatype UserCodec = UserCodec(stringify: Server.UserInfo -> string, parse: Option<string> -> Option<Server.UserInfo>)

  /** Parsing what was stringified gives the user back. */
  ghost predicate CodecInverse(codec: UserCodec) {
    forall u :: codec.parse(Some(codec.stringify(u))) == Some(u)
  }

  /** The part of a login or register answer the App keeps. */
  datatype AuthReply = AuthReply(token: string, user: Server.UserInfo)

  datatype Screen = AuthScreen | ChatScreen

  function Lookup(storage: map<string, string>, key: string): Option<string> {
    if key in storage then Some(storage[key]) else None
  }

  /** The user the auto-login effect restores from storage: needs a truthy token and a non-null user. */
  function RestoredUser(storage: map<string, string>, codec: UserCodec): (r: Option<Server.UserInfo>)
    ensures r.Some? ==> TokenKey in storage && storage[TokenKey] != ""
    ensures TokenKey !in storage || storage[TokenKey] == "" ==> r.None?
  {
    var token := Lookup(storage, TokenKey);
    if token.Some? && token.value != "" then codec.parse(Lookup(storage, UserKey)) else None
  }

  /** Storage after a sign-in: both keys written. */
  function Persisted(storage: map<string, string>, reply: AuthReply, codec: UserCodec): (r: map<string, string>)
    ensures r.Keys == storage.Keys + {TokenKey, UserKey}
    ensures r[TokenKey] == reply.token && r[UserKey] == codec.stringify(reply.user)
    ensures forall k :: k in storage && k != TokenKey && k != UserKey ==> r[k] == storage[k]
  {
    storage[TokenKey := reply.token][UserKey := codec.stringify(reply.user)]
  }

  /** Storage after a sign-out: both keys removed. */
  function Cleared(storage: map<string, string>): (r: map<string, string>)
    ensures r.Keys == storage.Keys - {TokenKey, UserKey}
    ensures forall k :: k in r ==> r[k] == storage[k]
  {
    storage - {TokenKey, UserKey}
  }

  /** A sign-in survives a reload: the stored session is restored to the same user. */
  lemma SignInSurvivesReload(storage: map<string, string>, reply: AuthReply, codec: UserCodec)
    requires CodecInverse(codec) && reply.token != ""
    ensures RestoredUser(Persisted(storage, reply, codec), codec) == Some(reply.user)
  {
    var s := Persisted(storage, reply, codec);
    assert Lookup(s, UserKey) == Some(codec.stringify(reply.user));
  }

  /** After a sign-out a reload restores nobody. */
  lemma SignOutSurvivesReload(storage: map<string, string>, codec: UserCodec)
    ensures RestoredUser(Cleared(storage), codec) == None
  {
    assert TokenKey !in Cleared(storage);
  }

  class AppSession {
    const codec: UserCodec
    var storage: map<string, string>
    var token: Option<string>
    var user: Option<Server.UserInfo>
    var isAuthenticated: bool

    /** The first render: the token read from storage, nobody signed in yet. */
    constructor (stored: map<string, string>, codec: UserCodec)
      ensures this.codec == codec && storage == stored
      ensures token == Lookup(stored, TokenKey) && user == None && !isAuthenticated
    {
      this.codec := codec;
      storage := stored;
      token := Lookup(stored, TokenKey);
      user := None;
      isAuthenticated := false;
    }

    /** Which screen renders: Chat exactly when signed in. */
    function View(): (s: Screen)
      reads this
      ensures s == ChatScreen <==> isAuthenticated
    {
      if isAuthenticated then ChatScreen else AuthScreen
    }

    /** The headers of this component's `apiCall`, built from the `token` state. */
    function Headers(): (h: map<string, string>)
      reads this
      ensures "Authorization" in h <==> token.Some? && token.value != ""
    {
      ClientApi.RequestHeaders(token)
    }

    /** The effect that runs on `token`: a truthy token and a stored user sign the user in. */
    method AutoLogin()
      modifies this
      ensures storage == old(storage) && token == old(token)
      ensures var restored := if token.Some? && token.value != "" then codec.parse(Lookup(storage, UserKey)) else None;
        && (restored.Some? ==> isAuthenticated && user == restored)
        && (restored.None? ==> isAuthenticated == old(isAuthenticated) && user == old(user))
    {
      if token.Some? && token.value != "" {
        var userData := codec.parse(Lookup(storage, UserKey));
        if userData.Some? {
          isAuthenticated := true;
          user := userData;
        }
      }
    }

    /** Both handlers' shared success path: store, then set the three fields. */
    method SignIn(reply: AuthReply)
      modifies this
      ensures storage == Persisted(old(storage), reply, codec)
      ensures token == Some(reply.token) && user == Some(reply.user) && isAuthenticated
    {
      storage := storage[TokenKey := reply.token];
      storage := storage[UserKey := codec.stringify(reply.user)];
      token := Some(reply.token);
      user := Some(reply.user);
      isAuthenticated := true;
    }

    /**
     * `handleLogin`. `outcome` is what the login call resolves to, or the
     * message it throws; `thrown` is the error passed on to the caller.
     */
    method HandleLogin(outcome: Result<AuthReply, string>) returns (thrown: Option<string>)
      modifies this
      ensures outcome.Success? ==>
        && thrown.None? && storage == Persisted(old(storage), outcome.value, codec)
        && token == Some(outcome.value.token) && user == Some(outcome.value.user) && isAuthenticated
      ensures outcome.Failure? ==>
        && thrown == Some(outcome.error) && storage == old(storage)
        && token == old(token) && user == old(user) && isAuthenticated == old(isAuthenticated)
    {
      if outcome.Failure? {
        return Some(outcome.error);
      }
      SignIn(outcome.value);
      thrown := None;
    }

    /** `handleRegister`: the same success and failure paths as sign-in. */
    method HandleRegister(outcome: Result<AuthReply, string>) returns (thrown: Option<string>)
      modifies this
      ensures outcome.Success? ==>
        && thrown.None? && storage == Persisted(old(storage), outcome.value, codec)
        && token == Some(outcome.value.token) && user == Some(outcome.value.user) && isAuthenticated
      ensures outcome.Failure? ==>
        && thrown == Some(outcome.error) && storage == old(storage)
        && token == old(token) && user == old(user) && isAuthenticated == old(isAuthenticated)
    {
      if outcome.Failure? {
        return Some(outcome.error);
      }
      SignIn(outcome.value);
      thrown := None;
    }

    /** `handleLogout`: both keys removed, all three fields reset. */
    method HandleLogout()
      modifies this
      ensures storage == Cleared(old(storage))
      ensures token == None && user == None && !isAuthenticated
    {
      storage := storage - {TokenKey, UserKey};
      token := None;
      user := None;
      isAuthenticated := false;
    }
  }
}
