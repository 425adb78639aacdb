/** The per-connection side of the server. Each open connection carries the
    username it logged in as, if any (the selection key's attachment). A
    request is parsed, run by the executor under that identity, and the
    identity is then updated from the command and the executor's reply: a
    `login` whose reply holds no space is taken to have succeeded, so its
    reply becomes the identity and the client is sent "Welcome" instead;
    a `logout` drops the identity whatever the reply was. */
module ConnectionServer {
  import opened Results
  import opened JavaText
  import opened Platform
  import opened Commands
  import opened CommandParser
  import opened CommandValidator
  import opened AssetStorage
  import opened UserStorage
  import opened Executor

  const Welcome: string := "Welcome"

  /** The identity a connection keeps after a request, and the text sent back. */
  datatype Turn = Turn(identity: Option<string>, sent: string)

  /** The identity update at the end of `read`. */
  function SessionStep(identity: Option<string>, c: Command, response: string): Turn {
    if identity.None? && c.name == LogIn && ' ' !in response then Turn(Some(response), Welcome)
    else if c.name == LogOut then Turn(None, response)
    else Turn(identity, response)
  }

  /** The identity changes only by a `login` from a connection without one,
      which takes the reply as the identity and answers "Welcome", or by a
      `logout`, which clears it; every other reply is sent as it is, and
      every other command keeps the identity. */
  lemma SessionRules(identity: Option<string>, c: Command, response: string)
    ensures var t := SessionStep(identity, c, response);
      && (t.identity != identity ==>
            || (identity.None? && c.name == LogIn && t.identity == Some(response) && t.sent == Welcome)
            || (c.name == LogOut && t.identity.None?))
      && (t.sent != response ==> identity.None? && c.name == LogIn && t.identity == Some(response))
      && (c.name == LogOut ==> t == Turn(None, response))
      && (identity.Some? && c.name != LogOut ==> t == Turn(identity, response))
      && (c.name != LogIn && c.name != LogOut ==> t == Turn(identity, response))
      && (identity.None? && c.name == LogIn ==> (t.identity.Some? <==> ' ' !in response))
  {
  }

  /** The arguments of a parsed `login` hold no space. */
  lemma ParsedLogInArguments(request: string)
    requires Parse(request).name == LogIn
    ensures forall i :: 0 <= i < |Parse(request).arguments| ==> ' ' !in Parse(request).arguments[i]
  {
    if Trim(request) == [] {
      ParseTrimsToNothing(request);
    } else {
      ParseTokens(request);
      var c := Parse(request);
      var ts := Tokens(c);
      forall i | 0 <= i < |c.arguments|
        ensures ' ' !in c.arguments[i]
      {
        assert c.arguments[i] == ts[i + 1];
        assert SpaceFree(ts[i + 1]);
      }
    }
  }

  /** On a connection without an identity, a command gives the connection
      an identity exactly when it is a `login` with two arguments naming an
      account whose password hash matches; the identity is then that
      username, the client is sent "Welcome" and nothing is changed. Every
      failed login reply holds a space, so it cannot pass for a username;
      the username itself must hold none, as a parsed one does. */
  lemma LogInIdentity(p: Platform, outcomes: nat -> Fetch, w: World, c: Command, now: int, salt: string)
    requires Setting(p, outcomes) && Sound(w)
    requires c.name == LogIn && |c.arguments| == 2 ==> ' ' !in c.arguments[0]
    ensures var a := Execution(p, outcomes, w, None, c, now, salt);
      var t := SessionStep(None, c, a.response);
      && (t.identity.Some? <==>
            && c.name == LogIn && |c.arguments| == 2 && c.arguments[0] in w.accounts
            && p.check(c.arguments[1], w.accounts[c.arguments[0]].password))
      && (t.identity.Some? ==> t == Turn(Some(c.arguments[0]), Welcome) && a.world == w)
  {
    if c.name == LogIn {
      if Validate(false, c).Some? {
        FixedReplies(p, outcomes, w, None, c, now, salt);
        MessagesHaveSpace(false, c);
        ValidIff(false, c);
      } else {
        ValidIff(false, c);
        assert c == Command(LogIn, [c.arguments[0], c.arguments[1]]);
        LogInReplies(p, outcomes, w, None, c.arguments[0], c.arguments[1], now, salt);
        assert BadCredentials[9] == ' ';
      }
    }
  }

  /** The same for a request line as the connection delivered it. */
  lemma RequestLogInIdentity(p: Platform, outcomes: nat -> Fetch, w: World, request: string, now: int, salt: string)
    requires Setting(p, outcomes) && Sound(w)
    ensures var c := Parse(request);
      var t := SessionStep(None, c, Execution(p, outcomes, w, None, c, now, salt).response);
      t.identity.Some? <==>
        && c.name == LogIn && |c.arguments| == 2 && c.arguments[0] in w.accounts
        && p.check(c.arguments[1], w.accounts[c.arguments[0]].password)
  {
    var c := Parse(request);
    if c.name == LogIn {
      ParsedLogInArguments(request);
    }
    LogInIdentity(p, outcomes, w, c, now, salt);
  }

  /** An identity, once held, names an account: accounts are never removed,
      and a connection only takes on a username that `login` accepted. */
  lemma IdentityStaysKnown(p: Platform, outcomes: nat -> Fetch, w: World, identity: Option<string>,
                           c: Command, now: int, salt: string)
    requires Setting(p, outcomes) && Sound(w)
    requires identity.Some? ==> identity.value in w.accounts
    ensures var a := Execution(p, outcomes, w, identity, c, now, salt);
      var t := SessionStep(identity, c, a.response);
      && w.accounts.Keys <= a.world.accounts.Keys
      && (t.identity.Some? ==> t.identity.value in a.world.accounts)
  {
    AccountsNeverRemoved(p, outcomes, w, identity, c, now, salt);
    if identity.None? && c.name == LogIn {
      LogInNamesAccount(p, outcomes, w, c, now, salt);
    }
  }

  /** A connection without an identity takes on only a username that names
      an account. */
  lemma LogInNamesAccount(p: Platform, outcomes: nat -> Fetch, w: World, c: Command, now: int, salt: string)
    requires Setting(p, outcomes) && Sound(w) && c.name == LogIn
    ensures var t := SessionStep(None, c, Execution(p, outcomes, w, None, c, now, salt).response);
      t.identity.Some? ==> t.identity.value in w.accounts
  {
    if Validate(false, c).Some? {
      FixedReplies(p, outcomes, w, None, c, now, salt);
      MessagesHaveSpace(false, c);
    } else {
      ValidIff(false, c);
      assert c == Command(LogIn, [c.arguments[0], c.arguments[1]]);
      LogInReplies(p, outcomes, w, None, c.arguments[0], c.arguments[1], now, salt);
      assert BadCredentials[9] == ' ';
    }
  }

  /** Whatever changes outside the executor's store, cache, service and
      wallets leaves the executor as it was. */
  twostate lemma ExecutorKept(e: CommandExecutor)
    requires unchanged(e.store, e.cache, e.cache.feed)
    requires forall k :: k in e.store.users ==> unchanged(e.store.users[k].wallet)
    ensures e.View() == old(e.View())
    ensures old(e.Valid()) ==> e.Valid()
  {
    assert e.store.Accounts() == old(e.store.Accounts());
  }

  /** The accounts are those the store files. */
  lemma AccountKeys(store: UserStore)
    ensures store.Accounts().Keys == store.users.Keys
  {
  }

  /** The server is none of the executor's objects. */
  lemma NotOfExecutor(s: Server, e: CommandExecutor)
    ensures s as object !in e.Repr()
  {
  }

  class Server {
    const executor: CommandExecutor
    /** The identity attached to each open connection. */
    var sessions: map<nat, Option<string>>

    /** The executor is sound and every identity names a stored account. */
    ghost predicate Valid()
      reads this, executor.store, executor.store.OwnedWallets(), executor.cache, executor.cache.feed
    {
      && executor.Valid()
      && forall k :: k in sessions && sessions[k].Some? ==> sessions[k].value in executor.store.users
    }

    constructor (executor: CommandExecutor)
      requires executor.Valid()
      ensures this.executor == executor && sessions == map[]
      ensures Valid()
    {
      this.executor := executor;
      sessions := map[];
      ExecutorKept(executor);
    }

    /** `accept`: a new connection, registered with no identity. */
    method Accept(conn: nat)
      requires Valid()
      modifies this
      ensures sessions == old(sessions)[conn := None]
      ensures Valid()
    {
      Attach(conn, None);
    }

    /** `key.attach(identity)`: nothing but the connection's identity changes. */
    method Attach(conn: nat, identity: Option<string>)
      modifies this
      ensures sessions == old(sessions)[conn := identity]
      ensures executor.View() == old(executor.View()) && executor.store.users == old(executor.store.users)
      ensures old(executor.Valid()) ==> executor.Valid()
    {
      sessions := sessions[conn := identity];
      ExecutorKept(executor);
    }

    /** `read`: `request` is what the connection delivered, `None` at the end
        of its stream, which closes the connection and runs nothing. */
    method Read(conn: nat, request: Option<string>, now: int, salt: string) returns (sent: Option<string>)
      requires Valid() && conn in sessions
      modifies this, executor.Repr()
      ensures request.None? ==>
        && sent.None? && sessions == old(sessions) - {conn} && executor.View() == old(executor.View())
      ensures request.Some? ==>
        var c := Parse(request.value);
        var a := Execution(executor.platform, executor.cache.feed.outcomes, old(executor.View()),
                           old(sessions)[conn], c, now, salt);
        var t := SessionStep(old(sessions)[conn], c, a.response);
        && executor.View() == a.world && sessions == old(sessions)[conn := t.identity] && sent == Some(t.sent)
      ensures Valid()
    {
      if request.None? {
        sessions := sessions - {conn};
        ExecutorKept(executor);
        return None;
      }
      var response := Respond(conn, request.value, now, salt);
      return Some(response);
    }

    /** The rest of `read` once a request has arrived: parse, execute under
        the connection's identity, update the identity, answer. */
    method Respond(conn: nat, request: string, now: int, salt: string) returns (sent: string)
      requires Valid() && conn in sessions
      modifies this, executor.Repr()
      ensures var c := Parse(request);
        var a := Execution(executor.platform, executor.cache.feed.outcomes, old(executor.View()),
                           old(sessions)[conn], c, now, salt);
        var t := SessionStep(old(sessions)[conn], c, a.response);
        && executor.View() == a.world && sessions == old(sessions)[conn := t.identity] && sent == t.sent
      ensures Valid()
    {
      NotOfExecutor(this, executor);
      AccountKeys(executor.store);
      var identity := sessions[conn];
      var c := Parse(request);
      var response := executor.Execute(identity, c, now, salt);
      IdentityStaysKnown(executor.platform, executor.cache.feed.outcomes, old(executor.View()), identity, c, now, salt);
      var t := SessionStep(identity, c, response);
      AccountKeys(executor.store);
      Attach(conn, t.identity);
      return t.sent;
    }
  }
}
