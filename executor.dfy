/** Running one parsed command on behalf of a connection: the user the
    connection is logged in as (if any) is looked up, the validator may
    reject the command with its message, and otherwise the command's handler
    runs. Every exception a handler raises becomes the reply: a number that
    does not parse is "Invalid argument. Only numbers allowed", any other
    failure is its message. */
module Executor {
  import opened Results
  import opened JavaText
  import opened Platform
  import opened Commands
  import opened CommandValidator
  import opened Assets
  import opened Wallets
  import opened Users
  import opened UserStorage
  import opened AssetStorage

  const InvalidNumber: string := "Invalid argument. Only numbers allowed"
  const BadCredentials: string := "Incorrect username or password"
  const NewUserCreated: string := "New user created"
  const LoggedOut: string := "Logged out successfully"
  const Goodbye: string := "Goodbye"
  const UnknownCommand: string := "Unknown command"

  /** How a handler can fail: `NumberFormatException`, or any other
      exception, which carries its message. */
  datatype Fault = NumberFormat | Failure(message: string)

  /** What `execute` answers for a handler's result. */
  function Reply(r: Result<string, Fault>): string {
    match r
    case Ok(s) => s
    case Err(NumberFormat) => InvalidNumber
    case Err(Failure(m)) => m
  }

  /** Everything a command can read or change: the accounts, how many times
      they were saved, and the asset cache (with its count of requests). */
  datatype World = World(accounts: map<string, UserRecord>, writes: nat, cache: CacheState)

  /** A handler's result and the world it leaves. */
  datatype Outcome = Outcome(world: World, result: Result<string, Fault>)

  /** `execute`'s reply and the world it leaves. */
  datatype Answer = Answer(world: World, response: string)

  /** What holds of the world between commands: each account is filed under
      its own username and has a healthy wallet, and the cache is filed by id
      with every price above zero. */
  ghost predicate Sound(w: World) {
    && (forall k :: k in w.accounts ==> w.accounts[k].username == k && Healthy(w.accounts[k].wallet))
    && CacheSound(w.cache)
  }

  /** What the handlers may assume of the platform and the service. */
  ghost predicate Setting(p: Platform, outcomes: nat -> Fetch) {
    Lawful(p) && FeedPositive(outcomes)
  }

  /** The handlers' assumptions can be met: the sample platform with a
      service that always answers one bitcoin at price 1, and an empty
      store beside an empty cache. */
  lemma SettingCanHold()
    ensures Setting(SamplePlatform(), n => Fetched([Asset("BTC", "Bitcoin", true, 1.0)]))
    ensures Sound(World(map[], 0, CacheState(map[], None, 30, 150, 0)))
  {
    SampleIsLawful();
  }

  // ---------------------------------------------------------------------
  // the handlers, each a function of the world

  /** `signUp`: the password is stored hashed with a fresh salt, and the new
      account is not saved to the file (`add` does not persist). */
  function SignUpStep(p: Platform, w: World, args: seq<string>, salt: string): Outcome
    requires |args| == 2
  {
    if args[0] in w.accounts then Outcome(w, Err(Failure(StoreMessage(UsernameTaken))))
    else
      var u := UserRecord(args[0], p.hash(args[1], salt), NewWallet);
      Outcome(w.(accounts := w.accounts[args[0] := u]), Ok(NewUserCreated))
  }

  /** `logIn`: the username itself on success. */
  function LogInStep(p: Platform, w: World, args: seq<string>): Outcome
    requires |args| == 2
  {
    if args[0] !in w.accounts || !p.check(args[1], w.accounts[args[0]].password) then
      Outcome(w, Ok(BadCredentials))
    else Outcome(w, Ok(args[0]))
  }

  /** `"%s: %f"` of an asset's id and price. */
  function AssetLine(p: Platform, a: Asset): string {
    a.id + ": " + p.plain(a.price)
  }

  function AssetLines(p: Platform, assets: seq<Asset>): seq<string> {
    seq(|assets|, i requires 0 <= i < |assets| => AssetLine(p, assets[i]))
  }

  /** `list`: one line per cached asset. */
  function ListStep(p: Platform, outcomes: nat -> Fetch, w: World, now: int): Outcome
    requires Lawful(p)
  {
    var r := ListAssets(p, w.cache, outcomes, now);
    var w1 := w.(cache := r.state);
    if r.result.Err? then Outcome(w1, Err(Failure(CacheMessage(p, r.result.error))))
    else Outcome(w1, Ok(Join(AssetLines(p, r.result.value), '\n')))
  }

  /** `userStorage.update(user)` after the wallet became `v`: the account is
      replaced and every account is written out. */
  function Save(w: World, u: UserRecord, v: WalletState): World {
    w.(accounts := w.accounts[u.username := u.(wallet := v)], writes := w.writes + 1)
  }

  /** The end of `deposit`, `buy` and `sell`: a refused wallet operation
      is reported by its message and changes nothing; a successful one is
      saved, and the reply ends in the new balance. */
  function Settle(p: Platform, w: World, u: UserRecord, r: Result<WalletState, WalletError>,
                  text: string): Outcome
  {
    match r
    case Err(e) => Outcome(w, Err(Failure(WalletMessage(e))))
    case Ok(v) => Outcome(Save(w, u, v), Ok(text + p.show(v.balance)))
  }

  function DepositStep(p: Platform, w: World, u: UserRecord, args: seq<string>): Outcome
    requires |args| == 1
  {
    match p.parse(args[0])
    case None => Outcome(w, Err(NumberFormat))
    case Some(cash) => Settle(p, w, u, DepositTo(u.wallet, cash), "Money successfully deposited. Current balance: ")
  }

  /** `buy`: the amount is read before the cache is consulted; the asset is
      bought at its cached price. */
  function BuyStep(p: Platform, outcomes: nat -> Fetch, w: World, u: UserRecord, args: seq<string>,
                   now: int): Outcome
    requires FeedPositive(outcomes) && CacheSound(w.cache) && |args| == 2
  {
    match p.parse(args[1])
    case None => Outcome(w, Err(NumberFormat))
    case Some(money) =>
      var a := LookupAsset(w.cache, outcomes, now, args[0]);
      var w1 := w.(cache := a.state);
      if a.result.Err? then Outcome(w1, Err(Failure(CacheMessage(p, a.result.error))))
      else
        LookupKeepsSound(w.cache, outcomes, now, args[0]);
        var asset := a.result.value;
        Settle(p, w1, u, BuyInto(u.wallet, args[0], money, asset.price), asset.name + " bought. Balance left: ")
  }

  /** `sell`: the asset is looked up in the cache before the wallet is. */
  function SellStep(p: Platform, outcomes: nat -> Fetch, w: World, u: UserRecord, args: seq<string>,
                    now: int): Outcome
    requires |args| == 1
  {
    var a := LookupAsset(w.cache, outcomes, now, args[0]);
    var w1 := w.(cache := a.state);
    if a.result.Err? then Outcome(w1, Err(Failure(CacheMessage(p, a.result.error))))
    else
      var asset := a.result.value;
      Settle(p, w1, u, SellOut(u.wallet, args[0], asset.price), asset.name + " sold. Current balance: ")
  }

  /** Prices for a wallet's holdings, asked for in the order of its map,
      price every holding. */
  lemma HoldingsPriced(p: Platform, s: CacheState, outcomes: nat -> Fetch, now: int, v: WalletState)
    requires Lawful(p)
    ensures var r := LookupPrices(s, outcomes, now, Investments(p, v));
      r.result.Ok? ==> Priced(v, r.result.value) && forall k :: k in r.result.value ==> k in v.investments
  {
    var ids := Investments(p, v);
    assert Enumerates(ids, v.investments.Keys);
    LookupPricesFacts(s, outcomes, now, ids);
  }

  /** `summary` and `trends`: the prices of the held ids, then the report. */
  function ReportStep(p: Platform, outcomes: nat -> Fetch, w: World, u: UserRecord, now: int,
                      trends: bool): Outcome
    requires Lawful(p) && Healthy(u.wallet)
  {
    var r := LookupPrices(w.cache, outcomes, now, Investments(p, u.wallet));
    var w1 := w.(cache := r.state);
    if r.result.Err? then Outcome(w1, Err(Failure(CacheMessage(p, r.result.error))))
    else
      HoldingsPriced(p, w.cache, outcomes, now, u.wallet);
      var prices := r.result.value;
      Outcome(w1, Ok(if trends then TrendsText(p, u.wallet, prices) else SummaryText(p, u.wallet, prices)))
  }

  /** `getCommandFunction` applied, once the validator has let the command
      through; `user` is the username of the logged-in account, if any. */
  function Dispatch(p: Platform, outcomes: nat -> Fetch, w: World, user: Option<string>, c: Command,
                    now: int, salt: string): Outcome
    requires Setting(p, outcomes) && Sound(w)
    requires user.Some? ==> user.value in w.accounts
    requires Validate(user.Some?, c) == None
  {
    ValidIff(user.Some?, c);
    var args := c.arguments;
    if c.name == SignUp then SignUpStep(p, w, args, salt)
    else if c.name == LogIn then LogInStep(p, w, args)
    else if c.name == List then ListStep(p, outcomes, w, now)
    else if c.name == Deposit then DepositStep(p, w, w.accounts[user.value], args)
    else if c.name == Buy then BuyStep(p, outcomes, w, w.accounts[user.value], args, now)
    else if c.name == Sell then SellStep(p, outcomes, w, w.accounts[user.value], args, now)
    else if c.name == Summary then ReportStep(p, outcomes, w, w.accounts[user.value], now, false)
    else if c.name == Trends then ReportStep(p, outcomes, w, w.accounts[user.value], now, true)
    else if c.name == LogOut then Outcome(w, Ok(LoggedOut))
    else if c.name == Exit then Outcome(w, Ok(Goodbye))
    else Outcome(w, Ok(UnknownCommand))
  }

  /** `userStorage.get(username)`: a session name with no account is the
      same as no session name. */
  function LoggedIn(w: World, username: Option<string>): (r: Option<string>)
    ensures r.Some? ==> username == r && r.value in w.accounts
    ensures r.None? ==> username.None? || username.value !in w.accounts
  {
    if username.Some? && username.value in w.accounts then username else None
  }

  /** `execute(username, command)`. */
  function Execution(p: Platform, outcomes: nat -> Fetch, w: World, username: Option<string>,
                     c: Command, now: int, salt: string): Answer
    requires Setting(p, outcomes) && Sound(w)
  {
    var user := LoggedIn(w, username);
    match Validate(user.Some?, c)
    case Some(m) => Answer(w, m)
    case None =>
      var o := Dispatch(p, outcomes, w, user, c, now, salt);
      Answer(o.world, Reply(o.result))
  }

  // ---------------------------------------------------------------------
  // properties of `execute`

  /** Every handler leaves the world sound. */
  lemma DispatchKeepsSound(p: Platform, outcomes: nat -> Fetch, w: World, user: Option<string>, c: Command,
                           now: int, salt: string)
    requires Setting(p, outcomes) && Sound(w)
    requires user.Some? ==> user.value in w.accounts
    requires Validate(user.Some?, c) == None
    ensures Sound(Dispatch(p, outcomes, w, user, c, now, salt).world)
  {
    ValidIff(user.Some?, c);
    var args := c.arguments;
    if c.name == SignUp {
      NewWalletHealthy();
    } else if c.name == List {
      ListKeepsSound(p, w.cache, outcomes, now);
    } else if c.name == Deposit {
      DepositKeepsSound(p, w, w.accounts[user.value], args);
    } else if c.name == Buy {
      BuyKeepsSound(p, outcomes, w, w.accounts[user.value], args, now);
    } else if c.name == Sell {
      SellKeepsSound(p, outcomes, w, w.accounts[user.value], args, now);
    } else if c.name == Summary || c.name == Trends {
      var v := w.accounts[user.value].wallet;
      PricesKeepSound(w.cache, outcomes, now, Investments(p, v));
    }
  }

  /** Saving a healthy wallet under its own account keeps the world sound. */
  lemma SettleKeepsSound(p: Platform, w: World, u: UserRecord, r: Result<WalletState, WalletError>, text: string)
    requires Sound(w) && u.username in w.accounts
    requires r.Ok? ==> Healthy(r.value)
    ensures Sound(Settle(p, w, u, r, text).world)
  {
  }

  lemma DepositKeepsSound(p: Platform, w: World, u: UserRecord, args: seq<string>)
    requires Sound(w) && u.username in w.accounts && Healthy(u.wallet) && |args| == 1
    ensures Sound(DepositStep(p, w, u, args).world)
  {
    var x := p.parse(args[0]);
    if x.Some? {
      if DepositTo(u.wallet, x.value).Ok? {
        DepositKeepsHealthy(u.wallet, x.value);
      }
      SettleKeepsSound(p, w, u, DepositTo(u.wallet, x.value), "Money successfully deposited. Current balance: ");
    }
  }

  lemma BuyKeepsSound(p: Platform, outcomes: nat -> Fetch, w: World, u: UserRecord, args: seq<string>, now: int)
    requires FeedPositive(outcomes) && Sound(w) && u.username in w.accounts && Healthy(u.wallet) && |args| == 2
    ensures Sound(BuyStep(p, outcomes, w, u, args, now).world)
  {
    var l := LookupAsset(w.cache, outcomes, now, args[0]);
    LookupKeepsSound(w.cache, outcomes, now, args[0]);
    var x := p.parse(args[1]);
    if x.Some? && l.result.Ok? {
      var r := BuyInto(u.wallet, args[0], x.value, l.result.value.price);
      if r.Ok? {
        BuyKeepsHealthy(u.wallet, args[0], x.value, l.result.value.price);
      }
      SettleKeepsSound(p, w.(cache := l.state), u, r, l.result.value.name + " bought. Balance left: ");
    }
  }

  lemma SellKeepsSound(p: Platform, outcomes: nat -> Fetch, w: World, u: UserRecord, args: seq<string>, now: int)
    requires FeedPositive(outcomes) && Sound(w) && u.username in w.accounts && Healthy(u.wallet) && |args| == 1
    ensures Sound(SellStep(p, outcomes, w, u, args, now).world)
  {
    var l := LookupAsset(w.cache, outcomes, now, args[0]);
    LookupKeepsSound(w.cache, outcomes, now, args[0]);
    if l.result.Ok? {
      var r := SellOut(u.wallet, args[0], l.result.value.price);
      if r.Ok? {
        SellKeepsHealthy(u.wallet, args[0], l.result.value.price);
      }
      SettleKeepsSound(p, w.(cache := l.state), u, r, l.result.value.name + " sold. Current balance: ");
    }
  }

  /** `execute` keeps the world sound, whatever the command. */
  lemma ExecutionKeepsSound(p: Platform, outcomes: nat -> Fetch, w: World, username: Option<string>,
                            c: Command, now: int, salt: string)
    requires Setting(p, outcomes) && Sound(w)
    ensures Sound(Execution(p, outcomes, w, username, c, now, salt).world)
  {
    var user := LoggedIn(w, username);
    if Validate(user.Some?, c) == None {
      DispatchKeepsSound(p, outcomes, w, user, c, now, salt);
    }
  }

  /** A rejected command is answered with the validator's message and
      changes nothing; so are `exit`, `logout` and unknown commands, with
      their fixed replies. */
  lemma FixedReplies(p: Platform, outcomes: nat -> Fetch, w: World, username: Option<string>,
                     c: Command, now: int, salt: string)
    requires Setting(p, outcomes) && Sound(w)
    ensures var a, present := Execution(p, outcomes, w, username, c, now, salt), LoggedIn(w, username).Some?;
      && (Validate(present, c).Some? ==> a == Answer(w, Validate(present, c).value))
      && (c == Command(LogOut, []) && present ==> a == Answer(w, LoggedOut))
      && (c == Command(Exit, []) ==> a == Answer(w, Goodbye))
      && (!IsKnown(c.name) ==> a == Answer(w, UnknownCommand))
  {
    var present := LoggedIn(w, username).Some?;
    if !IsKnown(c.name) {
      UnknownAlwaysValid(present, c);
    }
  }

  /** The three ways a command can leave the accounts: as they were; with
      the caller's wallet replaced and written out once; or with the account
      `signup` creates added and nothing written. */
  ghost predicate Effect(p: Platform, w: World, w': World, user: Option<string>, c: Command, salt: string,
                         response: string)
  {
    || (w'.accounts == w.accounts && w'.writes == w.writes)
    || (&& user.Some? && user.value in w.accounts && user.value in w'.accounts
        && (c.name == Deposit || c.name == Buy || c.name == Sell)
        && w'.writes == w.writes + 1
        && w'.accounts == w.accounts[user.value := w.accounts[user.value].(wallet := w'.accounts[user.value].wallet)])
    || (&& user.None? && c.name == SignUp && |c.arguments| == 2 && c.arguments[0] !in w.accounts
        && w'.writes == w.writes && response == NewUserCreated
        && w'.accounts == w.accounts[c.arguments[0] := UserRecord(c.arguments[0], p.hash(c.arguments[1], salt), NewWallet)])
  }

  /** Either the accounts and their writes are as they were, or only the
      wallet of account `k` differs and the accounts were written out once. */
  ghost predicate SavedAt(w: World, w': World, k: string) {
    || (w'.accounts == w.accounts && w'.writes == w.writes)
    || (&& k in w.accounts && k in w'.accounts && w'.writes == w.writes + 1
        && w'.accounts == w.accounts[k := w.accounts[k].(wallet := w'.accounts[k].wallet)])
  }

  lemma SettleSaves(p: Platform, w: World, u: UserRecord, r: Result<WalletState, WalletError>, text: string)
    requires u.username in w.accounts && w.accounts[u.username] == u
    ensures SavedAt(w, Settle(p, w, u, r, text).world, u.username)
  {
  }

  lemma DepositSaves(p: Platform, w: World, u: UserRecord, args: seq<string>)
    requires u.username in w.accounts && w.accounts[u.username] == u && |args| == 1
    ensures SavedAt(w, DepositStep(p, w, u, args).world, u.username)
  {
    var x := p.parse(args[0]);
    if x.Some? {
      SettleSaves(p, w, u, DepositTo(u.wallet, x.value), "Money successfully deposited. Current balance: ");
    }
  }

  lemma BuySaves(p: Platform, outcomes: nat -> Fetch, w: World, u: UserRecord, args: seq<string>, now: int)
    requires FeedPositive(outcomes) && CacheSound(w.cache)
    requires u.username in w.accounts && w.accounts[u.username] == u && |args| == 2
    ensures SavedAt(w, BuyStep(p, outcomes, w, u, args, now).world, u.username)
  {
    var l := LookupAsset(w.cache, outcomes, now, args[0]);
    var x := p.parse(args[1]);
    if x.Some? && l.result.Ok? {
      LookupKeepsSound(w.cache, outcomes, now, args[0]);
      var r := BuyInto(u.wallet, args[0], x.value, l.result.value.price);
      var text := l.result.value.name + " bought. Balance left: ";
      assert BuyStep(p, outcomes, w, u, args, now) == Settle(p, w.(cache := l.state), u, r, text);
      SettleSaves(p, w.(cache := l.state), u, r, text);
    }
  }

  lemma SellSaves(p: Platform, outcomes: nat -> Fetch, w: World, u: UserRecord, args: seq<string>, now: int)
    requires u.username in w.accounts && w.accounts[u.username] == u && |args| == 1
    ensures SavedAt(w, SellStep(p, outcomes, w, u, args, now).world, u.username)
  {
    var l := LookupAsset(w.cache, outcomes, now, args[0]);
    if l.result.Ok? {
      SettleSaves(p, w.(cache := l.state), u, SellOut(u.wallet, args[0], l.result.value.price),
                  l.result.value.name + " sold. Current balance: ");
    }
  }

  lemma DispatchEffect(p: Platform, outcomes: nat -> Fetch, w: World, user: Option<string>, c: Command,
                       now: int, salt: string)
    requires Setting(p, outcomes) && Sound(w)
    requires user.Some? ==> user.value in w.accounts
    requires Validate(user.Some?, c) == None
    ensures var o := Dispatch(p, outcomes, w, user, c, now, salt);
      Effect(p, w, o.world, user, c, salt, Reply(o.result))
  {
    ValidIff(user.Some?, c);
    var args := c.arguments;
    var o := Dispatch(p, outcomes, w, user, c, now, salt);
    if c.name == SignUp {
      assert o == SignUpStep(p, w, args, salt);
    } else if c.name == LogIn {
      assert o == LogInStep(p, w, args);
    } else if c.name == List {
      assert o == ListStep(p, outcomes, w, now);
    } else if c.name == Deposit {
      DepositSaves(p, w, w.accounts[user.value], args);
    } else if c.name == Buy {
      BuySaves(p, outcomes, w, w.accounts[user.value], args, now);
    } else if c.name == Sell {
      SellSaves(p, outcomes, w, w.accounts[user.value], args, now);
    } else if c.name == Summary {
      assert o == ReportStep(p, outcomes, w, w.accounts[user.value], now, false);
    } else if c.name == Trends {
      assert o == ReportStep(p, outcomes, w, w.accounts[user.value], now, true);
    }
  }

  /** Only the caller's account can change, and never its name or password;
      the one account that can appear is the one `signup` creates, and only
      a logged-in `deposit`, `buy` or `sell` writes the accounts out. */
  lemma AccountEffects(p: Platform, outcomes: nat -> Fetch, w: World, username: Option<string>,
                       c: Command, now: int, salt: string)
    requires Setting(p, outcomes) && Sound(w)
    ensures var a, user := Execution(p, outcomes, w, username, c, now, salt), LoggedIn(w, username);
      && w.accounts.Keys <= a.world.accounts.Keys
      && (forall k :: k in w.accounts && user != Some(k) ==> a.world.accounts[k] == w.accounts[k])
      && (forall k :: k in w.accounts ==>
            a.world.accounts[k].username == k && a.world.accounts[k].password == w.accounts[k].password)
      && (forall k :: k in a.world.accounts && k !in w.accounts ==>
            && user.None? && c.name == SignUp && |c.arguments| == 2 && k == c.arguments[0]
            && a.world.accounts[k] == UserRecord(k, p.hash(c.arguments[1], salt), NewWallet)
            && a.response == NewUserCreated)
      && (a.world.writes == w.writes
          || (a.world.writes == w.writes + 1 && user.Some? && (c.name == Deposit || c.name == Buy || c.name == Sell)))
  {
    var user := LoggedIn(w, username);
    if Validate(user.Some?, c) == None {
      DispatchEffect(p, outcomes, w, user, c, now, salt);
    }
  }

  /** No account is ever removed. */
  lemma AccountsNeverRemoved(p: Platform, outcomes: nat -> Fetch, w: World, username: Option<string>,
                             c: Command, now: int, salt: string)
    requires Setting(p, outcomes) && Sound(w)
    ensures w.accounts.Keys <= Execution(p, outcomes, w, username, c, now, salt).world.accounts.Keys
  {
    AccountEffects(p, outcomes, w, username, c, now, salt);
  }

  /** A username with no account is treated as no login at all. */
  lemma UnknownUserIsLoggedOut(p: Platform, outcomes: nat -> Fetch, w: World, name: string,
                               c: Command, now: int, salt: string)
    requires Setting(p, outcomes) && Sound(w) && name !in w.accounts
    ensures Execution(p, outcomes, w, Some(name), c, now, salt) == Execution(p, outcomes, w, None, c, now, salt)
  {
  }

  /** `login` from a connection that is not logged in changes nothing and
      answers the username exactly when the account exists and the password
      matches its hash. */
  lemma LogInReplies(p: Platform, outcomes: nat -> Fetch, w: World, username: Option<string>,
                     name: string, password: string, now: int, salt: string)
    requires Setting(p, outcomes) && Sound(w) && LoggedIn(w, username).None?
    ensures var a := Execution(p, outcomes, w, username, Command(LogIn, [name, password]), now, salt);
      && a.world == w
      && a.response == (if name in w.accounts && p.check(password, w.accounts[name].password)
                        then name else BadCredentials)
  {
  }

  /** A new account can log in with its password at once, and its username
      cannot be taken again; creating it saves nothing. */
  lemma SignUpThenLogIn(p: Platform, outcomes: nat -> Fetch, w: World, name: string, password: string,
                        other: string, now: int, salt: string, later: int, salt2: string)
    requires Setting(p, outcomes) && Sound(w) && name !in w.accounts
    ensures var a := Execution(p, outcomes, w, None, Command(SignUp, [name, password]), now, salt);
      && a.response == NewUserCreated && a.world.writes == w.writes && a.world.cache == w.cache
      && Sound(a.world)
      && Execution(p, outcomes, a.world, None, Command(LogIn, [name, password]), later, salt2)
         == Answer(a.world, name)
      && Execution(p, outcomes, a.world, None, Command(SignUp, [name, other]), later, salt2)
         == Answer(a.world, "Username is taken")
  {
    var a := Execution(p, outcomes, w, None, Command(SignUp, [name, password]), now, salt);
    ExecutionKeepsSound(p, outcomes, w, None, Command(SignUp, [name, password]), now, salt);
    assert a.world.accounts[name].password == p.hash(password, salt);
  }

  /** `deposit`: an amount that does not parse or is negative changes
      nothing; otherwise the balance grows by it, the accounts are written
      out once and the new balance is reported. */
  lemma DepositReplies(p: Platform, outcomes: nat -> Fetch, w: World, name: string, amount: string,
                        now: int, salt: string)
    requires Setting(p, outcomes) && Sound(w) && name in w.accounts
    ensures var a := Execution(p, outcomes, w, Some(name), Command(Deposit, [amount]), now, salt);
      var u, x := w.accounts[name], p.parse(amount);
      && (x.None? ==> a == Answer(w, InvalidNumber))
      && (x.Some? && x.value < 0.0 ==> a == Answer(w, "Money should not be negative"))
      && (x.Some? && x.value >= 0.0 ==>
            && a.world.accounts == w.accounts[name := u.(wallet := u.wallet.(balance := u.wallet.balance + x.value))]
            && a.world.writes == w.writes + 1 && a.world.cache == w.cache
            && a.response == "Money successfully deposited. Current balance: " + p.show(u.wallet.balance + x.value))
  {
  }

  /** A command a logged-in caller may give runs its handler on the caller's
      account. */
  lemma LoggedInRuns(p: Platform, outcomes: nat -> Fetch, w: World, name: string, c: Command,
                     now: int, salt: string)
    requires Setting(p, outcomes) && Sound(w) && name in w.accounts && Validate(true, c) == None
    ensures var o := Dispatch(p, outcomes, w, Some(name), c, now, salt);
      Execution(p, outcomes, w, Some(name), c, now, salt) == Answer(o.world, Reply(o.result))
  {
  }

  /** `buy`: an amount that does not parse is reported before the cache is
      consulted, so nothing is fetched; a cache failure is reported before
      the wallet is touched; a purchase adds `money / price` of the asset at
      its cached price, takes `money` from the balance and saves once; a
      refused purchase saves nothing but the refreshed cache. */
  lemma BuyStepFacts(p: Platform, outcomes: nat -> Fetch, w: World, u: UserRecord, id: string, amount: string,
                     now: int)
    requires Setting(p, outcomes) && Sound(w) && u.username in w.accounts
    ensures var o := BuyStep(p, outcomes, w, u, [id, amount], now);
      var a := Answer(o.world, Reply(o.result));
      var v, x, l := u.wallet, p.parse(amount), LookupAsset(w.cache, outcomes, now, id);
      && (x.None? ==> a == Answer(w, InvalidNumber))
      && (x.Some? ==> a.world.cache == l.state)
      && (x.Some? && l.result.Err? ==> a == Answer(w.(cache := l.state), CacheMessage(p, l.result.error)))
      && (x.Some? && l.result.Ok? ==>
            var price := l.result.value.price;
            && price > 0.0 && l.result.value.id == id
            && (x.value < 0.0 || v.balance < x.value ==> a.world == w.(cache := l.state))
            && (0.0 <= x.value <= v.balance ==>
                  && a.world.writes == w.writes + 1
                  && a.world.accounts.Keys == w.accounts.Keys
                  && var v' := a.world.accounts[u.username].wallet;
                  && v'.balance == v.balance - x.value
                  && v'.investments[id] == (if id in v.investments then v.investments[id] else 0.0) + x.value / price
                  && a.response == l.result.value.name + " bought. Balance left: " + p.show(v.balance - x.value)))
  {
    LookupKeepsSound(w.cache, outcomes, now, id);
    LookupAssetFacts(p, w.cache, outcomes, now, id);
    var x := p.parse(amount);
    var l := LookupAsset(w.cache, outcomes, now, id);
    if x.Some? && l.result.Ok? && BuyInto(u.wallet, id, x.value, l.result.value.price).Ok? {
      BuyAccumulates(u.wallet, id, x.value, l.result.value.price);
    }
  }

  lemma BuyReplies(p: Platform, outcomes: nat -> Fetch, w: World, name: string, id: string, amount: string,
                   now: int, salt: string)
    requires Setting(p, outcomes) && Sound(w) && name in w.accounts
    ensures var o := BuyStep(p, outcomes, w, w.accounts[name], [id, amount], now);
      Execution(p, outcomes, w, Some(name), Command(Buy, [id, amount]), now, salt) == Answer(o.world, Reply(o.result))
  {
    var c := Command(Buy, [id, amount]);
    assert Validate(true, c) == None;
    LoggedInRuns(p, outcomes, w, name, c, now, salt);
    assert Dispatch(p, outcomes, w, Some(name), c, now, salt) == BuyStep(p, outcomes, w, w.accounts[name], [id, amount], now);
  }

  /** `sell`: the asset is looked up (and the cache refreshed if stale)
      even when it is not held, and a cache failure is reported first; an
      asset not held changes nothing else; a sale credits quantity times the
      cached price, drops the holding and saves once. */
  lemma SellStepFacts(p: Platform, outcomes: nat -> Fetch, w: World, u: UserRecord, id: string,
                      now: int)
    requires u.username in w.accounts
    ensures var o := SellStep(p, outcomes, w, u, [id], now);
      var a := Answer(o.world, Reply(o.result));
      var v, l := u.wallet, LookupAsset(w.cache, outcomes, now, id);
      && a.world.cache == l.state
      && (l.result.Err? ==> a == Answer(w.(cache := l.state), CacheMessage(p, l.result.error)))
      && (l.result.Ok? && id !in v.investments ==> a == Answer(w.(cache := l.state), "Asset not found in wallet"))
      && (l.result.Ok? && id in v.investments ==>
            var price := l.result.value.price;
            && a.world.writes == w.writes + 1
            && a.world.accounts.Keys == w.accounts.Keys
            && var v' := a.world.accounts[u.username].wallet;
            && v'.balance == v.balance + v.investments[id] * price
            && id !in v'.investments && id !in v'.entryPrices
            && a.response == l.result.value.name + " sold. Current balance: " + p.show(v'.balance))
  {
    var l := LookupAsset(w.cache, outcomes, now, id);
    if l.result.Ok? {
      SellOutcomes(u.wallet, id, l.result.value.price);
    }
  }

  lemma SellReplies(p: Platform, outcomes: nat -> Fetch, w: World, name: string, id: string,
                    now: int, salt: string)
    requires Setting(p, outcomes) && Sound(w) && name in w.accounts
    ensures var o := SellStep(p, outcomes, w, w.accounts[name], [id], now);
      Execution(p, outcomes, w, Some(name), Command(Sell, [id]), now, salt) == Answer(o.world, Reply(o.result))
  {
    var c := Command(Sell, [id]);
    assert Validate(true, c) == None;
    LoggedInRuns(p, outcomes, w, name, c, now, salt);
    assert Dispatch(p, outcomes, w, Some(name), c, now, salt) == SellStep(p, outcomes, w, w.accounts[name], [id], now);
  }

  /** `summary` and `trends` change nothing but the cache, ask for the
      prices of the held ids only, fetch nothing when the cache is up to
      date, and can fail only when a refresh does. */
  lemma ReportStepFacts(p: Platform, outcomes: nat -> Fetch, w: World, u: UserRecord, trends: bool, now: int)
    requires Lawful(p) && Healthy(u.wallet)
    ensures var o := ReportStep(p, outcomes, w, u, now, trends);
      var a := Answer(o.world, Reply(o.result));
      var v := u.wallet;
      var r := LookupPrices(w.cache, outcomes, now, Investments(p, v));
      && a.world == w.(cache := r.state)
      && (r.result.Err? ==>
            && (r.result.error.CouldNotLoad? || r.result.error.DuplicateAsset?)
            && a.response == CacheMessage(p, r.result.error))
      && (r.result.Ok? ==> r.result.value.Keys == v.investments.Keys)
      && (UpToDate(w.cache, now) ==> a.world == w && r.result.Ok?)
  {
    var v := u.wallet;
    var ids := Investments(p, v);
    assert Enumerates(ids, v.investments.Keys);
    LookupPricesFacts(w.cache, outcomes, now, ids);
    HoldingsPriced(p, w.cache, outcomes, now, v);
  }

  lemma ReportReplies(p: Platform, outcomes: nat -> Fetch, w: World, name: string, trends: bool,
                      now: int, salt: string)
    requires Setting(p, outcomes) && Sound(w) && name in w.accounts
    ensures var o := ReportStep(p, outcomes, w, w.accounts[name], now, trends);
      Execution(p, outcomes, w, Some(name), Command(if trends then Trends else Summary, []), now, salt)
        == Answer(o.world, Reply(o.result))
  {
    var c := Command(if trends then Trends else Summary, []);
    assert Validate(true, c) == None;
    LoggedInRuns(p, outcomes, w, name, c, now, salt);
  }

  /** `list`, logged in or not: only the cache can change. A failed refresh
      is answered with its message; otherwise the reply joins one
      `id: price` line per cached asset, and every cached asset has its line. */
  lemma ListReplies(p: Platform, outcomes: nat -> Fetch, w: World, username: Option<string>,
                    now: int, salt: string)
    requires Setting(p, outcomes) && Sound(w)
    ensures var a, f := Execution(p, outcomes, w, username, Command(List, []), now, salt),
                        EnsureFresh(w.cache, outcomes, now);
      && a.world == w.(cache := f.state)
      && (f.result.Err? ==> a.response == CacheMessage(p, f.result.error))
      && (f.result.Ok? ==>
            var ls := AssetLines(p, ListAssets(p, w.cache, outcomes, now).result.value);
            && a.response == Join(ls, '\n')
            && |ls| == |f.state.assets|
            && forall k :: k in f.state.assets ==>
                 f.state.assets[k].id + ": " + p.plain(f.state.assets[k].price) in ls)
  {
    var c := Command(List, []);
    var user := LoggedIn(w, username);
    assert Validate(user.Some?, c) == None;
    assert Dispatch(p, outcomes, w, user, c, now, salt) == ListStep(p, outcomes, w, now);
    ListAssetsFacts(p, w.cache, outcomes, now);
    var f := EnsureFresh(w.cache, outcomes, now);
    if f.result.Ok? {
      var l := ListAssets(p, w.cache, outcomes, now).result.value;
      var ls := AssetLines(p, l);
      forall k | k in f.state.assets
        ensures f.state.assets[k].id + ": " + p.plain(f.state.assets[k].price) in ls
      {
        var x := f.state.assets[k];
        assert x in f.state.assets.Values;
        var i :| 0 <= i < |l| && l[i] == x;
        assert ls[i] == AssetLine(p, x);
      }
    }
  }

  // ---------------------------------------------------------------------
  // the executor object

  /** Accounts whose wallets were not touched read as before. */
  twostate lemma AccountsKept(store: UserStore)
    requires unchanged(store)
    requires forall k :: k in store.users ==> unchanged(store.users[k].wallet)
    ensures store.Accounts() == old(store.Accounts())
  {
  }

  /** Filing a new account adds its record and leaves the others as they were. */
  twostate lemma AccountAdded(store: UserStore, new u: User)
    requires store.users == old(store.users)[u.username := u]
    requires forall k :: k in old(store.users) ==> unchanged(old(store.users)[k].wallet)
    ensures store.Accounts() == old(store.Accounts())[u.username := u.Record()]
  {
  }

  /** After a wallet operation on `u`, and after the replacement of `u` by
      itself that follows a successful one, the accounts differ at most in
      `u`'s wallet, which holds what the operation specifies. */
  twostate lemma WalletApplied(new store: UserStore, u: User, new spec: Result<WalletState, WalletError>,
                               new e: Option<WalletError>)
    requires old(allocated(store))
    requires old(store.Valid()) && u.username in old(store.users) && old(store.users)[u.username] == u
    requires store.users == old(store.users)
    requires forall k :: k in old(store.users) && k != u.username ==> unchanged(old(store.users)[k].wallet)
    requires Applied(spec, old(u.wallet.State()), e, u.wallet.State())
    ensures store.Accounts() == if spec.Ok? then old(store.Accounts())[u.username := old(u.Record()).(wallet := spec.value)]
                                else old(store.Accounts())
  {
    assert store.Accounts() == old(store.Accounts())[u.username := u.Record()];
  }

  class CommandExecutor {
    const store: UserStore
    const cache: AssetCache
    const platform: Platform

    /** The store, the cache, the service and every account's wallet. */
    ghost function Repr(): set<object>
      reads store
    {
      {store, cache, cache.feed} + store.OwnedWallets()
    }

    ghost function View(): World
      reads store, store.OwnedWallets(), cache, cache.feed
    {
      World(store.Accounts(), store.writes, cache.State())
    }

    ghost predicate Valid()
      reads store, store.OwnedWallets(), cache, cache.feed
    {
      store.Valid() && Setting(platform, cache.feed.outcomes) && Sound(View())
    }

    /** `u` is the account filed under its username. */
    ghost predicate Filed(u: User)
      reads store
    {
      u.username in store.users && store.users[u.username] == u
    }

    constructor (store: UserStore, cache: AssetCache, platform: Platform)
      ensures this.store == store && this.cache == cache && this.platform == platform
    {
      this.store := store;
      this.cache := cache;
      this.platform := platform;
    }

    /** `execute`. */
    method Execute(username: Option<string>, c: Command, now: int, salt: string) returns (response: string)
      requires Valid()
      modifies Repr()
      ensures Answer(View(), response) == Execution(platform, cache.feed.outcomes, old(View()), username, c, now, salt)
      ensures Valid()
    {
      var user: Option<User> := None;
      if username.Some? {
        user := store.Get(username.value);
      }
      assert user.Some? <==> LoggedIn(View(), username).Some?;
      assert user.Some? ==> Some(user.value.username) == LoggedIn(View(), username);
      var error := Validate(user.Some?, c);
      if error.Some? {
        return error.value;
      }
      var r := Run(user, c, now, salt);
      response := Reply(r);
      ExecutionKeepsSound(platform, cache.feed.outcomes, old(View()), username, c, now, salt);
    }

    /** `getCommandFunction(command).apply(user, arguments)`. */
    method Run(user: Option<User>, c: Command, now: int, salt: string) returns (r: Result<string, Fault>)
      requires Valid() && (user.Some? ==> Filed(user.value))
      requires Validate(user.Some?, c) == None
      modifies Repr()
      ensures var o := Dispatch(platform, cache.feed.outcomes, old(View()),
                                if user.Some? then Some(user.value.username) else None, c, now, salt);
        View() == o.world && r == o.result
      ensures store.Valid()
    {
      ValidIff(user.Some?, c);
      assert user.Some? ==> View().accounts[user.value.username] == user.value.Record();
      var args := c.arguments;
      if c.name == Commands.SignUp {
        r := SignUp(args, salt);
      } else if c.name == Commands.LogIn {
        r := LogIn(args);
      } else if c.name == Commands.List {
        r := List(now);
      } else if c.name == Commands.Deposit {
        r := Deposit(user.value, args);
      } else if c.name == Commands.Buy {
        r := Buy(user.value, args, now);
      } else if c.name == Commands.Sell {
        r := Sell(user.value, args, now);
      } else if c.name == Commands.Summary {
        r := Report(user.value, now, false);
      } else if c.name == Commands.Trends {
        r := Report(user.value, now, true);
      } else if c.name == Commands.LogOut {
        r := Ok(LoggedOut);
      } else if c.name == Commands.Exit {
        r := Ok(Goodbye);
      } else {
        r := Ok(UnknownCommand);
      }
    }

    method SignUp(args: seq<string>, salt: string) returns (r: Result<string, Fault>)
      requires store.Valid() && |args| == 2
      modifies store
      ensures Outcome(View(), r) == SignUpStep(platform, old(View()), args, salt)
      ensures store.Valid()
    {
      var hashed := platform.hash(args[1], salt);
      var u := new User(args[0], hashed);
      var e := store.Add(u);
      if e.Some? {
        return Err(Failure(StoreMessage(e.value)));
      }
      AccountAdded(store, u);
      return Ok(NewUserCreated);
    }

    method LogIn(args: seq<string>) returns (r: Result<string, Fault>)
      requires store.Valid() && |args| == 2
      ensures Outcome(View(), r) == LogInStep(platform, View(), args)
    {
      var stored := store.Get(args[0]);
      if stored.None? || !platform.check(args[1], stored.value.password) {
        return Ok(BadCredentials);
      }
      return Ok(args[0]);
    }

    method List(now: int) returns (r: Result<string, Fault>)
      requires store.Valid() && Lawful(platform)
      modifies cache, cache.feed
      ensures Outcome(View(), r) == ListStep(platform, cache.feed.outcomes, old(View()), now)
      ensures store.Valid()
    {
      var assets := cache.GetAssets(platform, now);
      AccountsKept(store);
      if assets.Err? {
        return Err(Failure(CacheMessage(platform, assets.error)));
      }
      return Ok(Join(AssetLines(platform, assets.value), '\n'));
    }

    method Deposit(u: User, args: seq<string>) returns (r: Result<string, Fault>)
      requires store.Valid() && Filed(u) && |args| == 1
      modifies store, u.wallet
      ensures Outcome(View(), r) == DepositStep(platform, old(View()), old(View()).accounts[u.username], args)
      ensures store.Valid()
    {
      var cash := platform.parse(args[0]);
      if cash.None? {
        return Err(NumberFormat);
      }
      r := ApplyDeposit(u, cash.value);
    }

    method Buy(u: User, args: seq<string>, now: int) returns (r: Result<string, Fault>)
      requires store.Valid() && Filed(u) && |args| == 2
      requires FeedPositive(cache.feed.outcomes) && CacheSound(cache.State())
      modifies store, u.wallet, cache, cache.feed
      ensures Outcome(View(), r)
        == BuyStep(platform, cache.feed.outcomes, old(View()), old(View()).accounts[u.username], args, now)
      ensures store.Valid()
    {
      var money := platform.parse(args[1]);
      if money.None? {
        return Err(NumberFormat);
      }
      var asset := cache.GetAsset(args[0], now);
      AccountsKept(store);
      if asset.Err? {
        return Err(Failure(CacheMessage(platform, asset.error)));
      }
      LookupKeepsSound(old(cache.State()), cache.feed.outcomes, now, args[0]);
      r := ApplyBuy(u, args[0], money.value, asset.value);
    }

    method Sell(u: User, args: seq<string>, now: int) returns (r: Result<string, Fault>)
      requires store.Valid() && Filed(u) && |args| == 1
      modifies store, u.wallet, cache, cache.feed
      ensures Outcome(View(), r)
        == SellStep(platform, cache.feed.outcomes, old(View()), old(View()).accounts[u.username], args, now)
      ensures store.Valid()
    {
      var asset := cache.GetAsset(args[0], now);
      AccountsKept(store);
      if asset.Err? {
        return Err(Failure(CacheMessage(platform, asset.error)));
      }
      r := ApplySell(u, args[0], asset.value);
    }

    /** `user.getWallet().deposit(cash)` and, when it succeeds, `update`. */
    method ApplyDeposit(u: User, cash: real) returns (r: Result<string, Fault>)
      requires store.Valid() && Filed(u)
      modifies store, u.wallet
      ensures Outcome(View(), r) == Settle(platform, old(View()), old(u.Record()), DepositTo(old(u.wallet.State()), cash),
                                           "Money successfully deposited. Current balance: ")
      ensures store.Valid()
    {
      var e := u.wallet.Deposit(cash);
      ghost var spec := DepositTo(old(u.wallet.State()), cash);
      WalletApplied(store, u, spec, e);
      if e.Some? {
        return Err(Failure(WalletMessage(e.value)));
      }
      store.Update(u);
      WalletApplied(store, u, spec, e);
      return Ok("Money successfully deposited. Current balance: " + platform.show(u.wallet.balance));
    }

    /** `user.getWallet().buy(id, money, price)` and, when it succeeds, `update`. */
    method ApplyBuy(u: User, id: string, money: real, asset: Asset) returns (r: Result<string, Fault>)
      requires store.Valid() && Filed(u) && asset.price != 0.0
      modifies store, u.wallet
      ensures Outcome(View(), r) == Settle(platform, old(View()), old(u.Record()),
                                           BuyInto(old(u.wallet.State()), id, money, asset.price),
                                           asset.name + " bought. Balance left: ")
      ensures store.Valid()
    {
      var e := u.wallet.Buy(id, money, asset.price);
      ghost var spec := BuyInto(old(u.wallet.State()), id, money, asset.price);
      WalletApplied(store, u, spec, e);
      if e.Some? {
        return Err(Failure(WalletMessage(e.value)));
      }
      store.Update(u);
      WalletApplied(store, u, spec, e);
      return Ok(asset.name + " bought. Balance left: " + platform.show(u.wallet.balance));
    }

    /** `user.getWallet().sell(id, price)` and, when it succeeds, `update`. */
    method ApplySell(u: User, id: string, asset: Asset) returns (r: Result<string, Fault>)
      requires store.Valid() && Filed(u)
      modifies store, u.wallet
      ensures Outcome(View(), r) == Settle(platform, old(View()), old(u.Record()),
                                           SellOut(old(u.wallet.State()), id, asset.price),
                                           asset.name + " sold. Current balance: ")
      ensures store.Valid()
    {
      var e := u.wallet.Sell(id, asset.price);
      ghost var spec := SellOut(old(u.wallet.State()), id, asset.price);
      WalletApplied(store, u, spec, e);
      if e.Some? {
        return Err(Failure(WalletMessage(e.value)));
      }
      store.Update(u);
      WalletApplied(store, u, spec, e);
      return Ok(asset.name + " sold. Current balance: " + platform.show(u.wallet.balance));
    }

    /** `summary` when `trends` is false, `trends` otherwise. */
    method Report(u: User, now: int, trends: bool) returns (r: Result<string, Fault>)
      requires store.Valid() && Filed(u) && Lawful(platform) && Healthy(u.wallet.State())
      modifies cache, cache.feed
      ensures Outcome(View(), r)
        == ReportStep(platform, cache.feed.outcomes, old(View()), old(View()).accounts[u.username], now, trends)
      ensures store.Valid()
    {
      var held := u.wallet.State();
      var prices := cache.GetAssetPrices(Investments(platform, held), now);
      AccountsKept(store);
      if prices.Err? {
        return Err(Failure(CacheMessage(platform, prices.error)));
      }
      HoldingsPriced(platform, old(cache.State()), cache.feed.outcomes, now, held);
      if trends {
        return Ok(TrendsText(platform, held, prices.value));
      }
      return Ok(SummaryText(platform, held, prices.value));
    }
  }
}
