/** An account: a username, a (hashed) password and the wallet it owns.
    Accounts are told apart by their username alone, and one is saved as the
    line "username;password;<wallet record>". */
module Users {
  import opened Results
  import opened JavaText
  import opened Platform
  import opened Wallets

  /** The contents of an account, as its record line carries them. */
  datatype UserRecord = UserRecord(username: string, password: string, wallet: WalletState)

  /** `toString`. */
  function UserText(p: Platform, r: UserRecord): string
    requires Lawful(p)
  {
    r.username + ";" + r.password + ";" + WalletText(p, r.wallet)
  }

  /** `of`: the line is cut at its first two `;` only, so the third field is
      all the rest; fewer than three fields is an index error. */
  function ParseUser(p: Platform, line: string): Result<UserRecord, RecordError> {
    var tokens := SplitLimit(line, ';', 3);
    if |tokens| < 3 then Err(MissingField)
    else match ParseWallet(p, tokens[2])
      case Err(e) => Err(e)
      case Ok(w) => Ok(UserRecord(tokens[0], tokens[1], w))
  }

  /** Whatever follows the second `;` is read as the wallet record, `;`s and
      all, and decides alone whether the line is accepted. */
  lemma RemainderIsWallet(p: Platform, username: string, password: string, rest: string)
    requires ';' !in username && ';' !in password
    ensures var r := ParseUser(p, username + ";" + password + ";" + rest);
      && (r.Ok? <==> ParseWallet(p, rest).Ok?)
      && (r.Ok? ==> r.value == UserRecord(username, password, ParseWallet(p, rest).value))
      && (r.Err? ==> r.error == ParseWallet(p, rest).error)
  {
    assert username + ";" + password + ";" + rest == username + [';'] + password + [';'] + rest;
    SplitLimitThree(username, password, rest, ';');
  }

  /** `of(toString(u))` has the username, password and wallet of `u`, when
      neither name nor password holds a `;`, the wallet's ids are free of
      the record delimiters and its numbers read back exactly. */
  lemma UserRoundTrip(p: Platform, r: UserRecord)
    requires Lawful(p) && ';' !in r.username && ';' !in r.password
    requires CleanKeys(r.wallet.investments) && CleanKeys(r.wallet.entryPrices)
    requires Exact(p, r.wallet.balance) && ExactValues(p, r.wallet.investments) && ExactValues(p, r.wallet.entryPrices)
    ensures ParseUser(p, UserText(p, r)) == Ok(r)
  {
    RemainderIsWallet(p, r.username, r.password, WalletText(p, r.wallet));
    WalletRoundTrip(p, r.wallet);
  }

  /** An empty wallet is written as "0.0;;". */
  lemma NewWalletText(p: Platform)
    requires Lawful(p)
    ensures WalletText(p, NewWallet) == "0.0;;"
  {
    var none := p.keyOrder({});
    EnumeratesLength(none, {});
    assert EntryTexts(p, map[], none) == [];
    assert MapText(p, map[]) == "";
  }

  /** The record of a new account, "username;password;0.0;;", is read back as
      an empty wallet and written out as the very same line. */
  lemma NewUserLineRoundTrip(p: Platform)
    requires Lawful(p)
    ensures ParseUser(p, "username;password;0.0;;") == Ok(UserRecord("username", "password", NewWallet))
    ensures UserText(p, UserRecord("username", "password", NewWallet)) == "username;password;0.0;;"
  {
    assert Exact(p, 0.0);
    BlankRecordSplits(p, 0.0);
    var rest := p.show(0.0) + ";;";
    assert rest == "0.0;;";
    assert "username;password;0.0;;" == "username" + ";" + "password" + ";" + rest;
    RemainderIsWallet(p, "username", "password", rest);
    NewWalletText(p);
  }

  class User {
    const username: string
    const password: string
    const wallet: Wallet

    /** A new account owns a new, empty wallet. */
    constructor (username: string, password: string)
      ensures this.username == username && this.password == password
      ensures fresh(wallet) && wallet.State() == NewWallet
    {
      this.username := username;
      this.password := password;
      wallet := new Wallet();
    }

    constructor Owning(username: string, password: string, wallet: Wallet)
      ensures this.username == username && this.password == password && this.wallet == wallet
    {
      this.username := username;
      this.password := password;
      this.wallet := wallet;
    }

    function Record(): UserRecord
      reads wallet
    {
      UserRecord(username, password, wallet.State())
    }
  }

  /** `equals`. */
  predicate SameUser(a: User, b: User) {
    a.username == b.username
  }

  /** `hashCode`: `Objects.hash(username)`. */
  function UserHash(u: User): Int32 {
    ObjectsHash(u.username)
  }

  /** Equality is an equivalence on usernames: password and wallet play no
      part, and equal accounts hash alike. */
  lemma SameUserIsUsernameEquality(a: User, b: User, c: User)
    ensures SameUser(a, a)
    ensures SameUser(a, b) == SameUser(b, a)
    ensures SameUser(a, b) && SameUser(b, c) ==> SameUser(a, c)
    ensures SameUser(a, b) <==> a.username == b.username
    ensures SameUser(a, b) ==> UserHash(a) == UserHash(b)
  {
  }
}
