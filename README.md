# crypto-wallet, modelled in Dafny

crypto-wallet is a small client/server application. Users sign up and log in
over a socket connection. They deposit money into a wallet, buy and sell
crypto assets at the prices of a remote market-data service, and ask for a
summary of their holdings or for their trends since purchase. This project
models the server side and proves properties of that model:

- **Commands** (`command.dfy`, `command_parser.dfy`, `command_validator.dfy`).
  - A request line is parsed into a command name and its arguments.
  - A validator decides, from whether a user is logged in and from the
    argument count, whether the command may run. It answers the first rule
    the command breaks.
  - `java_text.dfy` gives the exact meaning of the Java library calls this
    relies on: the three different notions of whitespace, `trim`, `split`
    with and without a limit, `split("\\s+")`, `%d` and `toHexString`.
- **Assets** (`asset.dfy`). Assets are equal exactly when their ids are
  equal, and hash accordingly. Their fields and getters hold by
  construction of the datatype.
- **Wallet** (`wallet.dfy`).
  - The ledger: a balance, the quantity held per asset id and the entry
    price per asset id.
  - The operations: deposit, withdraw, buy, sell, value, summary and trends.
  - The `;`/`,`/`=` text record the wallet is saved as, with its round trip.
  - The class `Wallet` updates the ledger in place.
- **Accounts** (`user.dfy`, `user_store.dfy`).
  - An account is a username, a password hash and a wallet, and has its own
    text record.
  - The class `UserStore` files accounts by username. `add` refuses a taken
    name; `update` replaces an account and then writes all accounts out.
- **Price cache** (`asset_cache.dfy`). The class `AssetCache` keeps the
  assets last fetched from the service. One refresh does the following:
  - keeps the crypto assets;
  - sorts them by price, dearest first;
  - keeps the first `limit`;
  - indexes them by id.

  A read refreshes only when the last refresh is `interval` minutes old or
  older. Lookups then answer from the cache. The service is the class
  `AssetFeed`, which hands out scripted answers and counts its requests.
- **Executor** (`executor.dfy`).
  - The command executor validates a command, dispatches it to its handler,
    and turns every failure into its message.
  - Pure specification functions over an abstract world say what each
    handler does. That world is the accounts, the number of writes, the
    cache and the requests made.
  - The class `CommandExecutor` is proved to do exactly what they say.
  - Lemmas then state what execution may change.
- **Server session** (`server.dfy`).
  - Each connection carries the username it logged in as.
  - A successful `login` (a reply with no space in it) sets that name and
    answers "Welcome". `logout` clears it.
  - The lemmas show that a connection only ever takes on the name of an
    account.

Number parsing and formatting, password hashing and the iteration order of
Java's `HashMap` are parameters, bundled in the `Platform` datatype
(`platform.dfy`). The predicate `Lawful` states the few laws the model
relies on for every platform:
- a rendered number is a non-empty numeral free of the record delimiters;
- zero is written and read as "0.0";
- a key order lists each key once;
- a password checks against its own hash.

`SampleIsLawful` proves that a concrete platform meets these laws. A number
that reads back from its own rendering is `Exact`, which in Java is every
double. The record round-trip lemmas ask this of the numbers they carry. The clock is a
parameter `now`, counted in minutes. Every nondeterministic choice appears
in a contract as a parameter, so each property holds for every platform
and every service that obey those laws.

## Model

| member | source | states |
|---|---|---|
| Commands.Empty | src/bg/sofia/uni/fmi/mjt/crypto/command/Command.java:15-19 | The shared empty command has the name "" and no arguments. |
| Commands.KnownNamesDistinct | src/bg/sofia/uni/fmi/mjt/crypto/command/Command.java:4-13 | There are exactly ten command names, pairwise distinct, and the empty command's name is none of them. |
| JavaText.TrimStart | src/bg/sofia/uni/fmi/mjt/crypto/command/CommandParser.java:13 | `trim`, leading half: the result is a suffix of the input that does not start with a code point up to U+0020, and every code point dropped is one. |
| JavaText.TrimEnd | src/bg/sofia/uni/fmi/mjt/crypto/command/CommandParser.java:13 | `trim`, trailing half: the result is a prefix of the input that does not end with a code point up to U+0020, and every code point dropped is one. |
| JavaText.Trim | src/bg/sofia/uni/fmi/mjt/crypto/command/CommandParser.java:13 | `trim`: the result neither starts nor ends with a code point up to U+0020. |
| JavaText.TrimSlice | src/bg/sofia/uni/fmi/mjt/crypto/command/CommandParser.java:13 | `trim` keeps one slice of the line; everything before and after it is code points up to U+0020. |
| JavaText.TrimKeeps | src/bg/sofia/uni/fmi/mjt/crypto/command/CommandParser.java:13 | A line that neither starts nor ends with such a code point is its own trim. |
| JavaText.IndexOf | src/bg/sofia/uni/fmi/mjt/crypto/user/DefaultCryptoUser.java:31 | `indexOf`: the first position holding the delimiter. |
| JavaText.SplitLimit | src/bg/sofia/uni/fmi/mjt/crypto/user/DefaultCryptoUser.java:31 | `split(d, limit)`: between 1 and `limit` pieces. |
| JavaText.SplitLimitThree | src/bg/sofia/uni/fmi/mjt/crypto/user/DefaultCryptoUser.java:31 | With limit 3, only the first two delimiters split; the third piece is the whole remainder, delimiters included. |
| JavaText.SplitOfJoin | src/bg/sofia/uni/fmi/mjt/crypto/wallet/DefaultCryptoWallet.java:169 | `split` undoes `joining` of delimiter-free parts when the last of several parts is not empty. |
| JavaText.PiecesOfJoin | src/bg/sofia/uni/fmi/mjt/crypto/wallet/DefaultCryptoWallet.java:169 | The raw pieces of a join are the parts joined. |
| JavaText.JoinFree | src/bg/sofia/uni/fmi/mjt/crypto/wallet/DefaultCryptoWallet.java:191 | A join of parts free of a character other than the separator is free of it too. |
| JavaText.JoinHasSeparator | src/bg/sofia/uni/fmi/mjt/crypto/wallet/DefaultCryptoWallet.java:191 | A join of two or more parts contains the separator. |
| JavaText.SkipSpaces | src/bg/sofia/uni/fmi/mjt/crypto/command/CommandParser.java:20 | Skipping a run of `\s` drops exactly a prefix made of `\s` characters. |
| JavaText.RegexSplit | src/bg/sofia/uni/fmi/mjt/crypto/command/CommandParser.java:20 | `split("\\s+")` of a line not ending in `\s` has at least one piece. |
| JavaText.SpacePiecesShape | src/bg/sofia/uni/fmi/mjt/crypto/command/CommandParser.java:20 | The raw pieces between runs of `\s` hold no `\s`. Only the first and last can be empty, exactly when the line starts or ends with `\s`. There is one piece exactly when the line has no `\s`. |
| JavaText.JoinSpacePieces | src/bg/sofia/uni/fmi/mjt/crypto/command/CommandParser.java:20 | Joining those pieces with single spaces collapses every run of `\s` to one space. |
| JavaText.SpacePiecesOfJoin | src/bg/sofia/uni/fmi/mjt/crypto/command/CommandParser.java:20 | Splitting on `\s+` undoes joining non-empty, space-free words with single spaces. |
| JavaText.NatToString | src/bg/sofia/uni/fmi/mjt/crypto/command/CommandValidator.java:117 | `%d` of a natural number: a non-empty string of decimal digits. |
| JavaText.HexString | src/bg/sofia/uni/fmi/mjt/crypto/dto/Asset.java:55-57 | `Integer.toHexString`: a non-empty string. |
| CommandParser.Parse | src/bg/sofia/uni/fmi/mjt/crypto/command/CommandParser.java:8-11 | A blank line parses to the shared empty command. |
| CommandParser.ParseTokens | src/bg/sofia/uni/fmi/mjt/crypto/command/CommandParser.java:13-16 | Otherwise, when the trimmed line is not empty, the name and every argument are non-empty and free of `\s`. Joined by single spaces they give the trimmed line with each run of `\s` collapsed to one space, so they are its words in order. |
| CommandParser.RegexSplitWords | src/bg/sofia/uni/fmi/mjt/crypto/command/CommandParser.java:19-21 | The `\s+` split of a line that neither starts nor ends with `\s` is its words: non-empty, space-free, and they re-join to the collapsed line. |
| CommandParser.ParseSingleWord | src/bg/sofia/uni/fmi/mjt/crypto/command/CommandParser.java:13-16 | A trimmed line of one word parses to that word with zero arguments. |
| CommandParser.ParseTrimsToNothing | src/bg/sofia/uni/fmi/mjt/crypto/command/CommandParser.java:13-16 | A line that is not blank but trims to nothing parses to a command equal to the empty one. |
| CommandParser.ParsePadded | src/bg/sofia/uni/fmi/mjt/crypto/command/CommandParser.java:8-16 | Leading and trailing `\s` padding does not change the parsed command. |
| CommandParser.BlankPadded | src/bg/sofia/uni/fmi/mjt/crypto/command/CommandParser.java:9 | Padding with `\s` does not change whether a line is blank. |
| CommandParser.RegexSplitOfJoin | src/bg/sofia/uni/fmi/mjt/crypto/command/CommandParser.java:19-21 | Non-empty, space-free words joined by single spaces split back into exactly those words. |
| CommandParser.ParseOfJoin | src/bg/sofia/uni/fmi/mjt/crypto/command/CommandParser.java:8-17 | Such a line parses back to its first word as the name and the others, in order, as the arguments. |
| CommandValidator.CheckArgumentCount | src/bg/sofia/uni/fmi/mjt/crypto/command/CommandValidator.java:108-118 | No error exactly when the count equals the expected one. |
| CommandValidator.ValidIff | src/bg/sofia/uni/fmi/mjt/crypto/command/CommandValidator.java:14-106 | A known command passes exactly when its access rule is met and its argument count is its arity (signup, login and buy take 2; deposit and sell take 1; the others take 0). Unknown names always pass. |
| CommandValidator.ValidateByTable | src/bg/sofia/uni/fmi/mjt/crypto/command/CommandValidator.java:14-106 | The answer, message for message, from an independent rule table: an unmet access rule is reported before the argument count. |
| CommandValidator.LoggedInCannotSignUpOrLogIn | src/bg/sofia/uni/fmi/mjt/crypto/command/CommandValidator.java:32-46 | With a user present, signup and login answer "Log out first" whatever the arguments. |
| CommandValidator.LoggedOutCannotUseWallet | src/bg/sofia/uni/fmi/mjt/crypto/command/CommandValidator.java:52-98 | With no user, deposit, buy, sell, summary, trends and logout answer "Log in first" whatever the arguments. |
| CommandValidator.ListAndExitIgnoreUser | src/bg/sofia/uni/fmi/mjt/crypto/command/CommandValidator.java:48-50 | list and exit give the same answer with or without a user: the check for zero arguments. |
| CommandValidator.UnknownAlwaysValid | src/bg/sofia/uni/fmi/mjt/crypto/command/CommandValidator.java:104-106 | An unknown name, the empty command's included, always passes. |
| CommandValidator.ArityMessages | src/bg/sofia/uni/fmi/mjt/crypto/command/CommandValidator.java:113-117 | An arity failure reads "1 argument expected" when one is expected and "<n> arguments expected" otherwise. |
| CommandValidator.ZeroAndTwoExpected | test/bg/sofia/uni/fmi/mjt/crypto/command/CommandValidatorTest.java:95-103 | The concrete messages "0 arguments expected" and "2 arguments expected". |
| CommandValidator.ArityMessageHasSpace | src/bg/sofia/uni/fmi/mjt/crypto/command/CommandValidator.java:113-117 | Every arity message holds a space. |
| CommandValidator.MessagesHaveSpace | src/bg/sofia/uni/fmi/mjt/crypto/command/CommandValidator.java:9-12 | Every validator message holds a space. |
| Assets.SameAssetIsIdEquality | src/bg/sofia/uni/fmi/mjt/crypto/dto/Asset.java:40-52 | `equals` is an equivalence that holds exactly when the ids are equal. |
| Assets.SameAssetIgnoresDetails | src/bg/sofia/uni/fmi/mjt/crypto/dto/Asset.java:50-51 | `equals` ignores name, crypto flag and price. |
| Assets.HashAgreesWithEquality | src/bg/sofia/uni/fmi/mjt/crypto/dto/Asset.java:54-57 | Equal assets have equal hash codes and equal inherited `toString` texts. |
| Wallets.NewWalletHealthy | src/bg/sofia/uni/fmi/mjt/crypto/wallet/DefaultCryptoWallet.java:37-39 | A new wallet has balance 0, no holdings, and satisfies the wallet invariant. |
| Wallets.DepositThenWithdraw | src/bg/sofia/uni/fmi/mjt/crypto/wallet/DefaultCryptoWallet.java:57-62 | A deposit fails exactly on a negative amount, with NegativeValue. Otherwise it adds exactly the amount, and, from a non-negative balance, withdrawing the amount restores the wallet. |
| Wallets.WithdrawOutcomes | src/bg/sofia/uni/fmi/mjt/crypto/wallet/DefaultCryptoWallet.java:64-73 | A negative amount fails with NegativeValue; more than the balance fails with InsufficientResources. Success happens exactly when 0 <= amount <= balance. It then subtracts exactly the amount, leaves no debt and keeps both maps. |
| Wallets.BuyFailsAsWithdrawal | src/bg/sofia/uni/fmi/mjt/crypto/wallet/DefaultCryptoWallet.java:92-101 | A buy fails exactly when its withdrawal would, with the same error, and then nothing changes. |
| Wallets.BuyAccumulates | src/bg/sofia/uni/fmi/mjt/crypto/wallet/DefaultCryptoWallet.java:95-100 | A successful buy takes the money and adds money / price to the holding, opening it if absent. It records the entry price only when the id had none, and leaves every other id as it was. |
| Wallets.SellOutcomes | src/bg/sofia/uni/fmi/mjt/crypto/wallet/DefaultCryptoWallet.java:103-113 | A sell fails exactly on an id not held, with AssetNotFound. Otherwise it credits quantity times price, drops the id from both maps and leaves every other id as it was. |
| Wallets.BuyThenSell | src/bg/sofia/uni/fmi/mjt/crypto/wallet/DefaultCryptoWallet.java:92-113 | Buying an id not yet held and then selling it at the same price gives back exactly the starting wallet. |
| Wallets.DepositKeepsHealthy | src/bg/sofia/uni/fmi/mjt/crypto/wallet/DefaultCryptoWallet.java:57-62 | A deposit keeps the invariant: no debt, no negative holding, positive entry prices, equal key sets. |
| Wallets.WithdrawKeepsHealthy | src/bg/sofia/uni/fmi/mjt/crypto/wallet/DefaultCryptoWallet.java:64-73 | A withdrawal keeps the invariant. |
| Wallets.BuyKeepsHealthy | src/bg/sofia/uni/fmi/mjt/crypto/wallet/DefaultCryptoWallet.java:92-101 | A buy at a positive price keeps the invariant, including equal key sets of the two maps. |
| Wallets.SellKeepsHealthy | src/bg/sofia/uni/fmi/mjt/crypto/wallet/DefaultCryptoWallet.java:103-113 | A sell at a non-negative price keeps the invariant. |
| Wallets.SumValues | src/bg/sofia/uni/fmi/mjt/crypto/wallet/DefaultCryptoWallet.java:82-84 | Non-negative quantities at non-negative prices sum to a non-negative value. |
| Wallets.SumOrderFree | src/bg/sofia/uni/fmi/mjt/crypto/wallet/DefaultCryptoWallet.java:82-84 | The sum is the same in any order of the held ids, so the `HashMap` order does not matter. |
| Wallets.CryptoBalanceFacts | src/bg/sofia/uni/fmi/mjt/crypto/wallet/DefaultCryptoWallet.java:80-85 | `getCryptoBalance`: nothing held is worth 0; a healthy wallet at non-negative prices is worth at least 0; any listing of the holdings gives the same total. |
| Wallets.PercentChange | src/bg/sofia/uni/fmi/mjt/crypto/wallet/DefaultCryptoWallet.java:181-186 | With a positive entry price, the trend is positive exactly when the price rose and zero exactly when it did not move. |
| Wallets.EmptyReports | src/bg/sofia/uni/fmi/mjt/crypto/wallet/DefaultCryptoWallet.java:116-122 | With nothing held, the summary is the balance line followed by "No investments", and the trends are "No investments". |
| Wallets.ReportLines | src/bg/sofia/uni/fmi/mjt/crypto/wallet/DefaultCryptoWallet.java:140-151 | Both reports list one line per holding; with holdings, the trends start with "Current trends:". |
| Wallets.EntryTexts | src/bg/sofia/uni/fmi/mjt/crypto/wallet/DefaultCryptoWallet.java:188-192 | One `id=value` text per listed id, in that order. |
| Wallets.EntryRoundTrip | src/bg/sofia/uni/fmi/mjt/crypto/wallet/DefaultCryptoWallet.java:158-162 | `parseEntry` reads back a rendered `id=value` entry whose value reads back exactly. |
| Wallets.EntriesRoundTrip | src/bg/sofia/uni/fmi/mjt/crypto/wallet/DefaultCryptoWallet.java:169-171 | Collecting rendered entries of distinct ids adds exactly those entries. |
| Wallets.MapRoundTrip | src/bg/sofia/uni/fmi/mjt/crypto/wallet/DefaultCryptoWallet.java:164-172 | For keys free of `;`, `,` and `=` and values that read back exactly, `parseMap(mapToString(m))` is `m`, and the rendering holds no `;`. |
| Wallets.WalletRoundTrip | src/bg/sofia/uni/fmi/mjt/crypto/wallet/DefaultCryptoWallet.java:47-55 | `of(toString(w))` has the balance, holdings and entry prices of `w`, for ids free of the delimiters and numbers that read back exactly, as every Java double does. |
| Wallets.BlankFieldIsEmpty | src/bg/sofia/uni/fmi/mjt/crypto/wallet/DefaultCryptoWallet.java:164-167 | A blank map field reads as the empty map. |
| Wallets.SingleEntryTextRoundTrip | test/bg/sofia/uni/fmi/mjt/crypto/wallet/DefaultCryptoWalletTest.java:58-64 | A record with one entry per map, such as "1000.0;BTC=0.1;BTC=500.0", is read and written back as the very same text. |
| Wallets.BlankRecordSplits | src/bg/sofia/uni/fmi/mjt/crypto/wallet/DefaultCryptoWallet.java:47-52 | A record "<b>;;" splits into the balance and two empty fields, and reads as an empty wallet. |
| Wallets.FrozenBuyLosesMoney | src/bg/sofia/uni/fmi/mjt/crypto/wallet/DefaultCryptoWallet.java:164-167 | As written: after reading a record "<b>;;", both maps are the immutable empty map. The first buy then takes the money and holds nothing. |
| Wallets.BlankRecordBuyHolds | src/bg/sofia/uni/fmi/mjt/crypto/wallet/DefaultCryptoWallet.java:92-101 | Corrected: the same record and buy, with ordinary maps, hold money / price of the asset at its entry price. |
| Wallets.Wallet.constructor | src/bg/sofia/uni/fmi/mjt/crypto/wallet/DefaultCryptoWallet.java:37-39 | A new wallet object holds the empty wallet. |
| Wallets.Wallet.Holding | src/bg/sofia/uni/fmi/mjt/crypto/wallet/DefaultCryptoWallet.java:41-45 | A wallet object built from given contents holds exactly them. |
| Wallets.Wallet.Deposit | src/bg/sofia/uni/fmi/mjt/crypto/wallet/DefaultCryptoWallet.java:57-62 | `deposit` in place: the new contents are the specified deposit on success. On error, the error is returned and nothing changes. |
| Wallets.Wallet.Withdraw | src/bg/sofia/uni/fmi/mjt/crypto/wallet/DefaultCryptoWallet.java:64-73 | `withdraw` in place, to the same all-or-nothing specification. |
| Wallets.Wallet.Buy | src/bg/sofia/uni/fmi/mjt/crypto/wallet/DefaultCryptoWallet.java:92-101 | `buy` in place: withdraw first, then `putIfAbsent` and `merge`, as the specified buy. |
| Wallets.Wallet.Sell | src/bg/sofia/uni/fmi/mjt/crypto/wallet/DefaultCryptoWallet.java:103-113 | `sell` in place, as the specified sell. |
| Users.RemainderIsWallet | src/bg/sofia/uni/fmi/mjt/crypto/user/DefaultCryptoUser.java:30-38 | For a `;`-free username and password, whatever follows the second `;` is the wallet record, and it alone decides acceptance and the error. |
| Users.UserRoundTrip | src/bg/sofia/uni/fmi/mjt/crypto/user/DefaultCryptoUser.java:73-76 | `of(toString(u))` has the username, password and wallet contents of `u`, for `;`-free name and password and a wallet that round-trips. |
| Users.NewWalletText | src/bg/sofia/uni/fmi/mjt/crypto/wallet/DefaultCryptoWallet.java:153-156 | An empty wallet is written as "0.0;;". |
| Users.NewUserLineRoundTrip | test/bg/sofia/uni/fmi/mjt/crypto/user/DefaultCryptoUserTest.java:9-17 | "username;password;0.0;;" reads as that name, that password and an empty wallet, and is written back as the same line. |
| Users.User.constructor | src/bg/sofia/uni/fmi/mjt/crypto/user/DefaultCryptoUser.java:20-22 | A new account owns a fresh, empty wallet. |
| Users.User.Owning | src/bg/sofia/uni/fmi/mjt/crypto/user/DefaultCryptoUser.java:24-28 | An account built from its parts holds exactly them. |
| Users.SameUserIsUsernameEquality | src/bg/sofia/uni/fmi/mjt/crypto/user/DefaultCryptoUser.java:54-71 | `equals` is an equivalence on usernames that ignores password and wallet. Equal accounts hash alike. |
| UserStorage.UserStore.constructor | src/bg/sofia/uni/fmi/mjt/crypto/storage/DefaultCryptoUserStorage.java:22-27 | A store starts with no accounts and no writes. |
| UserStorage.UserStore.Get | src/bg/sofia/uni/fmi/mjt/crypto/storage/DefaultCryptoUserStorage.java:29-32 | `get` answers the filed account, or nothing for an unknown username. |
| UserStorage.UserStore.Add | src/bg/sofia/uni/fmi/mjt/crypto/storage/DefaultCryptoUserStorage.java:34-41 | A taken username fails with UsernameTaken and changes nothing. Otherwise the account is filed under its username and every other entry is kept. Nothing is written out, and the store invariant holds. |
| UserStorage.UserStore.Update | src/bg/sofia/uni/fmi/mjt/crypto/storage/DefaultCryptoUserStorage.java:43-48 | `update` replaces only an existing entry and never inserts. Every other entry is kept, and the accounts are written out once. |
| AssetStorage.Cryptos | src/bg/sofia/uni/fmi/mjt/crypto/storage/DefaultAssetStorage.java:111 | `filter(isCrypto)` keeps every crypto asset as often as it occurs, and nothing else. |
| AssetStorage.Insert | src/bg/sofia/uni/fmi/mjt/crypto/storage/DefaultAssetStorage.java:112 | Inserting into a list sorted dearest first keeps it sorted and adds exactly that asset. |
| AssetStorage.SortDescending | src/bg/sofia/uni/fmi/mjt/crypto/storage/DefaultAssetStorage.java:112 | The sort by price, dearest first, is sorted and a permutation of its input. |
| AssetStorage.SelectedFromCatalog | src/bg/sofia/uni/fmi/mjt/crypto/storage/DefaultAssetStorage.java:110-113 | Every asset kept is a crypto asset of the catalog. |
| AssetStorage.SelectedDominates | src/bg/sofia/uni/fmi/mjt/crypto/storage/DefaultAssetStorage.java:112-113 | No asset kept is cheaper than one left out by the limit. |
| AssetStorage.SelectedFacts | src/bg/sofia/uni/fmi/mjt/crypto/storage/DefaultAssetStorage.java:110-113 | The selection holds at most `limit` assets, and fewer only when nothing is left out. Its assets are crypto assets of the catalog, and with what is left out it is exactly the catalog's crypto assets. It dominates what is left out. |
| AssetStorage.IndexFacts | src/bg/sofia/uni/fmi/mjt/crypto/storage/DefaultAssetStorage.java:114 | `toMap(getId)` succeeds exactly when no id repeats. It then files every asset under its own id and adds nothing else. |
| AssetStorage.IndexError | src/bg/sofia/uni/fmi/mjt/crypto/storage/DefaultAssetStorage.java:114 | A failed indexing is a duplicate-key failure. |
| AssetStorage.IdsBound | src/bg/sofia/uni/fmi/mjt/crypto/storage/DefaultAssetStorage.java:114 | A list has no more distinct ids than assets. |
| AssetStorage.DistinctIffOnePerId | src/bg/sofia/uni/fmi/mjt/crypto/dto/Asset.java:40-52 | A list has distinct ids exactly when its multiset holds at most one asset per id. |
| AssetStorage.DistinctCatalogIndexes | src/bg/sofia/uni/fmi/mjt/crypto/storage/DefaultAssetStorage.java:110-114 | A catalog with one asset per id, as a `Set<Asset>` is, is always indexed without a duplicate key. |
| AssetStorage.IndexedSelection | src/bg/sofia/uni/fmi/mjt/crypto/storage/DefaultAssetStorage.java:110-114 | The index of the selection holds at most `limit` crypto assets of the catalog under their own ids, none cheaper than an asset left out. |
| AssetStorage.RefreshCounts | src/bg/sofia/uni/fmi/mjt/crypto/storage/DefaultAssetStorage.java:108-119 | A refresh asks the service once and keeps both settings. A failed service call is "Could not load data". Any failure keeps `assets` and `lastUpdate`, and a success records `now`. |
| AssetStorage.RefreshFacts | src/bg/sofia/uni/fmi/mjt/crypto/storage/DefaultAssetStorage.java:108-119 | A successful refresh files only the selected assets: crypto only, at most `limit`, each under its own id, none cheaper than one dropped. A catalog with distinct ids always refreshes successfully. |
| AssetStorage.ReadFetchesIffStale | src/bg/sofia/uni/fmi/mjt/crypto/storage/DefaultAssetStorage.java:98-106 | A read asks the service exactly when the cache was never filled or its last fill is `interval` minutes old or older. A fresh cache is left exactly as it is. |
| AssetStorage.ZeroIntervalFetchesEveryRead | src/bg/sofia/uni/fmi/mjt/crypto/storage/DefaultAssetStorage.java:104-106 | With interval 0, every read asks the service, and the next read asks again. |
| AssetStorage.WindowFetchesOnce | src/bg/sofia/uni/fmi/mjt/crypto/storage/DefaultAssetStorage.java:104-106 | After a successful refresh at `t0`, every read before `t0 + interval` finds the cache fresh: one request serves the window. |
| AssetStorage.EnsureFreshKeyed | src/bg/sofia/uni/fmi/mjt/crypto/storage/DefaultAssetStorage.java:98-102 | A read keeps the cache filed by id. |
| AssetStorage.LookupAssetFacts | src/bg/sofia/uni/fmi/mjt/crypto/storage/DefaultAssetStorage.java:58-67 | `getAsset` answers the cached asset with that very id. An id not cached after the refresh is "Unknown asset: <id>", and a failed refresh is passed on. |
| AssetStorage.ListAssetsFacts | src/bg/sofia/uni/fmi/mjt/crypto/storage/DefaultAssetStorage.java:69-74 | `getAssets` lists every cached asset once and nothing else. |
| AssetStorage.LookupPriceFacts | src/bg/sofia/uni/fmi/mjt/crypto/storage/DefaultAssetStorage.java:76-82 | `getAssetPrice` answers the cached price, or 0.0 for an id not cached. It fails only when the refresh does. |
| AssetStorage.SweepFacts | src/bg/sofia/uni/fmi/mjt/crypto/storage/DefaultAssetStorage.java:88-95 | The price stream adds a price for every id asked for and keeps earlier entries. It fails only on a duplicate: a catalog with a repeated id, or an id asked for twice, which distinct ids rule out. |
| AssetStorage.FreshSweep | src/bg/sofia/uni/fmi/mjt/crypto/storage/DefaultAssetStorage.java:88-95 | On a fresh cache, a sweep of distinct ids changes nothing and prices each id at its cached price, 0.0 when not cached. |
| AssetStorage.LookupPricesFacts | src/bg/sofia/uni/fmi/mjt/crypto/storage/DefaultAssetStorage.java:84-96 | `getAssetPrices` of distinct ids has exactly those ids as keys. It fails only on a failed refresh or an unindexable catalog. On a cache fresh after the first read, each id has its cached price or 0.0. |
| AssetStorage.EnsureFreshSound | src/bg/sofia/uni/fmi/mjt/crypto/storage/DefaultAssetStorage.java:98-119 | With a service that prices its assets above zero, a read keeps every cached price above zero and the cache filed by id. |
| AssetStorage.SweepSound | src/bg/sofia/uni/fmi/mjt/crypto/storage/DefaultAssetStorage.java:88-95 | The price stream keeps the cache sound. |
| AssetStorage.LookupKeepsSound | src/bg/sofia/uni/fmi/mjt/crypto/storage/DefaultAssetStorage.java:58-67 | `getAsset` keeps the cache sound and answers an asset priced above zero. |
| AssetStorage.ListKeepsSound | src/bg/sofia/uni/fmi/mjt/crypto/storage/DefaultAssetStorage.java:69-74 | `getAssets` keeps the cache sound. |
| AssetStorage.PricesKeepSound | src/bg/sofia/uni/fmi/mjt/crypto/storage/DefaultAssetStorage.java:84-96 | `getAssetPrices` keeps the cache sound. |
| AssetStorage.AssetFeed.GetAssets | src/bg/sofia/uni/fmi/mjt/crypto/storage/DefaultAssetStorage.java:110 | One request: the answer is the next scripted one, and the count of requests grows by one. |
| AssetStorage.AssetCache.constructor | src/bg/sofia/uni/fmi/mjt/crypto/storage/DefaultAssetStorage.java:36-40 | A new cache is empty, never filled, with both settings clamped. |
| AssetStorage.AssetCache.SetUpdateInterval | src/bg/sofia/uni/fmi/mjt/crypto/storage/DefaultAssetStorage.java:46-48 | A negative interval becomes 30. Any other is stored as given, and nothing else changes. |
| AssetStorage.AssetCache.SetAssetLimit | src/bg/sofia/uni/fmi/mjt/crypto/storage/DefaultAssetStorage.java:54-56 | A negative limit becomes 150. Any other is stored as given, and nothing else changes. |
| AssetStorage.AssetCache.IsUpToDate | src/bg/sofia/uni/fmi/mjt/crypto/storage/DefaultAssetStorage.java:104-106 | The staleness test on the current fields. |
| AssetStorage.AssetCache.Update | src/bg/sofia/uni/fmi/mjt/crypto/storage/DefaultAssetStorage.java:108-119 | The fields after `update` are the specified refresh of the old ones. |
| AssetStorage.AssetCache.RequireUpToDate | src/bg/sofia/uni/fmi/mjt/crypto/storage/DefaultAssetStorage.java:98-102 | Refreshes exactly as the specified read does. |
| AssetStorage.AssetCache.GetAsset | src/bg/sofia/uni/fmi/mjt/crypto/storage/DefaultAssetStorage.java:58-67 | New fields and answer as the specified `getAsset`. |
| AssetStorage.AssetCache.GetAssets | src/bg/sofia/uni/fmi/mjt/crypto/storage/DefaultAssetStorage.java:69-74 | New fields and answer as the specified `getAssets`. |
| AssetStorage.AssetCache.GetAssetPrice | src/bg/sofia/uni/fmi/mjt/crypto/storage/DefaultAssetStorage.java:76-82 | New fields and answer as the specified `getAssetPrice`. |
| AssetStorage.AssetCache.GetAssetPrices | src/bg/sofia/uni/fmi/mjt/crypto/storage/DefaultAssetStorage.java:84-96 | The loop over the ids gives the new fields and answer of the specified price stream. |
| Executor.ListReplies | src/bg/sofia/uni/fmi/mjt/crypto/command/CommandExecutor.java:86-90 | `list`, logged in or not, changes only the cache. A failed refresh is answered with its message. Otherwise the reply joins as many lines as there are cached assets, and every cached asset has its `id: price` line. |
| Executor.HoldingsPriced | src/bg/sofia/uni/fmi/mjt/crypto/command/CommandExecutor.java:123-124 | A successful price lookup for a wallet's holdings prices every holding and nothing else. |
| Executor.LoggedIn | src/bg/sofia/uni/fmi/mjt/crypto/command/CommandExecutor.java:34 | The session name counts as logged in exactly when it names an account. |
| Executor.DispatchKeepsSound | src/bg/sofia/uni/fmi/mjt/crypto/command/CommandExecutor.java:47-145 | Every handler leaves the world sound: accounts filed under their names with healthy wallets, and a sound cache. |
| Executor.DepositKeepsSound | src/bg/sofia/uni/fmi/mjt/crypto/command/CommandExecutor.java:92-99 | `deposit` keeps the world sound. |
| Executor.BuyKeepsSound | src/bg/sofia/uni/fmi/mjt/crypto/command/CommandExecutor.java:101-111 | `buy` keeps the world sound. |
| Executor.SellKeepsSound | src/bg/sofia/uni/fmi/mjt/crypto/command/CommandExecutor.java:113-121 | `sell` keeps the world sound. |
| Executor.ExecutionKeepsSound | src/bg/sofia/uni/fmi/mjt/crypto/command/CommandExecutor.java:33-45 | `execute` keeps the world sound, whatever the command. |
| Executor.FixedReplies | src/bg/sofia/uni/fmi/mjt/crypto/command/CommandExecutor.java:33-45 | A rejected command is answered with the validator's message and changes nothing. A logged-in logout, an exit and an unknown command change nothing either, and answer their fixed replies. |
| Executor.DepositSaves | src/bg/sofia/uni/fmi/mjt/crypto/command/CommandExecutor.java:92-99 | `deposit` either changes no account and writes nothing, or replaces only the caller's wallet and writes once. |
| Executor.BuySaves | src/bg/sofia/uni/fmi/mjt/crypto/command/CommandExecutor.java:101-111 | The same for `buy`. |
| Executor.SellSaves | src/bg/sofia/uni/fmi/mjt/crypto/command/CommandExecutor.java:113-121 | The same for `sell`. |
| Executor.DispatchEffect | src/bg/sofia/uni/fmi/mjt/crypto/command/CommandExecutor.java:47-145 | Every handler leaves the accounts in one of three ways: unchanged; with only the caller's wallet changed and one write; or with the new signup account added and no write. |
| Executor.AccountEffects | src/bg/sofia/uni/fmi/mjt/crypto/command/CommandExecutor.java:33-45 | Only the caller's account can change, and never its name or password. The only account that can appear is the one signup creates. Only a logged-in deposit, buy or sell writes the accounts out. |
| Executor.AccountsNeverRemoved | src/bg/sofia/uni/fmi/mjt/crypto/command/CommandExecutor.java:33-45 | No command removes an account. |
| Executor.UnknownUserIsLoggedOut | src/bg/sofia/uni/fmi/mjt/crypto/command/CommandExecutor.java:34 | A session name with no account gives the same answer and world as no login at all. |
| Executor.LogInReplies | src/bg/sofia/uni/fmi/mjt/crypto/command/CommandExecutor.java:73-84 | `login` changes nothing. It answers the username exactly when the account exists and the password checks, and otherwise "Incorrect username or password", the same for both failures. |
| Executor.SignUpThenLogIn | src/bg/sofia/uni/fmi/mjt/crypto/command/CommandExecutor.java:63-71 | A new account can log in with its password at once. Its name cannot be signed up again ("Username is taken"), and creating it writes nothing. |
| Executor.DepositReplies | src/bg/sofia/uni/fmi/mjt/crypto/command/CommandExecutor.java:92-99 | `deposit`: an unparsable amount answers "Invalid argument. Only numbers allowed" and a negative one "Money should not be negative", both with no change. Otherwise the balance grows by the amount, the accounts are written once and the new balance is reported. |
| Executor.LoggedInRuns | src/bg/sofia/uni/fmi/mjt/crypto/command/CommandExecutor.java:38-39 | A command a logged-in caller may give runs its handler on the caller's account. |
| Executor.BuyStepFacts | src/bg/sofia/uni/fmi/mjt/crypto/command/CommandExecutor.java:101-111 | `buy`: an unparsable amount is reported before the cache is asked. A cache failure is reported before the wallet is touched. A purchase at the cached, positive price takes the money, adds money / price, writes once and reports the balance; a refused one changes only the cache. |
| Executor.BuyReplies | src/bg/sofia/uni/fmi/mjt/crypto/command/CommandExecutor.java:101-111 | `execute` of a buy by a logged-in caller is the buy handler. |
| Executor.SellStepFacts | src/bg/sofia/uni/fmi/mjt/crypto/command/CommandExecutor.java:113-121 | `sell`: the cache is consulted first, and its failure is reported first. An asset not held is "Asset not found in wallet" with no change. A sale credits quantity times price, drops the holding and writes once. |
| Executor.SellReplies | src/bg/sofia/uni/fmi/mjt/crypto/command/CommandExecutor.java:113-121 | `execute` of a sell by a logged-in caller is the sell handler. |
| Executor.ReportStepFacts | src/bg/sofia/uni/fmi/mjt/crypto/command/CommandExecutor.java:123-133 | `summary` and `trends` change only the cache and get prices for exactly the held ids. A failure is a failed load or a catalog with a repeated id, answered with its message. On an up-to-date cache they fetch nothing and succeed. |
| Executor.ReportReplies | src/bg/sofia/uni/fmi/mjt/crypto/command/CommandExecutor.java:123-133 | `execute` of summary or trends by a logged-in caller is the report handler. |
| Executor.CommandExecutor.constructor | src/bg/sofia/uni/fmi/mjt/crypto/command/CommandExecutor.java:28-31 | The executor holds the given store, cache and platform. |
| Executor.CommandExecutor.Execute | src/bg/sofia/uni/fmi/mjt/crypto/command/CommandExecutor.java:33-45 | Reply and new state are the specified `execute`, and the invariant is kept. |
| Executor.CommandExecutor.Run | src/bg/sofia/uni/fmi/mjt/crypto/command/CommandExecutor.java:47-61 | Dispatch by name: new state and result are the specified handler's. |
| Executor.CommandExecutor.SignUp | src/bg/sofia/uni/fmi/mjt/crypto/command/CommandExecutor.java:63-71 | New state and result as the specified `signUp`. |
| Executor.CommandExecutor.LogIn | src/bg/sofia/uni/fmi/mjt/crypto/command/CommandExecutor.java:73-84 | Result as the specified `logIn`, with nothing changed. |
| Executor.CommandExecutor.List | src/bg/sofia/uni/fmi/mjt/crypto/command/CommandExecutor.java:86-90 | New state and result as the specified `list`. |
| Executor.CommandExecutor.Deposit | src/bg/sofia/uni/fmi/mjt/crypto/command/CommandExecutor.java:92-99 | New state and result as the specified `deposit`. |
| Executor.CommandExecutor.Buy | src/bg/sofia/uni/fmi/mjt/crypto/command/CommandExecutor.java:101-111 | New state and result as the specified `buy`. |
| Executor.CommandExecutor.Sell | src/bg/sofia/uni/fmi/mjt/crypto/command/CommandExecutor.java:113-121 | New state and result as the specified `sell`. |
| Executor.CommandExecutor.ApplyDeposit | src/bg/sofia/uni/fmi/mjt/crypto/command/CommandExecutor.java:95-98 | The wallet deposit, followed by `update` on success, gives the specified end of `deposit`. |
| Executor.CommandExecutor.ApplyBuy | src/bg/sofia/uni/fmi/mjt/crypto/command/CommandExecutor.java:107-110 | The wallet buy, followed by `update` on success, gives the specified end of `buy`. |
| Executor.CommandExecutor.ApplySell | src/bg/sofia/uni/fmi/mjt/crypto/command/CommandExecutor.java:117-120 | The wallet sell, followed by `update` on success, gives the specified end of `sell`. |
| Executor.CommandExecutor.Report | src/bg/sofia/uni/fmi/mjt/crypto/command/CommandExecutor.java:123-133 | New state and result as the specified `summary` or `trends`. |
| ConnectionServer.SessionRules | src/bg/sofia/uni/fmi/mjt/crypto/Server.java:140-147 | The identity changes only by a login from a connection without one, which takes the reply as identity and sends "Welcome", or by a logout, which clears it whatever the reply. Every other reply is sent verbatim and keeps the identity. |
| ConnectionServer.ParsedLogInArguments | src/bg/sofia/uni/fmi/mjt/crypto/Server.java:137 | The arguments of a parsed login hold no space. |
| ConnectionServer.LogInIdentity | src/bg/sofia/uni/fmi/mjt/crypto/Server.java:140-142 | Without an identity, a command sets one exactly when it is a login with two arguments naming an account whose password checks. The identity is then that username, "Welcome" is sent and nothing changes. |
| ConnectionServer.RequestLogInIdentity | src/bg/sofia/uni/fmi/mjt/crypto/Server.java:136-142 | The same for a request line as received: the identity is set exactly on a successful login. |
| ConnectionServer.IdentityStaysKnown | src/bg/sofia/uni/fmi/mjt/crypto/Server.java:136-145 | Accounts are never removed, and a connection takes on only a username that names an account. |
| ConnectionServer.LogInNamesAccount | src/bg/sofia/uni/fmi/mjt/crypto/Server.java:140-142 | A login from a connection without an identity can set only a username that names an account. |
| ConnectionServer.Server.constructor | src/bg/sofia/uni/fmi/mjt/crypto/Server.java:42-48 | A server over a sound executor starts with no connections. |
| ConnectionServer.Server.Accept | src/bg/sofia/uni/fmi/mjt/crypto/Server.java:150-154 | A new connection is registered with no identity, and nothing else changes. |
| ConnectionServer.Server.Attach | src/bg/sofia/uni/fmi/mjt/crypto/Server.java:141-144 | `key.attach`: only that connection's identity changes. |
| ConnectionServer.Server.Read | src/bg/sofia/uni/fmi/mjt/crypto/Server.java:128-148 | At end of stream nothing runs and the connection is closed. Otherwise the request is parsed and executed under the connection's identity. The identity is updated by the session rule and the rule's text is sent. Every identity keeps naming an account. |
| ConnectionServer.Server.Respond | src/bg/sofia/uni/fmi/mjt/crypto/Server.java:136-147 | Parse, execute, update the identity, answer: the new state, the identity and the text sent are the specified ones. |

## Left out

- Sockets, the selector loop, `start` and `stop`, the byte buffer and its 4096-byte capacity, and the client: plain I/O. `Server.Read` receives the request already decoded, or `None` at end of stream.
- `DefaultAssetService` (HTTP and JSON decoding): an external service. `AssetFeed` stands for it, answering each request from a scripted sequence of catalogs or failures.
- Reading and writing `user-database.csv`: file I/O. `persist` is counted by the store's `writes`. `load` is not modelled, so a store starts empty. The record format that `load` reads is modelled and proved to round-trip for `Exact` numbers.
- BCrypt's `hashpw`, `gensalt` and `checkpw`: a foreign library. They are the platform's `hash(password, salt)` and `check(password, hash)`, and the salt is a parameter.
- Floating point: amounts, prices and quantities are mathematical reals. Rounding, NaN and infinities are not modelled. `Double.toString`, `parseDouble` and the `%f`, `%.2f`, `%013.8f` and `%+.2f` formats are platform functions. Only `Lawful` is assumed of them, and reading a rendered number back is assumed only where a lemma asks for `Exact`.
- `System.lineSeparator()` is taken to be "\n".
- Wallets.EntryRoundTrip: holds for numbers that are `Exact`, that is, that read back from their own rendering. Reals are not doubles, and no rendering reads back every real; in Java every double reads back exactly.
- Wallets.EntriesRoundTrip: holds for numbers that are `Exact`, that is, that read back from their own rendering. Reals are not doubles, and no rendering reads back every real; in Java every double reads back exactly.
- Wallets.MapRoundTrip: holds for numbers that are `Exact`, that is, that read back from their own rendering. Reals are not doubles, and no rendering reads back every real; in Java every double reads back exactly.
- Wallets.WalletRoundTrip: holds for numbers that are `Exact`, that is, that read back from their own rendering. Reals are not doubles, and no rendering reads back every real; in Java every double reads back exactly.
- Wallets.SingleEntryTextRoundTrip: holds for numbers that are `Exact`, that is, that read back from their own rendering. Reals are not doubles, and no rendering reads back every real; in Java every double reads back exactly.
- Wallets.BlankRecordSplits: holds for numbers that are `Exact`, that is, that read back from their own rendering. Reals are not doubles, and no rendering reads back every real; in Java every double reads back exactly.
- Wallets.FrozenBuyLosesMoney: holds for numbers that are `Exact`, that is, that read back from their own rendering. Reals are not doubles, and no rendering reads back every real; in Java every double reads back exactly.
- Wallets.BlankRecordBuyHolds: holds for numbers that are `Exact`, that is, that read back from their own rendering. Reals are not doubles, and no rendering reads back every real; in Java every double reads back exactly.
- Users.UserRoundTrip: holds for numbers that are `Exact`, that is, that read back from their own rendering. Reals are not doubles, and no rendering reads back every real; in Java every double reads back exactly.
- The iteration order of a `HashMap` is the platform's `keyOrder`. `SumOrderFree` and `CryptoBalanceFacts` show that the wallet value does not depend on it.
- `LocalDateTime.now()` is the parameter `now` in whole minutes, so the cache's freshness test is modelled at minute precision.
- `Wallets.Wallet.Buy`: requires a non-zero price (as do `Wallets.BuyInto` and its lemmas), because the Java division by a zero price gives an IEEE infinity, which reals cannot express.
- `Executor.CommandExecutor.Execute`: requires, through `Setting`, that the service prices its assets above zero. The model therefore leaves out purchases at price 0, and trends against an entry price of 0.
- `Executor.DepositStep`, `Executor.BuyStep`, `Executor.SellStep`: require the argument count their command's arity rule guarantees. The executor calls its handlers only after validation, so the Java out-of-range array access never happens there.
- Command equality: the Java record compares its argument array by reference. The model compares commands as values.
- The validator is declared over the older `User` type, while the executor passes a `CryptoUser`. The model validates from whether a user is present, which is all `validate` inspects.
- `Wallet.java`, `User.java` and `DefaultUserStorage.java`, the earlier variants of the wallet, user and store, are not part of this model.
- A connection closed at end of stream is dropped from the session map. `Server.Accept` does not require a connection number that is new.

## Findings

| source | as written | input that shows it | evidently intended | confidence | as-written member | corrected member |
|---|---|---|---|---|---|---|
| src/bg/sofia/uni/fmi/mjt/crypto/wallet/DefaultCryptoWallet.java:164-167 | `parseMap` answers a blank field with the immutable `Collections.emptyMap()`. `buy` (lines 92-101) withdraws the money first and only then calls `putIfAbsent`, which throws `UnsupportedOperationException` on that map. | A saved record "1000.0;;" read by `of`, then `buy BTC 100` at price 50. The balance drops to 900.0 and nothing is held. | A blank field reads as an ordinary, empty, updatable map, so the buy holds 2.0 BTC at entry price 50. | not executed | Wallets.FrozenBuyLosesMoney | Wallets.BlankRecordBuyHolds |
