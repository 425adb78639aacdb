/** A user's wallet: a cash balance in USD, the quantity held of each asset,
    and the price each asset had when it was first bought. Money only moves
    through `deposit`, `withdraw`, `buy` and `sell`, each of which either
    succeeds completely or fails with a typed error and changes nothing. */
module Wallets {
  import opened Results
  import opened JavaText
  import opened Platform

  datatype WalletError = NegativeValue | InsufficientResources | AssetNotFound

  function WalletMessage(e: WalletError): string {
    match e
    case NegativeValue => "Money should not be negative"
    case InsufficientResources => "Not enough money"
    case AssetNotFound => "Asset not found in wallet"
  }

  /** The contents of a wallet. */
  datatype WalletState = WalletState(
    balance: real,
    investments: map<string, real>,
    entryPrices: map<string, real>)

  const NewWallet: WalletState := WalletState(0.0, map[], map[])

  // ---------------------------------------------------------------------
  // the four operations, as functions of the contents

  function DepositTo(w: WalletState, money: real): Result<WalletState, WalletError> {
    if money < 0.0 then Err(NegativeValue)
    else Ok(w.(balance := w.balance + money))
  }

  function WithdrawFrom(w: WalletState, money: real): Result<WalletState, WalletError> {
    if money < 0.0 then Err(NegativeValue)
    else if w.balance < money then Err(InsufficientResources)
    else Ok(w.(balance := w.balance - money))
  }

  /** Pay `money` for `money / price` units of `id`: the quantity adds to any
      already held, and the entry price is recorded only on the first buy. */
  function BuyInto(w: WalletState, id: string, money: real, price: real): Result<WalletState, WalletError>
    requires price != 0.0
  {
    var quantity := money / price;
    match WithdrawFrom(w, money)
    case Err(e) => Err(e)
    case Ok(paid) =>
      var entries := if id in paid.entryPrices then paid.entryPrices else paid.entryPrices[id := price];
      var held := if id in paid.investments then paid.investments[id] + quantity else quantity;
      Ok(paid.(investments := paid.investments[id := held], entryPrices := entries))
  }

  /** Sell the whole holding of `id` at `price`. */
  function SellOut(w: WalletState, id: string, price: real): Result<WalletState, WalletError> {
    if id !in w.investments then Err(AssetNotFound)
    else Ok(WalletState(w.balance + w.investments[id] * price,
                        w.investments - {id}, w.entryPrices - {id}))
  }

  // ---------------------------------------------------------------------
  // invariants

  predicate KeysAgree(w: WalletState) {
    w.investments.Keys == w.entryPrices.Keys
  }

  /** What every wallet built by the server satisfies: no debt, no negative
      holding, positive entry prices, and the two maps over the same ids. */
  predicate Healthy(w: WalletState) {
    && w.balance >= 0.0
    && (forall k :: k in w.investments ==> w.investments[k] >= 0.0)
    && (forall k :: k in w.entryPrices ==> w.entryPrices[k] > 0.0)
    && KeysAgree(w)
  }

  lemma NewWalletHealthy()
    ensures Healthy(NewWallet) && NewWallet.balance == 0.0 && NewWallet.investments == map[]
  {
  }

  /** A deposit fails exactly on a negative amount; otherwise it adds exactly
      the amount, and withdrawing it again restores the wallet. */
  lemma DepositThenWithdraw(w: WalletState, money: real)
    ensures DepositTo(w, money).Err? <==> money < 0.0
    ensures DepositTo(w, money).Err? ==> DepositTo(w, money).error == NegativeValue
    ensures DepositTo(w, money).Ok? ==> DepositTo(w, money).value.balance == w.balance + money
    ensures DepositTo(w, money).Ok? && w.balance >= 0.0 ==>
      WithdrawFrom(DepositTo(w, money).value, money) == Ok(w)
  {
    if money >= 0.0 && w.balance >= 0.0 {
      var v := DepositTo(w, money).value;
      assert v.(balance := v.balance - money) == w;
    }
  }

  /** A withdrawal fails on a negative amount, then on an amount above the
      balance; otherwise it takes exactly the amount and leaves no debt. */
  lemma WithdrawOutcomes(w: WalletState, money: real)
    ensures money < 0.0 ==> WithdrawFrom(w, money) == Err(NegativeValue)
    ensures 0.0 <= money && w.balance < money ==> WithdrawFrom(w, money) == Err(InsufficientResources)
    ensures WithdrawFrom(w, money).Ok? <==> 0.0 <= money <= w.balance
    ensures WithdrawFrom(w, money).Ok? ==>
      var v := WithdrawFrom(w, money).value;
      v.balance == w.balance - money && v.balance >= 0.0
      && v.investments == w.investments && v.entryPrices == w.entryPrices
  {
  }

  /** A buy fails exactly when the withdrawal of its money would, with the
      same error. */
  lemma BuyFailsAsWithdrawal(w: WalletState, id: string, money: real, price: real)
    requires price != 0.0
    ensures BuyInto(w, id, money, price).Err? <==> WithdrawFrom(w, money).Err?
    ensures BuyInto(w, id, money, price).Err? ==>
      BuyInto(w, id, money, price).error == WithdrawFrom(w, money).error
  {
  }

  /** A successful buy adds `money / price` to the holding (or opens it),
      keeps the first entry price, and touches no other asset. */
  lemma BuyAccumulates(w: WalletState, id: string, money: real, price: real)
    requires price != 0.0
    requires BuyInto(w, id, money, price).Ok?
    ensures var v := BuyInto(w, id, money, price).value;
      && v.balance == w.balance - money
      && id in v.investments && id in v.entryPrices
      && v.investments[id] == (if id in w.investments then w.investments[id] else 0.0) + money / price
      && v.entryPrices[id] == (if id in w.entryPrices then w.entryPrices[id] else price)
      && (forall k :: k != id ==> (k in v.investments <==> k in w.investments))
      && (forall k :: k != id && k in w.investments ==> v.investments[k] == w.investments[k])
      && (forall k :: k != id ==> (k in v.entryPrices <==> k in w.entryPrices))
      && (forall k :: k != id && k in w.entryPrices ==> v.entryPrices[k] == w.entryPrices[k])
  {
  }

  /** Selling fails exactly on an asset not held; otherwise it credits
      quantity times price and drops the id from both maps, and from nothing
      else. */
  lemma SellOutcomes(w: WalletState, id: string, price: real)
    ensures SellOut(w, id, price).Err? <==> id !in w.investments
    ensures SellOut(w, id, price).Err? ==> SellOut(w, id, price).error == AssetNotFound
    ensures SellOut(w, id, price).Ok? ==>
      var v := SellOut(w, id, price).value;
      && v.balance == w.balance + w.investments[id] * price
      && id !in v.investments && id !in v.entryPrices
      && (forall k :: k != id ==> (k in v.investments <==> k in w.investments))
      && (forall k :: k != id && k in w.investments ==> v.investments[k] == w.investments[k])
      && (forall k :: k != id ==> (k in v.entryPrices <==> k in w.entryPrices))
  {
  }

  /** Buying an asset not yet held and selling it at the same price gives
      back exactly the wallet one started with. */
  lemma BuyThenSell(w: WalletState, id: string, money: real, price: real)
    requires KeysAgree(w) && id !in w.investments
    requires price != 0.0 && 0.0 <= money <= w.balance
    ensures BuyInto(w, id, money, price).Ok?
    ensures SellOut(BuyInto(w, id, money, price).value, id, price) == Ok(w)
  {
    var v := BuyInto(w, id, money, price).value;
    assert v.investments[id] * price == money;
    assert v.investments - {id} == w.investments;
    assert id !in w.entryPrices;
    assert v.entryPrices - {id} == w.entryPrices;
  }

  lemma DepositKeepsHealthy(w: WalletState, money: real)
    requires Healthy(w) && DepositTo(w, money).Ok?
    ensures Healthy(DepositTo(w, money).value)
  {
  }

  lemma WithdrawKeepsHealthy(w: WalletState, money: real)
    requires Healthy(w) && WithdrawFrom(w, money).Ok?
    ensures Healthy(WithdrawFrom(w, money).value)
  {
  }

  lemma BuyKeepsHealthy(w: WalletState, id: string, money: real, price: real)
    requires Healthy(w) && price > 0.0 && BuyInto(w, id, money, price).Ok?
    ensures Healthy(BuyInto(w, id, money, price).value)
  {
    var v := BuyInto(w, id, money, price).value;
    assert money / price >= 0.0;
    assert v.investments.Keys == w.investments.Keys + {id};
    assert v.entryPrices.Keys == w.entryPrices.Keys + {id};
  }

  lemma SellKeepsHealthy(w: WalletState, id: string, price: real)
    requires Healthy(w) && price >= 0.0 && SellOut(w, id, price).Ok?
    ensures Healthy(SellOut(w, id, price).value)
  {
    var v := SellOut(w, id, price).value;
    assert w.investments[id] * price >= 0.0;
    assert v.investments.Keys == w.investments.Keys - {id};
    assert v.entryPrices.Keys == w.entryPrices.Keys - {id};
  }

  // ---------------------------------------------------------------------
  // queries

  /** `quantity * price` over the listed ids. */
  function SumValues(ks: seq<string>, held: map<string, real>, prices: map<string, real>): (r: real)
    requires forall i :: 0 <= i < |ks| ==> ks[i] in held && ks[i] in prices
    ensures (forall k :: k in held ==> held[k] >= 0.0) && (forall k :: k in prices ==> prices[k] >= 0.0)
      ==> r >= 0.0
  {
    if ks == [] then 0.0
    else held[ks[0]] * prices[ks[0]] + SumValues(ks[1..], held, prices)
  }

  function Remove(ks: seq<string>, k: string): seq<string> {
    if ks == [] then []
    else if ks[0] == k then ks[1..]
    else [ks[0]] + Remove(ks[1..], k)
  }

  predicate Covers(ks: seq<string>, held: map<string, real>, prices: map<string, real>) {
    forall i :: 0 <= i < |ks| ==> ks[i] in held && ks[i] in prices
  }

  lemma {:induction false} SumWithout(ks: seq<string>, k: string, held: map<string, real>, prices: map<string, real>)
    requires Covers(ks, held, prices)
    requires k in ks
    ensures Covers(Remove(ks, k), held, prices)
    ensures SumValues(ks, held, prices) == held[k] * prices[k] + SumValues(Remove(ks, k), held, prices)
  {
    if ks[0] != k {
      SumWithout(ks[1..], k, held, prices);
      var r := Remove(ks[1..], k);
      assert Remove(ks, k) == [ks[0]] + r;
      assert ([ks[0]] + r)[1..] == r;
    }
  }

  lemma {:induction false} RemoveEnumerates(ks: seq<string>, s: set<string>, k: string)
    requires Enumerates(ks, s) && k in s
    ensures Enumerates(Remove(ks, k), s - {k})
  {
    TailEnumerates(ks, s);
    if ks[0] != k {
      RemoveEnumerates(ks[1..], s - {ks[0]}, k);
      var r := Remove(ks[1..], k);
      assert Remove(ks, k) == [ks[0]] + r;
      assert s - {k} == (s - {ks[0]} - {k}) + {ks[0]};
    }
  }

  /** The sum does not depend on the order the holdings are visited in, so
      the unspecified `HashMap` order is immaterial to the crypto balance. */
  lemma {:induction false} SumOrderFree(ks: seq<string>, js: seq<string>, s: set<string>,
                                        held: map<string, real>, prices: map<string, real>)
    requires Enumerates(ks, s) && Enumerates(js, s)
    requires forall k :: k in s ==> k in held && k in prices
    ensures Covers(ks, held, prices) && Covers(js, held, prices)
    ensures SumValues(ks, held, prices) == SumValues(js, held, prices)
    decreases |ks|
  {
    if ks == [] {
      EnumeratesLength(js, s);
    } else {
      var k := ks[0];
      TailEnumerates(ks, s);
      RemoveEnumerates(js, s, k);
      SumWithout(js, k, held, prices);
      SumOrderFree(ks[1..], Remove(js, k), s - {k}, held, prices);
    }
  }

  /** `getInvestments`: the held ids in the map's order. */
  function Investments(p: Platform, w: WalletState): seq<string> {
    p.keyOrder(w.investments.Keys)
  }

  predicate Priced(w: WalletState, prices: map<string, real>) {
    forall k :: k in w.investments ==> k in prices
  }

  /** `getCryptoBalance`: every holding valued at the given price. */
  function CryptoBalance(p: Platform, w: WalletState, prices: map<string, real>): real
    requires Lawful(p) && Priced(w, prices)
  {
    SumValues(Investments(p, w), w.investments, prices)
  }

  /** Nothing held is worth nothing; non-negative holdings at non-negative
      prices are worth something non-negative; and any listing of the
      holdings gives the same total. */
  lemma CryptoBalanceFacts(p: Platform, w: WalletState, prices: map<string, real>, order: seq<string>)
    requires Lawful(p) && Priced(w, prices)
    requires Enumerates(order, w.investments.Keys)
    ensures w.investments == map[] ==> CryptoBalance(p, w, prices) == 0.0
    ensures Healthy(w) && (forall k :: k in prices ==> prices[k] >= 0.0) ==> CryptoBalance(p, w, prices) >= 0.0
    ensures CryptoBalance(p, w, prices) == SumValues(order, w.investments, prices)
  {
    var ks := Investments(p, w);
    if w.investments == map[] {
      EnumeratesLength(ks, {});
    }
    SumOrderFree(ks, order, w.investments.Keys, w.investments, prices);
  }

  const NoInvestments: string := "No investments"

  /** `"%s: %.2f USD"`. */
  function BalanceLine(p: Platform, caption: string, amount: real): string {
    caption + ": " + p.cents(amount) + " USD"
  }

  /** `"%013.8f %s ($%.2f USD)"` of quantity, id and value. */
  function InvestmentLine(p: Platform, id: string, quantity: real, price: real): string {
    p.quantity(quantity) + " " + id + " ($" + p.cents(price * quantity) + " USD)"
  }

  function InvestmentLines(p: Platform, w: WalletState, prices: map<string, real>, ks: seq<string>): seq<string>
    requires forall i :: 0 <= i < |ks| ==> ks[i] in w.investments && ks[i] in prices
  {
    if ks == [] then []
    else [InvestmentLine(p, ks[0], w.investments[ks[0]], prices[ks[0]])]
         + InvestmentLines(p, w, prices, ks[1..])
  }

  /** `getSummary` with the line separator `"\n"`. */
  function SummaryText(p: Platform, w: WalletState, prices: map<string, real>): string
    requires Lawful(p) && Priced(w, prices)
  {
    if w.investments == map[] then
      BalanceLine(p, "Balance", w.balance) + "\n" + "\n" + NoInvestments
    else
      var crypto := CryptoBalance(p, w, prices);
      BalanceLine(p, "Balance", w.balance + crypto) + "\n"
      + BalanceLine(p, "Cash", w.balance) + "\n"
      + BalanceLine(p, "Crypto", crypto) + "\n" + "\n"
      + "Current investments:" + "\n"
      + Join(InvestmentLines(p, w, prices, Investments(p, w)), '\n')
  }

  /** The change from the entry price, in percent. */
  function PercentChange(price: real, entry: real): (r: real)
    requires entry != 0.0
    ensures entry > 0.0 ==> (r > 0.0 <==> price > entry) && (r == 0.0 <==> price == entry)
  {
    (price - entry) / entry * 100.0
  }

  /** `"%s: %+.2f%%"` of id and change. */
  function TrendLine(p: Platform, id: string, entry: real, price: real): string
    requires entry != 0.0
  {
    id + ": " + p.signedCents(PercentChange(price, entry)) + "%"
  }

  predicate Tracked(w: WalletState) {
    forall k :: k in w.investments ==> k in w.entryPrices && w.entryPrices[k] != 0.0
  }

  function TrendLines(p: Platform, w: WalletState, prices: map<string, real>, ks: seq<string>): seq<string>
    requires Tracked(w)
    requires forall i :: 0 <= i < |ks| ==> ks[i] in w.investments && ks[i] in prices
  {
    if ks == [] then []
    else [TrendLine(p, ks[0], w.entryPrices[ks[0]], prices[ks[0]])]
         + TrendLines(p, w, prices, ks[1..])
  }

  /** `getTrends` with the line separator `"\n"`. */
  function TrendsText(p: Platform, w: WalletState, prices: map<string, real>): string
    requires Lawful(p) && Priced(w, prices) && Tracked(w)
  {
    if w.investments == map[] then NoInvestments
    else "Current trends:" + "\n" + Join(TrendLines(p, w, prices, Investments(p, w)), '\n')
  }

  lemma {:induction false} LinesCount(p: Platform, w: WalletState, prices: map<string, real>, ks: seq<string>)
    requires Tracked(w)
    requires forall i :: 0 <= i < |ks| ==> ks[i] in w.investments && ks[i] in prices
    ensures |InvestmentLines(p, w, prices, ks)| == |ks| == |TrendLines(p, w, prices, ks)|
  {
    if ks != [] {
      LinesCount(p, w, prices, ks[1..]);
    }
  }

  /** With nothing held the summary is the balance and "No investments",
      and the trends are "No investments". */
  lemma EmptyReports(p: Platform, w: WalletState, prices: map<string, real>)
    requires Lawful(p) && Priced(w, prices) && Tracked(w)
    requires w.investments == map[]
    ensures SummaryText(p, w, prices) == "Balance: " + p.cents(w.balance) + " USD\n\nNo investments"
    ensures TrendsText(p, w, prices) == "No investments"
  {
    var c := p.cents(w.balance);
    calc {
      SummaryText(p, w, prices);
      "Balance" + ": " + c + " USD" + "\n" + "\n" + NoInvestments;
      { assert "Balance" + ": " == "Balance: "; }
      "Balance: " + c + (" USD" + "\n" + "\n" + NoInvestments);
      { assert " USD" + "\n" + "\n" + NoInvestments == " USD\n\nNo investments"; }
      "Balance: " + c + " USD\n\nNo investments";
    }
  }

  /** Otherwise both reports list one line per holding after their header. */
  lemma ReportLines(p: Platform, w: WalletState, prices: map<string, real>)
    requires Lawful(p) && Priced(w, prices) && Tracked(w)
    ensures |InvestmentLines(p, w, prices, Investments(p, w))| == |w.investments|
    ensures |TrendLines(p, w, prices, Investments(p, w))| == |w.investments|
    ensures w.investments != map[] ==>
      TrendsText(p, w, prices) == "Current trends:\n" + Join(TrendLines(p, w, prices, Investments(p, w)), '\n')
  {
    var ks := Investments(p, w);
    LinesCount(p, w, prices, ks);
    EnumeratesLength(ks, w.investments.Keys);
    assert |w.investments.Keys| == |w.investments|;
  }

  // ---------------------------------------------------------------------
  // the record format "balance;id=quantity,...;id=price,..."

  datatype RecordError =
    | MissingField
    | BadNumber(text: string)
    | DuplicateKey(key: string, first: real, second: real)

  function EntryText(p: Platform, k: string, v: real): string {
    k + "=" + p.show(v)
  }

  function EntryTexts(p: Platform, m: map<string, real>, ks: seq<string>): (r: seq<string>)
    requires forall i :: 0 <= i < |ks| ==> ks[i] in m
    ensures |r| == |ks|
    ensures forall i :: 0 <= i < |ks| ==> r[i] == EntryText(p, ks[i], m[ks[i]])
  {
    if ks == [] then [] else [EntryText(p, ks[0], m[ks[0]])] + EntryTexts(p, m, ks[1..])
  }

  /** `mapToString`: the entries `k=v` in map order, joined by commas. */
  function MapText(p: Platform, m: map<string, real>): string
    requires Lawful(p)
  {
    Join(EntryTexts(p, m, p.keyOrder(m.Keys)), ',')
  }

  /** `toString`. */
  function WalletText(p: Platform, w: WalletState): string
    requires Lawful(p)
  {
    p.show(w.balance) + ";" + MapText(p, w.investments) + ";" + MapText(p, w.entryPrices)
  }

  /** `parseEntry`: split on `=`, the key is the first piece and the value the
      second; a missing piece is an index error. */
  function ParseEntry(p: Platform, line: string): Result<(string, real), RecordError> {
    var tokens := Split(line, '=');
    if |tokens| < 2 then Err(MissingField)
    else match p.parse(tokens[1])
      case None => Err(BadNumber(tokens[1]))
      case Some(v) => Ok((tokens[0], v))
  }

  /** The `Collectors.toMap` step: entries are read left to right, and a key
      seen twice stops the parse. */
  function ParseEntries(p: Platform, lines: seq<string>, acc: map<string, real>): Result<map<string, real>, RecordError>
    decreases |lines|
  {
    if lines == [] then Ok(acc)
    else match ParseEntry(p, lines[0])
      case Err(e) => Err(e)
      case Ok(kv) =>
        if kv.0 in acc then Err(DuplicateKey(kv.0, acc[kv.0], kv.1))
        else ParseEntries(p, lines[1..], acc[kv.0 := kv.1])
  }

  /** `parseMap`: a blank field is the empty map. */
  function ParseMap(p: Platform, line: string): Result<map<string, real>, RecordError> {
    if IsBlank(line) then Ok(map[]) else ParseEntries(p, Split(line, ','), map[])
  }

  /** `of`: at most three `;`-separated fields, read in order. */
  function ParseWallet(p: Platform, line: string): Result<WalletState, RecordError> {
    var tokens := SplitLimit(line, ';', 3);
    match p.parse(tokens[0])
    case None => Err(BadNumber(tokens[0]))
    case Some(b) =>
      if |tokens| < 2 then Err(MissingField)
      else match ParseMap(p, tokens[1])
        case Err(e) => Err(e)
        case Ok(held) =>
          if |tokens| < 3 then Err(MissingField)
          else match ParseMap(p, tokens[2])
            case Err(e) => Err(e)
            case Ok(entries) => Ok(WalletState(b, held, entries))
  }

  /** An id the record format can carry: none of its delimiters. */
  predicate CleanKey(k: string) {
    ';' !in k && ',' !in k && '=' !in k
  }

  predicate CleanKeys(m: map<string, real>) {
    forall k :: k in m ==> CleanKey(k)
  }

  lemma EntryRoundTrip(p: Platform, k: string, v: real)
    requires Lawful(p) && CleanKey(k) && Exact(p, v)
    ensures ParseEntry(p, EntryText(p, k, v)) == Ok((k, v))
  {
    var t := p.show(v);
    assert Numeral(t);
    assert Join([k, t], '=') == EntryText(p, k, v);
    SplitOfJoin([k, t], '=');
  }

  /** `acc` with the entries of `m` for the listed keys added. */
  function Extend(acc: map<string, real>, m: map<string, real>, ks: seq<string>): map<string, real>
    requires forall i :: 0 <= i < |ks| ==> ks[i] in m
    decreases |ks|
  {
    if ks == [] then acc else Extend(acc[ks[0] := m[ks[0]]], m, ks[1..])
  }

  lemma {:induction false} ExtendFacts(acc: map<string, real>, m: map<string, real>, ks: seq<string>)
    requires forall i :: 0 <= i < |ks| ==> ks[i] in m
    ensures forall k :: k in Extend(acc, m, ks) <==> k in acc || k in ks
    ensures forall k :: k in ks ==> Extend(acc, m, ks)[k] == m[k]
    ensures forall k :: k !in ks && k in acc ==> Extend(acc, m, ks)[k] == acc[k]
    decreases |ks|
  {
    if ks != [] {
      ExtendFacts(acc[ks[0] := m[ks[0]]], m, ks[1..]);
    }
  }

  lemma ExtendEmpty(m: map<string, real>, ks: seq<string>)
    requires Enumerates(ks, m.Keys)
    ensures Extend(map[], m, ks) == m
  {
    ExtendFacts(map[], m, ks);
  }

  lemma {:induction false} EntriesRoundTrip(p: Platform, m: map<string, real>, ks: seq<string>, acc: map<string, real>)
    requires Lawful(p) && CleanKeys(m) && ExactValues(p, m)
    requires forall i :: 0 <= i < |ks| ==> ks[i] in m && ks[i] !in acc
    requires forall i, j :: 0 <= i < j < |ks| ==> ks[i] != ks[j]
    ensures ParseEntries(p, EntryTexts(p, m, ks), acc) == Ok(Extend(acc, m, ks))
  {
    if ks != [] {
      var k, rest := ks[0], ks[1..];
      FirstEntryRead(p, m, ks, acc);
      forall i | 0 <= i < |rest| ensures rest[i] !in acc[k := m[k]] {
        assert rest[i] == ks[i + 1];
      }
      assert forall i, j :: 0 <= i < j < |rest| ==> rest[i] != rest[j] by {
        forall i, j | 0 <= i < j < |rest| ensures rest[i] != rest[j] {
          assert rest[i] == ks[i + 1] && rest[j] == ks[j + 1];
        }
      }
      EntriesRoundTrip(p, m, rest, acc[k := m[k]]);
    }
  }

  /** The first rendered entry is read back and the rest follow. */
  lemma FirstEntryRead(p: Platform, m: map<string, real>, ks: seq<string>, acc: map<string, real>)
    requires Lawful(p) && CleanKeys(m) && ExactValues(p, m)
    requires forall i :: 0 <= i < |ks| ==> ks[i] in m
    requires ks != [] && ks[0] !in acc
    ensures ParseEntries(p, EntryTexts(p, m, ks), acc)
         == ParseEntries(p, EntryTexts(p, m, ks[1..]), acc[ks[0] := m[ks[0]]])
  {
    var lines := EntryTexts(p, m, ks);
    EntryRoundTrip(p, ks[0], m[ks[0]]);
    assert lines[1..] == EntryTexts(p, m, ks[1..]);
  }

  lemma EntryTextsFree(p: Platform, m: map<string, real>, ks: seq<string>, c: char)
    requires Lawful(p) && CleanKeys(m) && (c == ';' || c == ',')
    requires forall i :: 0 <= i < |ks| ==> ks[i] in m
    ensures forall i :: 0 <= i < |ks| ==> c !in EntryTexts(p, m, ks)[i]
  {
    forall i | 0 <= i < |ks|
      ensures c !in EntryTexts(p, m, ks)[i]
    {
      ShowIsNumeral(p, m[ks[i]]);
    }
  }

  lemma MapTextPieces(p: Platform, m: map<string, real>)
    requires Lawful(p) && CleanKeys(m)
    ensures var lines := EntryTexts(p, m, p.keyOrder(m.Keys));
      && MapText(p, m) == Join(lines, ',')
      && |lines| == |m|
      && (forall i :: 0 <= i < |lines| ==> ',' !in lines[i] && lines[i] != [])
      && ';' !in MapText(p, m)
  {
    var ks := p.keyOrder(m.Keys);
    assert Enumerates(ks, m.Keys);
    EnumeratesLength(ks, m.Keys);
    assert |m.Keys| == |m|;
    var lines := EntryTexts(p, m, ks);
    EntryTextsFree(p, m, ks, ';');
    EntryTextsFree(p, m, ks, ',');
    JoinFree(lines, ',', ';');
  }

  lemma MapTextNotBlank(p: Platform, m: map<string, real>)
    requires Lawful(p) && m != map[]
    ensures !IsBlank(MapText(p, m))
  {
    var ks := p.keyOrder(m.Keys);
    assert Enumerates(ks, m.Keys);
    var k :| k in m;
    assert ks != [];
    var lines := EntryTexts(p, m, ks);
    var t := MapText(p, m);
    assert lines[0] == ks[0] + "=" + p.show(m[ks[0]]);
    assert t[|ks[0]|] == '=' by {
      if |lines| >= 2 {
        assert t == lines[0] + [','] + Join(lines[1..], ',');
      }
    }
  }

  /** Reading back a rendered map gives the same map. */
  lemma MapRoundTrip(p: Platform, m: map<string, real>)
    requires Lawful(p) && CleanKeys(m) && ExactValues(p, m)
    ensures ParseMap(p, MapText(p, m)) == Ok(m)
    ensures ';' !in MapText(p, m)
  {
    MapTextPieces(p, m);
    if m != map[] {
      var ks := p.keyOrder(m.Keys);
      assert Enumerates(ks, m.Keys);
      MapTextNotBlank(p, m);
      SplitOfJoin(EntryTexts(p, m, ks), ',');
      EntriesRoundTrip(p, m, ks, map[]);
      ExtendEmpty(m, ks);
    }
  }

  /** `of(toString(w))` has the balance, holdings and entry prices of `w`. */
  lemma WalletRoundTrip(p: Platform, w: WalletState)
    requires Lawful(p) && CleanKeys(w.investments) && CleanKeys(w.entryPrices)
    requires Exact(p, w.balance) && ExactValues(p, w.investments) && ExactValues(p, w.entryPrices)
    ensures ParseWallet(p, WalletText(p, w)) == Ok(w)
  {
    var b := p.show(w.balance);
    assert Numeral(b);
    MapRoundTrip(p, w.investments);
    MapRoundTrip(p, w.entryPrices);
    SplitLimitThree(b, MapText(p, w.investments), MapText(p, w.entryPrices), ';');
    assert WalletText(p, w) == b + [';'] + MapText(p, w.investments) + [';'] + MapText(p, w.entryPrices);
  }

  lemma BlankFieldIsEmpty(p: Platform, line: string)
    requires IsBlank(line)
    ensures ParseMap(p, line) == Ok(map[])
  {
  }

  /** A record with one entry in each map comes back as the very same text,
      e.g. "1000.0;BTC=0.1;BTC=500.0". */
  lemma SingleEntryTextRoundTrip(p: Platform, b: real, k: string, q: real, e: real)
    requires Lawful(p) && CleanKey(k) && Exact(p, b) && Exact(p, q) && Exact(p, e)
    ensures var line := p.show(b) + ";" + EntryText(p, k, q) + ";" + EntryText(p, k, e);
      ParseWallet(p, line) == Ok(WalletState(b, map[k := q], map[k := e]))
      && WalletText(p, ParseWallet(p, line).value) == line
  {
    var w := WalletState(b, map[k := q], map[k := e]);
    var ks := p.keyOrder({k});
    EnumeratesSingleton(ks, k);
    assert map[k := q].Keys == {k} && map[k := e].Keys == {k};
    assert MapText(p, w.investments) == EntryText(p, k, q);
    assert MapText(p, w.entryPrices) == EntryText(p, k, e);
    WalletRoundTrip(p, w);
  }

  /** On the sample platform, a record with one entry in each map reads as
      that wallet. */
  lemma SampleRecordReadsBack()
    ensures ParseWallet(SamplePlatform(), "1;BTC=1;BTC=0.0")
      == Ok(WalletState(1.0, map["BTC" := 1.0], map["BTC" := 0.0]))
  {
    var p := SamplePlatform();
    SampleIsLawful();
    assert "1;BTC=1;BTC=0.0" == p.show(1.0) + ";" + EntryText(p, "BTC", 1.0) + ";" + EntryText(p, "BTC", 0.0);
    SingleEntryTextRoundTrip(p, 1.0, "BTC", 1.0, 0.0);
  }

  // ---------------------------------------------------------------------
  // `of` as written: a blank map field becomes `Collections.emptyMap()`

  /** A wallet as `of` builds it, with a note of which of its maps is the
      shared immutable empty map, which refuses every insertion. */
  datatype Loaded = Loaded(state: WalletState, frozenInvestments: bool, frozenEntries: bool)

  function OfAsWritten(p: Platform, line: string): Result<Loaded, RecordError> {
    var tokens := SplitLimit(line, ';', 3);
    match ParseWallet(p, line)
    case Err(e) => Err(e)
    case Ok(w) =>
      if |tokens| < 3 then Err(MissingField)
      else Ok(Loaded(w, IsBlank(tokens[1]), IsBlank(tokens[2])))
  }

  datatype BuyOutcome =
    | Bought(after: WalletState)
    | Refused(error: WalletError)
    | Unsupported(after: WalletState)

  /** `buy` on such a wallet: the withdrawal comes first; then `putIfAbsent`
      on a frozen entry map, or `merge` on a frozen holdings map, throws
      `UnsupportedOperationException` after the money has left. */
  function BuyAsWritten(l: Loaded, id: string, money: real, price: real): BuyOutcome
    requires price != 0.0
  {
    var quantity := money / price;
    match WithdrawFrom(l.state, money)
    case Err(e) => Refused(e)
    case Ok(paid) =>
      if l.frozenEntries then Unsupported(paid)
      else
        var entries := if id in paid.entryPrices then paid.entryPrices else paid.entryPrices[id := price];
        if l.frozenInvestments then Unsupported(paid.(entryPrices := entries))
        else
          var held := if id in paid.investments then paid.investments[id] + quantity else quantity;
          Bought(paid.(investments := paid.investments[id := held], entryPrices := entries))
  }

  lemma BlankRecordSplits(p: Platform, b: real)
    requires Lawful(p) && Exact(p, b)
    ensures SplitLimit(p.show(b) + ";;", ';', 3) == [p.show(b), "", ""]
    ensures ParseWallet(p, p.show(b) + ";;") == Ok(WalletState(b, map[], map[]))
  {
    ShowIsNumeral(p, b);
    assert p.show(b) + ";;" == p.show(b) + [';'] + "" + [';'] + "";
    SplitLimitThree(p.show(b), "", "", ';');
  }

  /** As written: a wallet read from a record with no holdings ("<b>;;", the
      form every new user is saved in) loses the money of its first buy; the
      buy fails and nothing is held. */
  lemma FrozenBuyLosesMoney(p: Platform, b: real, id: string, money: real, price: real)
    requires Lawful(p) && Exact(p, b) && price != 0.0 && 0.0 < money <= b
    ensures OfAsWritten(p, p.show(b) + ";;") == Ok(Loaded(WalletState(b, map[], map[]), true, true))
    ensures BuyAsWritten(OfAsWritten(p, p.show(b) + ";;").value, id, money, price)
      == Unsupported(WalletState(b - money, map[], map[]))
  {
    BlankRecordSplits(p, b);
  }

  /** Corrected: with ordinary maps the same record and the same buy either
      fail without change or, as here, hold the asset bought. */
  lemma BlankRecordBuyHolds(p: Platform, b: real, id: string, money: real, price: real)
    requires Lawful(p) && Exact(p, b) && price != 0.0 && 0.0 < money <= b
    ensures ParseWallet(p, p.show(b) + ";;") == Ok(WalletState(b, map[], map[]))
    ensures BuyInto(WalletState(b, map[], map[]), id, money, price)
      == Ok(WalletState(b - money, map[id := money / price], map[id := price]))
  {
    BlankRecordSplits(p, b);
  }

  // ---------------------------------------------------------------------
  // the wallet object

  /** The outcome of one operation on a wallet object: the specified new
      contents and no error, or the error and the old contents. */
  predicate Applied(r: Result<WalletState, WalletError>, before: WalletState,
                    e: Option<WalletError>, after: WalletState)
  {
    match r
    case Ok(v) => e == None && after == v
    case Err(x) => e == Some(x) && after == before
  }

  class Wallet {
    var balance: real
    var investments: map<string, real>
    var entryPrices: map<string, real>

    function State(): WalletState
      reads this
    {
      WalletState(balance, investments, entryPrices)
    }

    /** `new DefaultCryptoWallet()`. */
    constructor()
      ensures State() == NewWallet
    {
      balance := 0.0;
      investments := map[];
      entryPrices := map[];
    }

    constructor Holding(w: WalletState)
      ensures State() == w
    {
      balance := w.balance;
      investments := w.investments;
      entryPrices := w.entryPrices;
    }

    method Deposit(money: real) returns (e: Option<WalletError>)
      modifies this
      ensures Applied(DepositTo(old(State()), money), old(State()), e, State())
    {
      if money < 0.0 {
        return Some(NegativeValue);
      }
      balance := balance + money;
      return None;
    }

    method Withdraw(money: real) returns (e: Option<WalletError>)
      modifies this
      ensures Applied(WithdrawFrom(old(State()), money), old(State()), e, State())
    {
      if money < 0.0 {
        return Some(NegativeValue);
      }
      if balance < money {
        return Some(InsufficientResources);
      }
      balance := balance - money;
      return None;
    }

    method Buy(id: string, money: real, price: real) returns (e: Option<WalletError>)
      requires price != 0.0
      modifies this
      ensures Applied(BuyInto(old(State()), id, money, price), old(State()), e, State())
    {
      var quantity := money / price;
      e := Withdraw(money);
      if e.Some? {
        return;
      }
      if id !in entryPrices {
        entryPrices := entryPrices[id := price];
      }
      var held := if id in investments then investments[id] + quantity else quantity;
      investments := investments[id := held];
    }

    method Sell(id: string, price: real) returns (e: Option<WalletError>)
      modifies this
      ensures Applied(SellOut(old(State()), id, price), old(State()), e, State())
    {
      if id !in investments {
        return Some(AssetNotFound);
      }
      balance := balance + investments[id] * price;
      investments := investments - {id};
      entryPrices := entryPrices - {id};
      return None;
    }
  }
}
