/**
 * The trading page (game.html): quoting a trade, settling it against the
 * balance, handing over to the daily task, and starting a new game.
 */
module Trading {
  import opened Wrappers
  import opened Money
  import opened Ledger
  import opened Rates
  import opened Persist

  /** A tradable good and its unit price in the trading country's currency */
  datatype Item = Item(name: string, basePrice: int)

  /** The goods one can import (`importItems`) */
  function ImportItems(): (items: seq<Item>)
    ensures |items| == 4
  {
    seq(4, i requires 0 <= i < 4 => ImportItem(i))
  }

  function ImportItem(i: int): (item: Item)
    requires 0 <= i < 4
    ensures item.basePrice > 0
  {
    if i == 0 then Item("Electronics", 120)
    else if i == 1 then Item("Machinery", 350)
    else if i == 2 then Item("Chemicals", 45)
    else Item("Cars", 8000)
  }

  /** The goods one can export (`exportItems`) */
  function ExportItems(): (items: seq<Item>)
    ensures |items| == 5
  {
    seq(5, i requires 0 <= i < 5 => ExportItem(i))
  }

  function ExportItem(i: int): (item: Item)
    requires 0 <= i < 5
    ensures item.basePrice > 0
  {
    if i == 0 then Item("Palm Oil", 80)
    else if i == 1 then Item("Rubber", 60)
    else if i == 2 then Item("Furniture", 150)
    else if i == 3 then Item("Rice", 40)
    else Item("Textiles", 30)
  }

  /** The goods offered for a trade direction; every price is positive */
  function Catalog(direction: Direction): (items: seq<Item>)
    ensures forall i :: 0 <= i < |items| ==> items[i].basePrice > 0
  {
    if direction == Import then ImportItems() else ExportItems()
  }

  /** `list.find(i => i.name === name)`: the first item of that name */
  function FindItem(list: seq<Item>, name: string): (r: Option<Item>)
    ensures r.Some? <==> exists i :: 0 <= i < |list| && list[i].name == name
    ensures r.Some? ==> r.value in list && r.value.name == name
  {
    if |list| == 0 then None
    else if list[0].name == name then Some(list[0])
    else
      var r := FindItem(list[1..], name);
      assert forall i :: 1 <= i < |list| ==> list[i] == list[1..][i - 1];
      r
  }

  /** What `FindItem` finds is the first item of that name in the list */
  lemma {:induction false} FindItemFirst(list: seq<Item>, name: string)
    requires FindItem(list, name).Some?
    ensures exists i ::
      && 0 <= i < |list| && list[i] == FindItem(list, name).value
      && forall j :: 0 <= j < i ==> list[j].name != name
  {
    if list[0].name != name {
      FindItemFirst(list[1..], name);
      var k :| 0 <= k < |list[1..]| && list[1..][k] == FindItem(list[1..], name).value
        && forall j :: 0 <= j < k ==> list[1..][j].name != name;
      assert list[k + 1] == FindItem(list, name).value;
      assert forall j :: 0 <= j < k + 1 ==> list[j].name != name by {
        forall j | 0 <= j < k + 1
          ensures list[j].name != name
        {
          if j > 0 {
            assert list[j] == list[1..][j - 1];
          }
        }
      }
    } else {
      assert list[0] == FindItem(list, name).value;
    }
  }

  /** `parseInt(input) || 0`: what the quantity field reads as */
  function Quantity(input: Option<int>): int {
    if input.None? then 0 else input.value
  }

  /** `rm` RM are worth `foreign` units of a currency that one RM buys `rate` of */
  predicate Converts(foreign: real, rate: real, rm: real) {
    rm * rate == foreign
  }

  /** Dividing by the rate converts exactly */
  lemma ConvertsExactly(foreign: real, rate: real)
    requires rate > 0.0
    ensures Converts(foreign, rate, foreign / rate)
  {
    DivMul(foreign, rate);
  }

  /** The amounts of a trade: in foreign currency, and converted to RM */
  datatype Quote = Quote(foreignTotal: int, rmTotal: real, currency: string)

  /** What the quick calculation shows, and whether it shows it in red */
  datatype Calculation = Calculation(quote: Quote, warn: bool)

  /**
   * The quick calculation (`updateCalc`): nothing when the item or country is
   * not chosen or not known; otherwise the unrounded quote, shown in red when
   * it is an import that costs more than the balance.
   */
  function UpdateCalc(direction: Direction, itemName: string, country: string, input: Option<int>,
                      snap: Snapshot, balance: real): (c: Option<Calculation>)
    requires PositiveRates(snap)
    ensures c.Some? <==>
      itemName != "" && country != "" && FindItem(Catalog(direction), itemName).Some? && country in snap
    ensures c.Some? ==>
      var q := c.value.quote;
      && q.foreignTotal == FindItem(Catalog(direction), itemName).value.basePrice * Quantity(input)
      && Converts(q.foreignTotal as real, snap[country].rate, q.rmTotal)
      && q.currency == snap[country].currency
      && (c.value.warn <==> direction == Import && q.rmTotal > balance)
  {
    if itemName == "" || country == "" then None
    else
      var item := FindItem(Catalog(direction), itemName);
      if item.None? || country !in snap then None
      else
        var rate := snap[country];
        var foreignTotal := item.value.basePrice * Quantity(input);
        var rmTotal := foreignTotal as real / rate.rate;
        ConvertsExactly(foreignTotal as real, rate.rate);
        Some(Calculation(Quote(foreignTotal, rmTotal, rate.currency), direction == Import && rmTotal > balance))
  }

  /** Why a trade is refused; each refusal leaves every state unchanged */
  datatype TradeError =
    | InvalidQuantity    // the quantity is not a positive integer
    | MissingSelection   // no item or no country chosen
    | UnknownItem        // the item is not in the direction's catalog
    | UnknownCountry     // the snapshot has no rate for the country
    | InsufficientFunds  // an import costs more than the balance

  /** A validated trade with its amounts */
  datatype Priced = Priced(item: Item, quantity: int, rate: Rate, foreignTotal: int, rmTotal: real)

  /**
   * The checks and the arithmetic of a trade confirmation, in the order the
   * page runs them: quantity, selection, item, country; then the RM amount,
   * rounded to cents.
   */
  function Price(direction: Direction, itemName: string, country: string, input: Option<int>,
                 snap: Snapshot): (r: Result<Priced, TradeError>)
    requires PositiveRates(snap)
    ensures r.Err? ==> r.error != InsufficientFunds
    ensures r == Err(InvalidQuantity) <==> Quantity(input) <= 0
    ensures r.Ok? <==>
      && Quantity(input) > 0 && itemName != "" && country != ""
      && FindItem(Catalog(direction), itemName).Some? && country in snap
    ensures r.Ok? ==>
      var p := r.value;
      && Some(p.item) == FindItem(Catalog(direction), itemName)
      && p.quantity == Quantity(input) > 0
      && p.rate == snap[country]
      && p.foreignTotal == p.item.basePrice * p.quantity > 0
      && p.rmTotal == Round2(p.foreignTotal as real / p.rate.rate)
      && p.rmTotal >= 0.0 && OnGrid(p.rmTotal, 2)
  {
    var qty := Quantity(input);
    if qty <= 0 then Err(InvalidQuantity)
    else if itemName == "" || country == "" then Err(MissingSelection)
    else
      var item := FindItem(Catalog(direction), itemName);
      if item.None? then Err(UnknownItem)
      else if country !in snap then Err(UnknownCountry)
      else
        var rate := snap[country];
        var foreignTotal := item.value.basePrice * qty;
        var exact := foreignTotal as real / rate.rate;
        PositiveAmounts(item.value.basePrice, qty, rate.rate);
        RoundNonNegative(exact);
        Ok(Priced(item.value, qty, rate, foreignTotal, Round2(exact)))
  }

  /** Rounding a non-negative amount to cents gives a non-negative amount */
  lemma RoundNonNegative(x: real)
    requires x >= 0.0
    ensures Round2(x) >= 0.0
  {
    WholeOnGrid(0, 2);
    WholeOnGrid(x.Floor + 1, 2);
    RoundWithin(x, 0.0, (x.Floor + 1) as real, 2);
  }

  /** The signed amount a trade's history row shows */
  function Signed(direction: Direction, rmTotal: real): real {
    if direction == Import then -rmTotal else rmTotal
  }

  /**
   * Settling a trade (`onConfirmTrade`) on a session: a refused trade changes
   * nothing; an import is refused when it costs more than the balance; a
   * settled trade moves the balance by the signed amount and appends one
   * history row and one balance sample, and never changes the day.
   */
  function Settle(s: Session, snap: Snapshot, direction: Direction, itemName: string, country: string,
                  input: Option<int>): (r: Result<Session, TradeError>)
    requires PositiveRates(snap)
    ensures var p := Price(direction, itemName, country, input, snap);
      && (p.Err? ==> r == Err(p.error))
      && (r == Err(InsufficientFunds) <==> p.Ok? && direction == Import && p.value.rmTotal > s.balance)
      && (r.Ok? ==>
        && p.Ok?
        && r.value.day == s.day
        && (direction == Import ==> r.value.balance == s.balance - p.value.rmTotal >= 0.0)
        && (direction == Export ==> r.value.balance == s.balance + p.value.rmTotal)
        && r.value.history == s.history + [Trade(s.day, direction, itemName, country, p.value.quantity,
                                                  Signed(direction, p.value.rmTotal))]
        && r.value.series == s.series + [r.value.balance])
    ensures r.Ok? ==> (IsProfit(r.value.history[|s.history|]) <==> direction == Export)
    ensures r.Ok? && Consistent(s) ==> Consistent(r.value)
    ensures r.Ok? && Consistent(s) && InCents(s) ==> InCents(r.value)
  {
    var p := Price(direction, itemName, country, input, snap);
    if p.Err? then Err(p.error)
    else if direction == Import && p.value.rmTotal > s.balance then Err(InsufficientFunds)
    else
      var amount := Signed(direction, p.value.rmTotal);
      assert OnGrid(amount, 2) by {
        WholeOnGrid(0, 2);
        GridClosed(0.0, p.value.rmTotal, 2);
      }
      Ok(Append(s, Trade(s.day, direction, itemName, country, p.value.quantity, amount)))
  }

  /**
   * The quick calculation and the settlement agree: a settled trade moved
   * the balance by the calculation's amount rounded to cents.
   */
  lemma SettlementMatchesCalculation(s: Session, snap: Snapshot, direction: Direction, itemName: string,
                                     country: string, input: Option<int>)
    requires PositiveRates(snap)
    requires Settle(s, snap, direction, itemName, country, input).Ok?
    ensures var c := UpdateCalc(direction, itemName, country, input, snap, s.balance);
      && c.Some?
      && var t := Settle(s, snap, direction, itemName, country, input).value;
      && t.balance == s.balance + Signed(direction, Round2(c.value.quote.rmTotal))
      && c.value.quote.foreignTotal == Price(direction, itemName, country, input, snap).value.foreignTotal
  {
  }

  /**
   * An import the quick calculation does not show in red is never refused
   * for lack of funds, because the balance is a whole number of cents.
   */
  lemma NoWarningMeansAffordable(s: Session, snap: Snapshot, itemName: string, country: string,
                                 input: Option<int>)
    requires PositiveRates(snap) && OnGrid(s.balance, 2)
    requires Quantity(input) > 0
    requires var c := UpdateCalc(Import, itemName, country, input, snap, s.balance); c.Some? && !c.value.warn
    ensures Settle(s, snap, Import, itemName, country, input).Ok?
  {
    var c := UpdateCalc(Import, itemName, country, input, snap, s.balance).value;
    var x := c.quote.rmTotal;
    assert x == c.quote.foreignTotal as real / snap[country].rate by {
      DivMul(c.quote.foreignTotal as real, snap[country].rate);
    }
    var lo := if x >= 0.0 then x.Floor as real else x - 1.0;
    WholeOnGrid(x.Floor, 2);
    var item := FindItem(Catalog(Import), itemName).value;
    PositiveAmounts(item.basePrice, Quantity(input), snap[country].rate);
    RoundWithin(x, lo, s.balance, 2);
  }

  /**
   * The converse does not hold as written: the quick calculation compares
   * the unrounded amount with the balance. With RM 36.36 left, 10
   * Electronics at 33 yen to the RM show in red (1200 / 33 = 36.3636...),
   * yet they cost RM 36.36 once rounded, and the import settles at 0.
   */
  lemma RedWarningForAffordableImport()
    ensures var s := Session(1, 36.36, [], [36.36]);
      && UpdateCalc(Import, "Electronics", "Japan", Some(10), JapanAt33(), s.balance).value.warn
      && Settle(s, JapanAt33(), Import, "Electronics", "Japan", Some(10)).Ok?
      && Settle(s, JapanAt33(), Import, "Electronics", "Japan", Some(10)).value.balance == 0.0
  {
    FindElectronics();
    assert 1200.0 / 33.0 > 36.36;
    assert Round2(1200.0 / 33.0) == 36.36;
  }

  /**
   * The red warning as intended: the import's cost rounded to cents, as the
   * settlement charges it, exceeds the balance.
   */
  predicate RedWarning(direction: Direction, quote: Quote, balance: real) {
    direction == Import && Round2(quote.rmTotal) > balance
  }

  /** With the intended warning, a quote is red exactly when the trade is refused for lack of funds */
  lemma RedWarningMeansRefused(s: Session, snap: Snapshot, direction: Direction, itemName: string,
                               country: string, input: Option<int>)
    requires PositiveRates(snap) && Quantity(input) > 0
    requires UpdateCalc(direction, itemName, country, input, snap, s.balance).Some?
    ensures var c := UpdateCalc(direction, itemName, country, input, snap, s.balance).value;
      RedWarning(direction, c.quote, s.balance) <==>
        Settle(s, snap, direction, itemName, country, input) == Err(InsufficientFunds)
  {
    var c := UpdateCalc(direction, itemName, country, input, snap, s.balance).value;
    var rate := snap[country].rate;
    assert c.quote.rmTotal == c.quote.foreignTotal as real / rate by {
      DivMul(c.quote.rmTotal, rate);
    }
  }

  /** A positive price, quantity and rate give positive amounts in both currencies */
  lemma PositiveAmounts(basePrice: int, quantity: int, rate: real)
    requires basePrice > 0 && quantity > 0 && rate > 0.0
    ensures basePrice * quantity > 0
    ensures (basePrice * quantity) as real / rate > 0.0
  {
  }

  /** A snapshot whose Japanese rate is exactly 33 yen to the RM */
  function JapanAt33(): (snap: Snapshot)
    ensures PositiveRates(snap)
  {
    map["Japan" := Rate(33.0, "JPY")]
  }

  /**
   * Importing 10 Electronics (120 yen each) at 33 yen to the RM from a
   * balance of 5000 costs 1200 yen, that is RM 36.36, and leaves RM 4963.64.
   */
  lemma ImportElectronicsExample()
    ensures var p := Price(Import, "Electronics", "Japan", Some(10), JapanAt33());
      p.Ok? && p.value.foreignTotal == 1200 && p.value.rmTotal == 36.36
    ensures var r := Settle(Start(), JapanAt33(), Import, "Electronics", "Japan", Some(10));
      r.Ok? && r.value.balance == 4963.64 && r.value.series == [5000.0, 4963.64]
  {
    assert Round2(1200.0 / 33.0) == 36.36;
  }

  /** The car that costs a whole starting balance */
  lemma FindCars()
    ensures FindItem(Catalog(Import), "Cars") == Some(Item("Cars", 8000))
  {
    assert Catalog(Import)[3] == Item("Cars", 8000);
  }

  /** The Electronics of the import catalog */
  lemma FindElectronics()
    ensures FindItem(Catalog(Import), "Electronics") == Some(Item("Electronics", 120))
  {
    assert Catalog(Import)[0] == Item("Electronics", 120);
  }

  /** The draw 0.25 gives the Chinese rate 1.6 yuan to the RM */
  lemma ChinaRateAtQuarter()
    ensures DrawRate(0, 0.25) == 1.6
  {
    assert RoundTo(1.6, 3) == 1.6;
  }

  /**
   * A balance of exactly 0 is reachable: on day 1 of a new game, with the
   * Chinese rate at 1.6 yuan to the RM (see `ChinaRateAtQuarter`), one car
   * (8000 yuan) costs the whole RM 5000.
   */
  lemma ZeroBalanceReachable()
    ensures var r := Settle(Start(), map["China" := Rate(1.6, "CNY")], Import, "Cars", "China", Some(1));
      && r.Ok?
      && r.value.balance == 0.0
      && r.value.history == [Trade(1, Import, "Cars", "China", 1, -5000.0)]
      && r.value.series == [5000.0, 0.0]
  {
    var snap := map["China" := Rate(1.6, "CNY")];
    FindCars();
    assert Round2(8000.0 / 1.6) == 5000.0;
    assert Price(Import, "Cars", "China", Some(1), snap) == Ok(Priced(Item("Cars", 8000), 1, snap["China"], 8000, 5000.0));
  }

  /** The trading page: its copy of the game state and the day's rates */
  class TradingPage {
    const store: Store
    var day: int
    var balance: real
    var history: seq<Record>
    var series: seq<real>
    var rates: Snapshot

    function State(): Session
      reads this
    {
      Session(day, balance, history, series)
    }

    /** The store is valid, holds exactly this page's state, and holds its rates under its day */
    ghost predicate Valid()
      reads this, store
    {
      && store.Valid()
      && store.Loaded() == State()
      && day in store.rates && store.rates[day] == rates
    }

    /** Loading the page: the state from the store, then the daily rate guard */
    constructor (store: Store, draws: seq<real>)
      requires store.Valid() && ValidDraws(draws)
      modifies store
      ensures this.store == store && Valid()
      ensures State() == old(store.Loaded())
      ensures (store.rates, rates) == EnsureRates(old(store.rates), day, draws)
      ensures store.day == old(store.day) && store.balance == old(store.balance)
      ensures store.history == old(store.history) && store.series == old(store.series)
      ensures store.chosen == old(store.chosen)
    {
      var s := store.Loaded();
      this.store := store;
      day, balance, history, series := s.day, s.balance, s.history, s.series;
      var today: Snapshot;
      if s.day in store.rates {
        today := store.rates[s.day];
      } else {
        today := CreateDailyExchangeRates(draws);
        store.SaveRates(s.day, today);
      }
      rates := today;
    }

    /**
     * Confirming a trade: the settlement of `Settle`, written to the page and
     * to the store's balance, history and series; the amount in RM on success.
     */
    method ConfirmTrade(direction: Direction, itemName: string, country: string, input: Option<int>)
      returns (r: Result<real, TradeError>)
      requires Valid()
      modifies this, store
      ensures Valid()
      ensures day == old(day) && rates == old(rates)
      ensures store.day == old(store.day) && store.rates == old(store.rates) && store.chosen == old(store.chosen)
      ensures var settled := Settle(old(State()), rates, direction, itemName, country, input);
        && (settled.Err? ==> r == Err(settled.error) && State() == old(State()) && unchanged(store))
        && (settled.Ok? ==>
          && r == Ok(Price(direction, itemName, country, input, rates).value.rmTotal)
          && State() == settled.value
          && store.balance == Some(balance) && store.history == Some(history) && store.series == Some(series))
    {
      var priced := Price(direction, itemName, country, input, rates);
      if priced.Err? {
        return Err(priced.error);
      }
      var rmTotal := priced.value.rmTotal;

      if direction == Import && rmTotal > balance {
        return Err(InsufficientFunds);
      }
      var row := Trade(day, direction, itemName, country, priced.value.quantity, Signed(direction, rmTotal));
      var settled := Append(State(), row);
      assert Settle(State(), rates, direction, itemName, country, input) == Ok(settled);
      AppendKeepsStart(State(), row);

      store.SaveProgress(settled);
      balance, history, series := settled.balance, settled.history, settled.series;
      r := Ok(rmTotal);
    }

    /** Handing over to the daily task: the page's state is written to the store */
    method ProceedToTask()
      requires Valid()
      modifies store
      ensures Valid()
      ensures store.day == Some(day) && store.balance == Some(balance)
      ensures store.history == Some(history) && store.series == Some(series)
      ensures store.rates == old(store.rates) && store.chosen == old(store.chosen)
    {
      store.SaveDay(day);
      store.SaveProgress(State());
    }

    /**
     * Starting a new game, if the player confirms: day 1, the starting
     * balance, no history, a one-sample series and fresh day-1 rates; the
     * store keeps only those rates, the balance and the day.
     */
    method ResetGame(confirmed: bool, draws: seq<real>)
      requires Valid() && ValidDraws(draws)
      modifies this, store
      ensures Valid()
      ensures !confirmed ==> State() == old(State()) && rates == old(rates) && unchanged(store)
      ensures confirmed ==>
        && State() == Start()
        && rates == CreateDailyExchangeRates(draws)
        && store.day == Some(1) && store.balance == Some(StartingBalance)
        && store.history.None? && store.series.None?
        && store.rates == map[1 := rates] && store.chosen.None?
    {
      if !confirmed {
        return;
      }
      var start := Start();
      day, balance, history, series := start.day, start.balance, start.history, start.series;
      rates := CreateDailyExchangeRates(draws);
      store.Clear();
      store.SaveRates(1, rates);
      assert store.Loaded() == start;
      assert OnGrid(balance, 2) by { assert balance == start.series[0]; }
      store.SaveBalance(balance);
      assert store.Loaded() == start;
      store.SaveDay(1);
    }
  }
}
