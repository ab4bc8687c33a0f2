/**
 * The browser's key-value store as the two page scripts use it, and how a
 * page turns what is stored into its in-memory state on load.
 *
 * Stored values are kept already parsed: `None` stands for a key that is
 * absent or whose text does not parse as a number.
 */
module Persist {
  import opened Wrappers
  import opened Money
  import opened Ledger
  import opened Rates
  import opened Scenarios

  /** `parseInt(stored) || 1`: an absent, unparsable or zero day loads as day 1 */
  function LoadDay(stored: Option<int>): (d: int)
    ensures d != 0
    ensures stored.Some? && stored.value != 0 ==> d == stored.value
    ensures stored.None? ==> d == 1
  {
    if stored.None? || stored.value == 0 then 1 else stored.value
  }

  /**
   * `parseFloat(stored) || 5000`, as written: a missing or unparsable
   * balance loads as the starting balance, and so does a stored 0.
   */
  function LoadBalanceAsWritten(stored: Option<real>): (b: real)
    ensures stored.None? ==> b == StartingBalance
    ensures stored.Some? && stored.value != 0.0 ==> b == stored.value
    ensures stored == Some(0.0) ==> b == StartingBalance
  {
    if stored.None? || stored.value == 0.0 then StartingBalance else stored.value
  }

  /**
   * The balance load the model uses: only a missing or unparsable balance
   * falls back to the starting balance, so whatever was stored reloads.
   */
  function LoadBalance(stored: Option<real>): (b: real)
    ensures stored.None? ==> b == StartingBalance
    ensures stored.Some? ==> b == stored.value
  {
    if stored.None? then StartingBalance else stored.value
  }

  /** `stored || ""`: no history rows when none are stored */
  function LoadHistory(stored: Option<seq<Record>>): (h: seq<Record>)
    ensures stored.None? ==> h == []
    ensures stored.Some? ==> h == stored.value
  {
    if stored.None? then [] else stored.value
  }

  /** `JSON.parse(stored) || [balance]`: a one-sample series when none is stored */
  function LoadSeries(stored: Option<seq<real>>, balance: real): (s: seq<real>)
    ensures stored.None? ==> s == [balance]
    ensures stored.Some? ==> s == stored.value
  {
    if stored.None? then [balance] else stored.value
  }

  /** The state a page loads from the stored values */
  function LoadSession(day: Option<int>, balance: Option<real>, history: Option<seq<Record>>,
                       series: Option<seq<real>>): (s: Session)
    ensures s.day == LoadDay(day) && s.balance == LoadBalance(balance)
    ensures s.history == LoadHistory(history)
    ensures s.series == LoadSeries(series, s.balance)
  {
    var b := LoadBalance(balance);
    Session(LoadDay(day), b, LoadHistory(history), LoadSeries(series, b))
  }

  /** The same load with the balance read as written */
  function LoadSessionAsWritten(day: Option<int>, balance: Option<real>, history: Option<seq<Record>>,
                                series: Option<seq<real>>): (s: Session)
    ensures s.day == LoadDay(day) && s.balance == LoadBalanceAsWritten(balance)
    ensures s.history == LoadHistory(history)
    ensures s.series == LoadSeries(series, s.balance)
  {
    var b := LoadBalanceAsWritten(balance);
    Session(LoadDay(day), b, LoadHistory(history), LoadSeries(series, b))
  }

  /** Storing a state and loading it back gives the same state */
  lemma StoreThenLoad(s: Session)
    requires s.day != 0
    ensures LoadSession(Some(s.day), Some(s.balance), Some(s.history), Some(s.series)) == s
  {
  }

  /**
   * After a game that spent the whole balance (one import costing 5000.00 on
   * day 1), the stored state is consistent, but the page that loads it as
   * written shows a balance of 5000 while the chart ends at 0.
   */
  lemma ZeroBalanceReloadsAsStart()
    ensures var day, balance, history, series :=
      Some(1), Some(0.0), Some([Trade(1, Import, "Cars", "China", 1, -5000.0)]), Some([5000.0, 0.0]);
      && Consistent(LoadSession(day, balance, history, series))
      && LoadSessionAsWritten(day, balance, history, series).balance == StartingBalance
      && !Consistent(LoadSessionAsWritten(day, balance, history, series))
  {
  }

  /** The browser's storage for the game's origin, one field per key */
  class Store {
    /** "day" */
    var day: Option<int>
    /** "balance" */
    var balance: Option<real>
    /** "tradeHistory" */
    var history: Option<seq<Record>>
    /** "balanceOverTime" */
    var series: Option<seq<real>>
    /** "exchangeRatesForDay" + day, for every day that has a snapshot */
    var rates: map<int, Snapshot>
    /** "chosenScenarios" */
    var chosen: Option<seq<Scenario>>

    /** Nothing stored yet: the first visit */
    constructor ()
      ensures day.None? && balance.None? && history.None? && series.None?
      ensures rates == map[] && chosen.None?
      ensures Valid() && Loaded() == Start()
    {
      day, balance, history, series := None, None, None, None;
      rates, chosen := map[], None;
      new;
      assert Loaded() == Start();
    }

    /** What a page loads from this store */
    function Loaded(): Session
      reads this
    {
      LoadSession(day, balance, history, series)
    }

    /**
     * What every write keeps: the loaded day is a day of the game, the loaded
     * series is the running balance of the loaded history from the starting
     * balance on, in whole cents,
     * every stored snapshot has only positive rates, and a stored
     * selection is seven distinct pool scenarios.
     */
    ghost predicate Valid()
      reads this
    {
      var s := Loaded();
      && 1 <= s.day <= MaxDays
      && Consistent(s)
      && s.series[0] == StartingBalance
      && InCents(s)
      && (forall d :: d in rates ==> PositiveRates(rates[d]))
      && (chosen.Some? ==> IsSelection(chosen.value))
    }

    /** `localStorage.clear()`: back to the store of a first visit */
    method Clear()
      modifies this
      ensures day.None? && balance.None? && history.None? && series.None?
      ensures rates == map[] && chosen.None?
      ensures Valid() && Loaded() == Start()
    {
      day, balance, history, series := None, None, None, None;
      rates, chosen := map[], None;
      assert Loaded() == Start();
    }

    /** Storing the day */
    method SaveDay(d: int)
      requires Valid() && 1 <= d <= MaxDays
      modifies this
      ensures Valid() && Loaded() == old(Loaded()).(day := d)
      ensures day == Some(d) && balance == old(balance) && history == old(history) && series == old(series)
      ensures rates == old(rates) && chosen == old(chosen)
    {
      day := Some(d);
    }

    /**
     * Storing the starting balance with no history and no series stored: the
     * loaded series is then that balance alone.
     */
    method SaveBalance(b: real)
      requires Valid() && history.None? && series.None? && b == StartingBalance
      modifies this
      ensures Valid() && Loaded() == Session(old(Loaded()).day, b, [], [b])
      ensures balance == Some(b) && day == old(day) && history.None? && series.None?
      ensures rates == old(rates) && chosen == old(chosen)
    {
      WholeOnGrid(5000, 2);
      balance := Some(b);
    }

    /** Storing the balance, the history and the series of a session together */
    method SaveProgress(s: Session)
      requires Valid() && s.day == Loaded().day
      requires Consistent(s) && s.series[0] == StartingBalance && InCents(s)
      modifies this
      ensures Valid() && Loaded() == s
      ensures balance == Some(s.balance) && history == Some(s.history) && series == Some(s.series)
      ensures day == old(day) && rates == old(rates) && chosen == old(chosen)
    {
      balance, history, series := Some(s.balance), Some(s.history), Some(s.series);
    }

    /** Storing the snapshot of one day */
    method SaveRates(d: int, snap: Snapshot)
      requires Valid() && PositiveRates(snap)
      modifies this
      ensures Valid() && rates == old(rates)[d := snap]
      ensures day == old(day) && balance == old(balance) && history == old(history) && series == old(series)
      ensures chosen == old(chosen)
    {
      rates := rates[d := snap];
    }

    /** Storing the scenario selection */
    method SaveChosen(c: seq<Scenario>)
      requires Valid() && IsSelection(c)
      modifies this
      ensures Valid() && chosen == Some(c)
      ensures day == old(day) && balance == old(balance) && history == old(history) && series == old(series)
      ensures rates == old(rates)
    {
      chosen := Some(c);
    }
  }
}
