/**
 * The state both page scripts keep in module-level variables and persist:
 * the day, the RM balance, the history rows and the balance series the
 * chart draws. Trades and daily tasks both settle by appending one history
 * row and one balance sample.
 */
module Ledger {
  import opened Money

  /** Number of days in a game (`MAX_DAYS`, `maxDays`) */
  const MaxDays: int := 7

  /** Balance of a new game, in RM */
  const StartingBalance: real := 5000.0

  datatype Direction = Import | Export

  /** One history row; the page renders it as a table row */
  datatype Record =
    | Trade(day: int, direction: Direction, item: string, country: string, quantity: int, amount: real)
    | Task(day: int, scenario: string, effect: int)

  /** The signed RM change the row shows */
  function Amount(r: Record): real {
    match r
    case Trade(_, _, _, _, _, amount) => amount
    case Task(_, _, effect) => effect as real
  }

  /** The row is styled as a profit (otherwise as a loss) */
  predicate IsProfit(r: Record) {
    match r
    case Trade(_, direction, _, _, _, _) => direction == Export
    case Task(_, _, effect) => effect >= 0
  }

  /** The in-memory game state of one page */
  datatype Session = Session(day: int, balance: real, history: seq<Record>, series: seq<real>)

  /**
   * The balance series is the running balance of the history: one sample
   * before the first row and one after each row, the last one being the
   * current balance.
   */
  ghost predicate Consistent(s: Session) {
    && |s.series| == |s.history| + 1
    && s.series[|s.series| - 1] == s.balance
    && forall i :: 0 <= i < |s.history| ==> s.series[i + 1] == s.series[i] + Amount(s.history[i])
  }

  /** Every balance sample is a whole number of RM cents */
  ghost predicate InCents(s: Session) {
    forall i :: 0 <= i < |s.series| ==> OnGrid(s.series[i], 2)
  }

  /** The state of a new game: day 1, the starting balance, no rows */
  function Start(): (s: Session)
    ensures Consistent(s) && InCents(s)
    ensures s.day == 1 && s.balance == StartingBalance && s.history == [] && s.series == [StartingBalance]
  {
    WholeOnGrid(5000, 2);
    Session(1, StartingBalance, [], [StartingBalance])
  }

  /**
   * Settles one row: the balance moves by the row's amount, and the row and
   * the new balance are appended. The day is left to the caller.
   */
  function Append(s: Session, rec: Record): (t: Session)
    ensures t.day == s.day && t.balance == s.balance + Amount(rec)
    ensures |t.history| == |s.history| + 1 && t.history[..|s.history|] == s.history
    ensures t.history[|s.history|] == rec
    ensures |t.series| == |s.series| + 1 && t.series[..|s.series|] == s.series
    ensures t.series[|s.series|] == t.balance
    ensures Consistent(s) ==> Consistent(t)
    ensures Consistent(s) && InCents(s) && OnGrid(Amount(rec), 2) ==> InCents(t)
  {
    var b := s.balance + Amount(rec);
    assert Consistent(s) && InCents(s) && OnGrid(Amount(rec), 2) ==> OnGrid(b, 2) by {
      if Consistent(s) && InCents(s) && OnGrid(Amount(rec), 2) {
        GridClosed(s.balance, Amount(rec), 2);
      }
    }
    Session(s.day, b, s.history + [rec], s.series + [b])
  }

  /** Appending a row keeps the first sample of the series */
  lemma AppendKeepsStart(s: Session, rec: Record)
    requires |s.series| > 0
    ensures Append(s, rec).series[0] == s.series[0]
  {
    assert Append(s, rec).series[0] == Append(s, rec).series[..|s.series|][0];
  }
}
