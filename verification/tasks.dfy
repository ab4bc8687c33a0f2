/**
 * The daily task page (dailyTask.html): the scenario of the day, and the
 * effect of the player's choice on the balance, the history and the day.
 */
module Tasks {
  import opened Wrappers
  import opened Money
  import opened Ledger
  import opened Scenarios
  import opened Persist

  /** Where the game goes after a task: the next trading day, or the results */
  datatype Outcome = Continue(day: int) | Complete

  /** A choice that is not one of the scenario's options; nothing is changed */
  datatype TaskError = InvalidOption

  /** The step after the daily task of `day`: the results from the last day on, otherwise the next day */
  function Advance(day: int): (o: Outcome)
    ensures o.Complete? <==> day >= MaxDays
    ensures o.Continue? ==> o.day == day + 1 && o.day <= MaxDays
  {
    if day >= MaxDays then Complete else Continue(day + 1)
  }

  /** How many tasks are played from `day` on, up to and including the last */
  function TasksFrom(day: int): (n: nat)
    ensures n >= 1
    decreases MaxDays - day
  {
    match Advance(day)
    case Complete => 1
    case Continue(next) => 1 + TasksFrom(next)
  }

  /** From any day of the game, the results come after the daily task of each remaining day */
  lemma {:induction false} TasksUntilResults(day: int)
    requires 1 <= day <= MaxDays
    ensures TasksFrom(day) == MaxDays - day + 1
    decreases MaxDays - day
  {
    if day < MaxDays {
      TasksUntilResults(day + 1);
    }
  }

  /** A game has exactly one task per day */
  lemma GameHasSevenTasks()
    ensures TasksFrom(1) == MaxDays
  {
    TasksUntilResults(1);
  }

  /** The session after a task, and where the game goes next */
  datatype Resolution = Resolution(state: Session, next: Outcome)

  /**
   * Choosing option `optionIndex` of `task` (`applyTaskChoice`): the balance
   * moves by the option's effect, one task row and one balance sample are
   * appended, and the day advances unless it was the last one. An index
   * that names no option changes nothing.
   */
  function ResolveTask(s: Session, task: Scenario, optionIndex: int): (r: Result<Resolution, TaskError>)
    ensures r.Err? <==> !(0 <= optionIndex < |task.options|)
    ensures r.Ok? ==>
      var choice := task.options[optionIndex];
      var t := r.value.state;
      && t.balance == s.balance + choice.effect as real
      && t.history == s.history + [Task(s.day, task.text, choice.effect)]
      && t.series == s.series + [t.balance]
      && r.value.next == Advance(s.day)
      && t.day == (if r.value.next.Continue? then s.day + 1 else s.day)
      && (IsProfit(t.history[|s.history|]) <==> choice.effect >= 0)
    ensures r.Ok? && Consistent(s) ==> Consistent(r.value.state)
    ensures r.Ok? && Consistent(s) && InCents(s) ==> InCents(r.value.state)
    ensures r.Ok? && 1 <= s.day <= MaxDays ==> 1 <= r.value.state.day <= MaxDays
  {
    if !(0 <= optionIndex < |task.options|) then Err(InvalidOption)
    else
      var choice := task.options[optionIndex];
      WholeOnGrid(choice.effect, 2);
      var t := Append(s, Task(s.day, task.text, choice.effect));
      var next := Advance(s.day);
      Ok(Resolution(if next.Continue? then t.(day := next.day) else t, next))
  }

  /** The daily-task page: its copy of the game state */
  class TaskPage {
    const store: Store
    var day: int
    var balance: real
    var history: seq<Record>
    var series: seq<real>

    function State(): Session
      reads this
    {
      Session(day, balance, history, series)
    }

    /** The store is valid and holds exactly this page's state */
    ghost predicate Valid()
      reads this, store
    {
      store.Valid() && store.Loaded() == State()
    }

    /** Loading the page: the state from the store */
    constructor (store: Store)
      requires store.Valid()
      ensures this.store == store && Valid()
      ensures State() == store.Loaded()
    {
      var s := store.Loaded();
      this.store := store;
      day, balance, history, series := s.day, s.balance, s.history, s.series;
    }

    /**
     * `ensureChosenScenarios`: when no selection is stored, the pool shuffled
     * by `perm` is cut to its first seven scenarios and stored.
     */
    method EnsureChosenScenarios(perm: seq<int>)
      requires Valid() && IsPermutation(perm, |Pool()|)
      modifies store
      ensures Valid()
      ensures store.chosen == Some(EnsureChosen(old(store.chosen), perm))
      ensures store.day == old(store.day) && store.balance == old(store.balance)
      ensures store.history == old(store.history) && store.series == old(store.series)
      ensures store.rates == old(store.rates)
    {
      if store.chosen.None? {
        var shuffled := Shuffle(perm);
        var chosen := shuffled[..MaxDays];
        assert chosen == SelectScenarios(perm);
        store.SaveChosen(chosen);
      }
    }

    /**
     * `renderTask`: the scenario the stored selection holds for the current
     * day; since the day is always a day of the game, there is one, and it
     * is a pool scenario with three choices.
     */
    method RenderTask(perm: seq<int>) returns (task: Option<Scenario>)
      requires Valid() && IsPermutation(perm, |Pool()|)
      modifies store
      ensures Valid()
      ensures store.chosen == Some(EnsureChosen(old(store.chosen), perm))
      ensures store.day == old(store.day) && store.balance == old(store.balance)
      ensures store.history == old(store.history) && store.series == old(store.series)
      ensures store.rates == old(store.rates)
      ensures task == ScenarioForDay(store.chosen.value, day)
      ensures task.Some? && task.value in Pool() && |task.value.options| == 3
    {
      EnsureChosenScenarios(perm);
      var chosen := store.chosen.value;
      task := ScenarioForDay(chosen, day);
      EveryDayHasTask(chosen, day);
    }

    /**
     * `applyTaskChoice`: the resolution of `ResolveTask`, written to the page
     * and to the store; the day is stored only when the game continues.
     */
    method ApplyTaskChoice(task: Scenario, optionIndex: int) returns (r: Result<Outcome, TaskError>)
      requires Valid()
      modifies this, store
      ensures Valid()
      ensures store.rates == old(store.rates) && store.chosen == old(store.chosen)
      ensures var res := ResolveTask(old(State()), task, optionIndex);
        && (res.Err? ==> r == Err(res.error) && State() == old(State()) && unchanged(store))
        && (res.Ok? ==>
          && r == Ok(res.value.next)
          && State() == res.value.state
          && store.balance == Some(balance) && store.history == Some(history) && store.series == Some(series)
          && store.day == (if res.value.next.Continue? then Some(day) else old(store.day)))
    {
      if !(0 <= optionIndex < |task.options|) {
        return Err(InvalidOption);
      }
      var option := task.options[optionIndex];
      WholeOnGrid(option.effect, 2);
      var next := Append(State(), Task(day, task.text, option.effect));
      AppendKeepsStart(State(), Task(day, task.text, option.effect));
      store.SaveProgress(next);
      balance, history, series := next.balance, next.history, next.series;

      if day >= MaxDays {
        r := Ok(Complete);
      } else {
        day := day + 1;
        store.SaveDay(day);
        r := Ok(Continue(day));
      }
    }
  }
}
