/**
 * The daily-event pool and the per-game selection of events: seven distinct
 * scenarios of the twelve, picked once per game and looked up by day.
 */
module Scenarios {
  import opened Wrappers
  import opened Ledger

  /** One answer to a scenario, with its fixed effect on the balance in RM */
  datatype Choice = Choice(text: string, effect: int, message: string)

  datatype Scenario = Scenario(text: string, options: seq<Choice>)

  /** A scenario with its three choices */
  function Offer(text: string, first: Choice, second: Choice, third: Choice): (s: Scenario)
    ensures s.text == text && |s.options| == 3
  {
    Scenario(text, [first, second, third])
  }

  /** The full pool (`fullPool`): twelve scenarios of three choices each */
  function Pool(): (p: seq<Scenario>)
    ensures |p| == 12
    ensures forall i :: 0 <= i < |p| ==> |p[i].options| == 3
  {
    seq(12, i requires 0 <= i < 12 => PoolEntry(i))
  }

  /** The `i`-th scenario of the pool */
  function PoolEntry(i: int): (s: Scenario)
    requires 0 <= i < 12
    ensures |s.options| == 3
  {
    if i == 0 then
      Offer("Local supplier raises prices for construction materials.",
        Choice("Import cheaper from Thailand", 200, "Imported cheaper materials. Profit RM200."),
        Choice("Keep buying local", -100, "Paid higher local prices. Loss RM100."),
        Choice("Negotiate with supplier", 50, "Negotiated a small discount. Profit RM50."))
    else if i == 1 then
      Offer("Logistics strike delays shipping.",
        Choice("Pay extra for priority shipping", -150, "Paid priority shipping. Loss RM150."),
        Choice("Wait for strike to end", 0, "Waited it out. No change."),
        Choice("Use alternative land transport", -50, "Alternative transport used. Loss RM50."))
    else if i == 2 then
      Offer("A company in China wants to import palm oil.",
        Choice("Agree to discount", 100, "Sold more at lower margin. Net RM100."),
        Choice("Refuse and keep price", 0, "Deal cancelled. No change."),
        Choice("Offer partial discount for big order", 250, "Big order accepted. Profit RM250."))
    else if i == 3 then
      Offer("Japan requests high-tech components.",
        Choice("Accept with overtime", 150, "Overtime accepted. Profit RM150."),
        Choice("Decline due to capacity", 0, "Declined. No change."),
        Choice("Subcontract part of work", 200, "Subcontracted and profited. RM200."))
    else if i == 4 then
      Offer("Exchange rate fluctuates in your favor.",
        Choice("Buy more imports", 100, "Bought imports cheaper. Profit RM100."),
        Choice("Stay cautious", 0, "No action. No change."),
        Choice("Sell reserves abroad", 200, "Sold reserves at good rates. Profit RM200."))
    else if i == 5 then
      Offer("Government offers export incentives.",
        Choice("Apply for subsidy", 300, "You received subsidy. Profit RM300."),
        Choice("Ignore paperwork", 0, "No change."),
        Choice("Delay application", -50, "Missed timing. Loss RM50."))
    else if i == 6 then
      Offer("Storm damages part of your shipment.",
        Choice("File insurance claim", 100, "Insurance covered some loss. +RM100."),
        Choice("Absorb the loss", -200, "You paid for the loss. -RM200."),
        Choice("Negotiate with buyer", -50, "Partial deal made. -RM50."))
    else if i == 7 then
      Offer("Middle East buyer requests halal-certified food.",
        Choice("Upgrade certification", 200, "Certification boosted sales. +RM200."),
        Choice("Refuse deal", 0, "No change."),
        Choice("Partner with certified supplier", 150, "Partnered and profited. +RM150."))
    else if i == 8 then
      Offer("European Union increases import taxes.",
        Choice("Accept tax burden", -200, "Taxes reduced profit. -RM200."),
        Choice("Find alternative markets", 100, "Found new market. +RM100."),
        Choice("Negotiate trade deal", 50, "Small success. +RM50."))
    else if i == 9 then
      Offer("US company offers a long-term contract.",
        Choice("Accept immediately", 250, "Secured contract. +RM250."),
        Choice("Delay decision", 0, "No change."),
        Choice("Reject", -50, "Lost opportunity. -RM50."))
    else if i == 10 then
      Offer("Warehouse fire damages goods.",
        Choice("Claim insurance", 200, "Insurance payout. +RM200."),
        Choice("Sell damaged goods cheaply", -100, "Recovered some cash. -RM100."),
        Choice("Do nothing", -250, "Major loss. -RM250."))
    else
      Offer("ASEAN free trade agreement lowers tariffs.",
        Choice("Expand exports quickly", 200, "Expanded exports. +RM200."),
        Choice("Wait and see", 0, "No change."),
        Choice("Form new partnerships", 300, "New partnerships succeed. +RM300."))
  }

  /** The effects of a three-choice scenario's choices, in order */
  function Effects(s: Scenario): (int, int, int)
    requires |s.options| == 3
  {
    (s.options[0].effect, s.options[1].effect, s.options[2].effect)
  }

  /**
   * The effects of the pool's scenarios, in pool order: a proof table, checked
   * against the pool entry by entry, from which the pool's distinctness follows
   */
  const PoolEffects: seq<(int, int, int)> := [
    (200, -100, 50), (-150, 0, -50), (100, 0, 250), (150, 0, 200),
    (100, 0, 200), (300, 0, -50), (100, -200, -50), (200, 0, 150),
    (-200, 100, 50), (250, 0, -50), (200, -100, -250), (200, 0, 300)
  ]

  lemma EffectsDistinct()
    ensures forall i, j :: 0 <= i < j < |PoolEffects| ==> PoolEffects[i] != PoolEffects[j]
  {
  }

  /** The pool's `i`-th scenario has the `i`-th effects of the table */
  lemma EntryEffects(i: int)
    requires 0 <= i < 12
    ensures Effects(PoolEntry(i)) == PoolEffects[i]
  {
    if i == 0 { EntryEffects0(); }
    else if i == 1 { EntryEffects1(); }
    else if i == 2 { EntryEffects2(); }
    else if i == 3 { EntryEffects3(); }
    else if i == 4 { EntryEffects4(); }
    else if i == 5 { EntryEffects5(); }
    else if i == 6 { EntryEffects6(); }
    else if i == 7 { EntryEffects7(); }
    else if i == 8 { EntryEffects8(); }
    else if i == 9 { EntryEffects9(); }
    else if i == 10 { EntryEffects10(); }
    else { EntryEffects11(); }
  }

  // One entry at a time, so that each proof sees the text of one scenario only.
  lemma EntryEffects0() ensures Effects(PoolEntry(0)) == PoolEffects[0] { }
  lemma EntryEffects1() ensures Effects(PoolEntry(1)) == PoolEffects[1] { }
  lemma EntryEffects2() ensures Effects(PoolEntry(2)) == PoolEffects[2] { }
  lemma EntryEffects3() ensures Effects(PoolEntry(3)) == PoolEffects[3] { }
  lemma EntryEffects4() ensures Effects(PoolEntry(4)) == PoolEffects[4] { }
  lemma EntryEffects5() ensures Effects(PoolEntry(5)) == PoolEffects[5] { }
  lemma EntryEffects6() ensures Effects(PoolEntry(6)) == PoolEffects[6] { }
  lemma EntryEffects7() ensures Effects(PoolEntry(7)) == PoolEffects[7] { }
  lemma EntryEffects8() ensures Effects(PoolEntry(8)) == PoolEffects[8] { }
  lemma EntryEffects9() ensures Effects(PoolEntry(9)) == PoolEffects[9] { }
  lemma EntryEffects10() ensures Effects(PoolEntry(10)) == PoolEffects[10] { }
  lemma EntryEffects11() ensures Effects(PoolEntry(11)) == PoolEffects[11] { }

  /** No scenario occurs twice in the pool: their effect lists all differ */
  lemma PoolDistinct()
    ensures forall i, j :: 0 <= i < j < |Pool()| ==> Pool()[i] != Pool()[j]
  {
    EffectsDistinct();
    forall i, j | 0 <= i < j < 12
      ensures Pool()[i] != Pool()[j]
    {
      EntryEffects(i);
      EntryEffects(j);
      assert PoolEffects[i] != PoolEffects[j];
    }
  }

  /** `perm` lists 0 .. n-1, each once: the order the shuffle leaves the pool in */
  predicate IsPermutation(perm: seq<int>, n: int) {
    && |perm| == n
    && (forall i :: 0 <= i < |perm| ==> 0 <= perm[i] < n)
    && (forall i, j :: 0 <= i < j < |perm| ==> perm[i] != perm[j])
  }

  /** A game's events: one pool scenario per day, none twice */
  ghost predicate IsSelection(chosen: seq<Scenario>) {
    && |chosen| == MaxDays
    && (forall i :: 0 <= i < |chosen| ==> chosen[i] in Pool())
    && (forall i, j :: 0 <= i < j < |chosen| ==> chosen[i] != chosen[j])
  }

  /** The pool reordered by `perm` */
  function Shuffle(perm: seq<int>): (s: seq<Scenario>)
    requires IsPermutation(perm, |Pool()|)
    ensures |s| == |Pool()|
    ensures forall i :: 0 <= i < |s| ==> s[i] == Pool()[perm[i]]
  {
    seq(|perm|, i requires 0 <= i < |perm| => Pool()[perm[i]])
  }

  /** The first `MaxDays` scenarios of the shuffled pool */
  function SelectScenarios(perm: seq<int>): (chosen: seq<Scenario>)
    requires IsPermutation(perm, |Pool()|)
    ensures IsSelection(chosen)
    ensures forall i :: 0 <= i < |chosen| ==> chosen[i] == Pool()[perm[i]]
  {
    PoolDistinct();
    Shuffle(perm)[..MaxDays]
  }

  /**
   * `ensureChosenScenarios`: the stored selection if there is one, otherwise
   * a fresh one, which the caller stores.
   */
  function EnsureChosen(stored: Option<seq<Scenario>>, perm: seq<int>): (chosen: seq<Scenario>)
    requires IsPermutation(perm, |Pool()|)
    ensures stored.Some? ==> chosen == stored.value
    ensures stored.None? ==> IsSelection(chosen)
  {
    if stored.Some? then stored.value else SelectScenarios(perm)
  }

  /** Once a selection is stored, asking again with any shuffle keeps it */
  lemma EnsureChosenIdempotent(stored: Option<seq<Scenario>>, first: seq<int>, again: seq<int>)
    requires IsPermutation(first, |Pool()|) && IsPermutation(again, |Pool()|)
    ensures EnsureChosen(Some(EnsureChosen(stored, first)), again) == EnsureChosen(stored, first)
  {
  }

  /** The scenario of `day` (`chosen[day - 1]`), if there is one */
  function ScenarioForDay(chosen: seq<Scenario>, day: int): (task: Option<Scenario>)
    ensures task.Some? <==> 1 <= day <= |chosen|
    ensures task.Some? ==> task.value == chosen[day - 1]
  {
    if 1 <= day <= |chosen| then Some(chosen[day - 1]) else None
  }

  /** Every day of a game has a pool scenario with three choices */
  lemma EveryDayHasTask(chosen: seq<Scenario>, day: int)
    requires IsSelection(chosen) && 1 <= day <= MaxDays
    ensures ScenarioForDay(chosen, day).Some?
    ensures ScenarioForDay(chosen, day).value in Pool()
    ensures |ScenarioForDay(chosen, day).value.options| == 3
  {
    var t := chosen[day - 1];
    assert t in Pool();
    var k :| 0 <= k < |Pool()| && Pool()[k] == t;
  }
}
