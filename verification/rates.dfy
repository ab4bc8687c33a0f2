/**
 * The daily exchange-rate snapshot: for each country, how many units of its
 * currency one RM buys, drawn once per day and stored under that day.
 */
module Rates {
  import opened Money

  datatype Rate = Rate(rate: real, currency: string)

  /** Country name to its rate for one day */
  type Snapshot = map<string, Rate>

  /** The countries one can trade with, in the order the page lists them */
  const Countries: seq<string> := ["China", "India", "Japan", "USA", "Germany"]

  /**
   * How one country's rate is drawn: `base + r * spread` for a draw `r` in
   * [0, 1), rounded to `places` decimals.
   */
  datatype Preset = Preset(country: string, base: real, spread: real, places: nat, currency: string)

  const Presets: seq<Preset> := [
    Preset("China", 1.5, 0.4, 3, "CNY"),
    Preset("India", 18.0, 2.0, 3, "INR"),
    Preset("Japan", 33.0, 3.0, 3, "JPY"),
    Preset("USA", 0.22, 0.03, 4, "USD"),
    Preset("Germany", 0.19, 0.03, 4, "EUR")
  ]

  /** A value `Math.random()` can return */
  predicate IsDraw(r: real) {
    0.0 <= r < 1.0
  }

  /** One draw for each preset, in order */
  predicate ValidDraws(draws: seq<real>) {
    |draws| == |Presets| && forall i :: 0 <= i < |draws| ==> IsDraw(draws[i])
  }

  /** Both ends of every preset's range are on its rounding grid */
  lemma PresetsOnGrid(i: nat)
    requires i < |Presets|
    ensures OnGrid(Presets[i].base, Presets[i].places)
    ensures OnGrid(Presets[i].base + Presets[i].spread, Presets[i].places)
  {
    assert Scale(3) == 1000.0 && Scale(4) == 10000.0;
  }

  /** One rate, drawn for the `i`-th preset; it lies in [base, base + spread] */
  function DrawRate(i: nat, r: real): (x: real)
    requires i < |Presets| && IsDraw(r)
    ensures Presets[i].base <= x <= Presets[i].base + Presets[i].spread
    ensures x > 0.0
  {
    var p := Presets[i];
    assert 0.0 <= r * p.spread <= p.spread by { MulMonotone(r, 1.0, p.spread); }
    PresetsOnGrid(i);
    RoundWithin(p.base + r * p.spread, p.base, p.base + p.spread, p.places);
    RoundTo(p.base + r * p.spread, p.places)
  }

  /** Every rate of the snapshot is positive, so amounts can be divided by it */
  predicate PositiveRates(snap: Snapshot) {
    forall c :: c in snap ==> snap[c].rate > 0.0
  }

  /** Every country has a rate, and every rate is positive */
  ghost predicate WellFormed(snap: Snapshot) {
    && (forall c :: c in snap <==> c in Countries)
    && PositiveRates(snap)
  }

  /** A fresh snapshot (`createDailyExchangeRates`) from five draws */
  function CreateDailyExchangeRates(draws: seq<real>): (snap: Snapshot)
    requires ValidDraws(draws)
    ensures WellFormed(snap)
    ensures forall i :: 0 <= i < |Presets| ==>
      var p := Presets[i];
      && p.country in snap
      && snap[p.country].currency == p.currency
      && p.base <= snap[p.country].rate <= p.base + p.spread
  {
    map[
      "China" := Rate(DrawRate(0, draws[0]), "CNY"),
      "India" := Rate(DrawRate(1, draws[1]), "INR"),
      "Japan" := Rate(DrawRate(2, draws[2]), "JPY"),
      "USA" := Rate(DrawRate(3, draws[3]), "USD"),
      "Germany" := Rate(DrawRate(4, draws[4]), "EUR")
    ]
  }

  /**
   * The rate guard of a page load: the snapshot stored for `day` if there is
   * one, otherwise a fresh one, which is stored under `day`. Returns the new
   * stored snapshots and the snapshot the page uses.
   */
  function EnsureRates(stored: map<int, Snapshot>, day: int, draws: seq<real>): (r: (map<int, Snapshot>, Snapshot))
    requires ValidDraws(draws)
    ensures day in r.0 && r.0[day] == r.1
    ensures day in stored ==> r.0 == stored
    ensures day !in stored ==> r.0 == stored[day := CreateDailyExchangeRates(draws)]
    ensures forall d :: d != day ==> (d in r.0 <==> d in stored)
    ensures forall d :: d in stored ==> d in r.0 && r.0[d] == stored[d]
  {
    if day in stored then (stored, stored[day])
    else
      var snap := CreateDailyExchangeRates(draws);
      (stored[day := snap], snap)
  }

  /**
   * Loading the page again on the same day, with any draws, sees the same
   * rates and stores nothing new.
   */
  lemma EnsureRatesIdempotent(stored: map<int, Snapshot>, day: int, first: seq<real>, again: seq<real>)
    requires ValidDraws(first) && ValidDraws(again)
    ensures EnsureRates(EnsureRates(stored, day, first).0, day, again) == EnsureRates(stored, day, first)
  {
  }
}
