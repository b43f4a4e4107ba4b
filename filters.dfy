/**
 * The filter engine behind `getFilteredPoops`: a period filter, then a type filter, then a
 * food filter, each skipped when its criterion is `'all'`. The current time `now` and the
 * cutoff of the month period (one calendar month before today's midnight, which the source
 * computes with `setMonth`) are parameters, in local-time milliseconds.
 */
module Filters {
  import opened Seqs
  import opened Poops

  /** `activeFilters`: the period, type and food chosen in the filter form. */
  datatype Criteria = Criteria(period: string, kind: string, food: string)

  const NoFilter: Criteria := Criteria("all", "all", "all")

  /** The period names the switch recognises; any other period keeps every entry. */
  const Periods: set<string> := {"today", "yesterday", "week", "month"}

  /**
   * Whether an entry logged at `t` falls in `period`, seen from `now`: today is from today's
   * midnight to the next, yesterday the day before; a week is from the midnight seven days ago
   * on, a month from `monthAgo` on; any other period keeps everything.
   */
  function InPeriod(period: string, t: int, now: int, monthAgo: int): (b: bool)
    ensures period == "today" ==> (b <==> DayStart(DayOf(now)) <= t < DayStart(DayOf(now) + 1))
    ensures period == "yesterday" ==> (b <==> DayStart(DayOf(now) - 1) <= t < DayStart(DayOf(now)))
    ensures period == "week" ==> (b <==> DayOf(t) >= DayOf(now) - 7)
    ensures period !in Periods ==> b
  {
    var today := DayOf(now);
    AtOrAfterDayStart(t, today - 1);
    AtOrAfterDayStart(t, today);
    AtOrAfterDayStart(t, today + 1);
    AtOrAfterDayStart(t, today - 7);
    if period == "today" then DayOf(t) == today
    else if period == "yesterday" then DayOf(t) == today - 1
    else if period == "week" then t >= DayStart(today - 7)
    else if period == "month" then t >= monthAgo
    else true
  }

  function PeriodTest(period: string, now: int, monthAgo: int): Entry -> bool {
    (e: Entry) => InPeriod(period, e.timestamp, now, monthAgo)
  }

  function FoodTest(food: string): Entry -> bool {
    (e: Entry) => e.food == food
  }

  /** The three criteria as one conjunction. */
  predicate Matches(c: Criteria, now: int, monthAgo: int, e: Entry) {
    (c.period == "all" || InPeriod(c.period, e.timestamp, now, monthAgo))
    && (c.kind == "all" || e.kind == c.kind)
    && (c.food == "all" || e.food == c.food)
  }

  /**
   * `getFilteredPoops`: an order-preserving copy of the entries that meet every active criterion.
   * An entry is kept exactly when it is in `poops` and matches; in particular every kept entry
   * has the chosen type and the chosen food.
   */
  function FilteredPoops(poops: seq<Entry>, c: Criteria, now: int, monthAgo: int): (r: seq<Entry>)
    ensures IsSubsequence(r, poops)
    ensures forall e :: e in r <==> e in poops && Matches(c, now, monthAgo, e)
    ensures c == NoFilter ==> r == poops
  {
    var byPeriod := if c.period != "all" then Select(poops, PeriodTest(c.period, now, monthAgo)) else poops;
    var byType := if c.kind != "all" then Select(byPeriod, OfType(c.kind)) else byPeriod;
    var byFood := if c.food != "all" then Select(byType, FoodTest(c.food)) else byType;
    SubsequenceReflexive(poops);
    SubsequenceReflexive(byPeriod);
    SubsequenceReflexive(byType);
    SelectIsSubsequence(poops, PeriodTest(c.period, now, monthAgo));
    SelectIsSubsequence(byPeriod, OfType(c.kind));
    SelectIsSubsequence(byType, FoodTest(c.food));
    SubsequenceTransitive(byType, byPeriod, poops);
    SubsequenceTransitive(byFood, byType, poops);
    byFood
  }

  function MatchTest(c: Criteria, now: int, monthAgo: int): Entry -> bool {
    (e: Entry) => Matches(c, now, monthAgo, e)
  }

  /**
   * The three filters in a row are one filter by the conjunction: the result is exactly the
   * matching entries of `poops`, in order and with repetitions.
   */
  lemma FilteredIsOneSelect(poops: seq<Entry>, c: Criteria, now: int, monthAgo: int)
    ensures FilteredPoops(poops, c, now, monthAgo) == Select(poops, MatchTest(c, now, monthAgo))
  {
    var period := (e: Entry) => c.period == "all" || InPeriod(c.period, e.timestamp, now, monthAgo);
    var kind := (e: Entry) => c.kind == "all" || e.kind == c.kind;
    var food := (e: Entry) => c.food == "all" || e.food == c.food;
    var periodAndKind := (e: Entry) => period(e) && kind(e);
    var byPeriod := Select(poops, period);
    var byType := Select(byPeriod, kind);
    if c.period == "all" {
      SelectAll(poops, period);
    } else {
      SelectCongruent(poops, period, PeriodTest(c.period, now, monthAgo));
    }
    if c.kind == "all" {
      SelectAll(byPeriod, kind);
    } else {
      SelectCongruent(byPeriod, kind, OfType(c.kind));
    }
    if c.food == "all" {
      SelectAll(byType, food);
    } else {
      SelectCongruent(byType, food, FoodTest(c.food));
    }
    SelectTwice(poops, period, kind, periodAndKind);
    SelectTwice(poops, periodAndKind, food, MatchTest(c, now, monthAgo));
  }

  /** A period the switch does not recognise filters nothing: it behaves like `'all'`. */
  lemma UnknownPeriodKeepsAll(poops: seq<Entry>, c: Criteria, now: int, monthAgo: int)
    requires c.period !in Periods
    ensures FilteredPoops(poops, c, now, monthAgo) == FilteredPoops(poops, c.(period := "all"), now, monthAgo)
  {
    SelectAll(poops, PeriodTest(c.period, now, monthAgo));
  }

  /** The `today` and `yesterday` periods never share an entry. */
  lemma TodayAndYesterdayDisjoint(poops: seq<Entry>, c: Criteria, now: int, monthAgo: int)
    ensures forall e ::
      e in FilteredPoops(poops, c.(period := "today"), now, monthAgo) ==>
      e !in FilteredPoops(poops, c.(period := "yesterday"), now, monthAgo)
  {
  }

  /** Everything logged today or yesterday is also in the last week. */
  lemma RecentDaysInWeek(poops: seq<Entry>, c: Criteria, now: int, monthAgo: int)
    ensures forall e ::
      e in FilteredPoops(poops, c.(period := "today"), now, monthAgo)
      || e in FilteredPoops(poops, c.(period := "yesterday"), now, monthAgo) ==>
      e in FilteredPoops(poops, c.(period := "week"), now, monthAgo)
  {
    forall e | e in poops
      ensures DayOf(e.timestamp) >= DayOf(now) - 7 ==> e.timestamp >= DayStart(DayOf(now) - 7)
    {
      AtOrAfterDayStart(e.timestamp, DayOf(now) - 7);
    }
  }
}
