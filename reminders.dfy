/**
 * The reminder calculator behind `getUpcomingReminders`: the three "next" dates of the dog's
 * profile (vaccination, antiparasitic, flea and tick treatment) become reminders when they
 * are at most 30 days away, each with the days left and an urgency, sorted by urgency and
 * then by days left.
 *
 * A date is given as the instant, in milliseconds, of its local midnight (`new Date(dateStr)`
 * followed by `setHours(0, 0, 0, 0)`), and `today` as the instant of today's local midnight;
 * parsing the date strings is not part of this model. A missing or empty date is `None`.
 */
module Reminders {
  import opened Seqs
  import opened Sorting
  import opened Poops

  /** Dates further away than this many days are dropped. */
  const Horizon: int := 30

  datatype Urgency = Urgent | Warning | Ok

  /** `urgencyOrder`: urgent before warning before ok. */
  function Rank(u: Urgency): nat {
    match u
    case Urgent => 0
    case Warning => 1
    case Ok => 2
  }

  lemma RankOrdersUrgency()
    ensures Rank(Urgent) < Rank(Warning) < Rank(Ok)
  {
  }

  /**
   * The urgency of a reminder `daysLeft` days away: overdue dates and dates within a week are
   * urgent, the second week is a warning, anything later is ok.
   */
  function Classify(daysLeft: int): (u: Urgency)
    ensures u == Urgent <==> daysLeft <= 7
    ensures u == Warning <==> 8 <= daysLeft <= 14
    ensures u == Ok <==> 15 <= daysLeft
  {
    if daysLeft < 0 then Urgent
    else if daysLeft <= 7 then Urgent
    else if daysLeft <= 14 then Warning
    else Ok
  }

  /** A later date is never more urgent. */
  lemma ClassifyMonotone(d1: int, d2: int)
    requires d1 <= d2
    ensures Rank(Classify(d1)) <= Rank(Classify(d2))
  {
  }

  /** The three profile dates, standing for the reminder labels. */
  datatype Care = Vaccination | Antiparasitic | FleaTick

  /** One entry of the reminder list; `date` is the date's local midnight. */
  datatype Reminder = Reminder(care: Care, date: int, daysLeft: int, urgency: Urgency)

  /**
   * The whole days from today's midnight to the date's midnight, `elapsed` milliseconds apart,
   * rounded to the nearest day: a day on which the clocks change lasts 23 or 25 hours, so the
   * two midnights are a whole number of days apart only up to an hour.
   */
  function DaysLeft(elapsed: int): (n: int)
    ensures n * MsPerDay - MsPerDay / 2 <= elapsed < n * MsPerDay + MsPerDay / 2
  {
    var x := elapsed + MsPerDay / 2;
    assert x == (x / MsPerDay) * MsPerDay + x % MsPerDay;
    x / MsPerDay
  }

  /** The rounded count is `n` exactly when the time apart is within half a day of `n` days. */
  lemma DaysLeftIsNearest(elapsed: int, n: int)
    ensures DaysLeft(elapsed) == n <==> n * MsPerDay - MsPerDay / 2 <= elapsed < n * MsPerDay + MsPerDay / 2
  {
    if n * MsPerDay - MsPerDay / 2 <= elapsed < n * MsPerDay + MsPerDay / 2 {
      FloorDivision(elapsed + MsPerDay / 2, n);
    }
  }

  /**
   * Two midnights `n` calendar days apart, with the local offset changed by less than half a day
   * in between, are `n` days apart.
   */
  lemma DaysLeftCountsCalendarDays(n: int, shift: int)
    requires -MsPerDay / 2 <= shift < MsPerDay / 2
    ensures DaysLeft(n * MsPerDay + shift) == n
  {
    var x := n * MsPerDay + shift + MsPerDay / 2;
    assert n * MsPerDay <= x < (n + 1) * MsPerDay;
    FloorDivision(x, n);
  }

  /** The quotient of `x` by a day is the `n` with `n` days <= `x` < `n + 1` days. */
  lemma FloorDivision(x: int, n: int)
    requires n * MsPerDay <= x < (n + 1) * MsPerDay
    ensures x / MsPerDay == n
  {
    var q := x / MsPerDay;
    assert q * MsPerDay <= x < (q + 1) * MsPerDay;
  }

  /**
   * `checkDate`: no reminder for a missing date or one more than 30 days away; otherwise a
   * reminder with the days left and their urgency.
   */
  function CheckDate(care: Care, date: Option<int>, today: int): (r: Option<Reminder>)
    ensures r.Some? <==> date.Some? && DaysLeft(date.value - today) <= Horizon
    ensures r.Some? ==> r.value.care == care && r.value.date == date.value
    ensures r.Some? ==> r.value.daysLeft <= Horizon && r.value.urgency == Classify(r.value.daysLeft)
  {
    if date.None? then None
    else
      var daysLeft := DaysLeft(date.value - today);
      if daysLeft <= Horizon then Some(Reminder(care, date.value, daysLeft, Classify(daysLeft)))
      else None
  }

  /** The comparator of the sort as "may come before": by urgency rank, then by days left. */
  const ByUrgency: (Reminder, Reminder) -> bool :=
    (a: Reminder, b: Reminder) =>
      Rank(a.urgency) < Rank(b.urgency) || (Rank(a.urgency) == Rank(b.urgency) && a.daysLeft <= b.daysLeft)

  /**
   * The comparator as written: the difference of the urgency ranks, or of the days left when the
   * ranks agree. It puts `a` first, or keeps the pair, exactly when `a` may come before `b`.
   */
  function CompareReminders(a: Reminder, b: Reminder): (r: int)
    ensures r <= 0 <==> ByUrgency(a, b)
    ensures r == 0 <==> Rank(a.urgency) == Rank(b.urgency) && a.daysLeft == b.daysLeft
  {
    if Rank(a.urgency) != Rank(b.urgency) then Rank(a.urgency) - Rank(b.urgency) else a.daysLeft - b.daysLeft
  }

  /** Swapping the reminders negates the comparison. */
  lemma CompareAntisymmetric(a: Reminder, b: Reminder)
    ensures CompareReminders(a, b) == -CompareReminders(b, a)
  {
  }

  lemma ByUrgencyIsOrder()
    ensures Total(ByUrgency) && Transitive(ByUrgency)
  {
  }

  /** The profile date a reminder of `care` comes from. */
  function DateFor(care: Care, vaccination: Option<int>, antiparasitic: Option<int>, fleaTick: Option<int>): Option<int> {
    match care
    case Vaccination => vaccination
    case Antiparasitic => antiparasitic
    case FleaTick => fleaTick
  }

  /**
   * `getUpcomingReminders`: at most one reminder per profile date, present exactly when that
   * date is set and at most 30 days away, each as `checkDate` builds it, ordered by urgency
   * rank and, within a rank, by days left. Since urgency only falls as the days left grow, the
   * list is also ordered by days left alone.
   */
  method UpcomingReminders(vaccination: Option<int>, antiparasitic: Option<int>, fleaTick: Option<int>, today: int)
    returns (reminders: seq<Reminder>)
    ensures |reminders| <= 3
    ensures forall c: Care :: (exists r :: r in reminders && r.care == c)
                              <==> CheckDate(c, DateFor(c, vaccination, antiparasitic, fleaTick), today).Some?
    ensures forall r :: r in reminders ==> CheckDate(r.care, DateFor(r.care, vaccination, antiparasitic, fleaTick), today) == Some(r)
    ensures forall i, j :: 0 <= i < j < |reminders| ==> reminders[i].care != reminders[j].care
    ensures Sorted(reminders, ByUrgency)
    ensures forall i, j :: 0 <= i < j < |reminders| ==> reminders[i].daysLeft <= reminders[j].daysLeft
  {
    var due := DueReminders(vaccination, antiparasitic, fleaTick, today);
    DueIsOnePerDate(vaccination, antiparasitic, fleaTick, today);
    reminders := Sort(due, ByUrgency);
    SortKeepsReminders(due, reminders);
    UrgencyOrderIsDaysOrder(reminders);
    DistinctCares(due, reminders);
  }

  /**
   * The three `checkDate` calls and the pushes of their non-null results, in the order
   * vaccination, antiparasitic, flea and tick.
   */
  method DueReminders(vaccination: Option<int>, antiparasitic: Option<int>, fleaTick: Option<int>, today: int)
    returns (due: seq<Reminder>)
    ensures due == Due(vaccination, antiparasitic, fleaTick, today)
  {
    due := [];
    var vacc := CheckDate(Vaccination, vaccination, today);
    var anti := CheckDate(Antiparasitic, antiparasitic, today);
    var flea := CheckDate(FleaTick, fleaTick, today);
    if vacc.Some? {
      due := due + [vacc.value];
    }
    if anti.Some? {
      due := due + [anti.value];
    }
    if flea.Some? {
      due := due + [flea.value];
    }
  }

  /** The reminders of the three profile dates before sorting. */
  function Due(vaccination: Option<int>, antiparasitic: Option<int>, fleaTick: Option<int>, today: int): seq<Reminder> {
    Listed(CheckDate(Vaccination, vaccination, today))
    + Listed(CheckDate(Antiparasitic, antiparasitic, today))
    + Listed(CheckDate(FleaTick, fleaTick, today))
  }

  /**
   * Before sorting there is at most one reminder per profile date, present exactly when that
   * date is set and at most 30 days away, each as `checkDate` builds it.
   */
  lemma DueIsOnePerDate(vaccination: Option<int>, antiparasitic: Option<int>, fleaTick: Option<int>, today: int)
    ensures var due := Due(vaccination, antiparasitic, fleaTick, today);
            |due| <= 3
            && (forall c: Care :: (exists r :: r in due && r.care == c)
                                  <==> CheckDate(c, DateFor(c, vaccination, antiparasitic, fleaTick), today).Some?)
            && (forall r :: r in due ==> CheckDate(r.care, DateFor(r.care, vaccination, antiparasitic, fleaTick), today) == Some(r))
            && (forall i, j :: 0 <= i < j < |due| ==> due[i].care != due[j].care)
  {
    var due := Due(vaccination, antiparasitic, fleaTick, today);
    var vacc := CheckDate(Vaccination, vaccination, today);
    var anti := CheckDate(Antiparasitic, antiparasitic, today);
    var flea := CheckDate(FleaTick, fleaTick, today);
    ListedReminders(vacc, anti, flea, due);
    forall c: Care
      ensures (exists r :: r in due && r.care == c) <==> CheckDate(c, DateFor(c, vaccination, antiparasitic, fleaTick), today).Some?
    {
      var found := CheckDate(c, DateFor(c, vaccination, antiparasitic, fleaTick), today);
      assert found == if c == Vaccination then vacc else if c == Antiparasitic then anti else flea;
      if found.Some? {
        assert found.value in due;
      }
    }
  }

  /** The reminder a `checkDate` result pushes, if any. */
  function Listed(found: Option<Reminder>): seq<Reminder> {
    if found.Some? then [found.value] else []
  }

  /** The pushed results of three `checkDate` calls for three different cares. */
  lemma ListedReminders(vacc: Option<Reminder>, anti: Option<Reminder>, flea: Option<Reminder>, due: seq<Reminder>)
    requires vacc.Some? ==> vacc.value.care == Vaccination
    requires anti.Some? ==> anti.value.care == Antiparasitic
    requires flea.Some? ==> flea.value.care == FleaTick
    requires due == Listed(vacc) + Listed(anti) + Listed(flea)
    ensures |due| <= 3
    ensures forall r :: r in due <==> Some(r) == vacc || Some(r) == anti || Some(r) == flea
    ensures forall i, j :: 0 <= i < j < |due| ==> due[i].care != due[j].care
  {
  }

  /** Sorting the reminders by urgency keeps the same reminders and orders them by urgency rank. */
  lemma SortKeepsReminders(due: seq<Reminder>, sorted: seq<Reminder>)
    requires sorted == Sort(due, ByUrgency)
    ensures |sorted| == |due|
    ensures forall r :: r in sorted <==> r in due
    ensures Sorted(sorted, ByUrgency)
  {
    assert |sorted| == |due| by {
      assert |multiset(sorted)| == |multiset(due)|;
    }
    forall r ensures r in sorted <==> r in due {
      assert r in sorted <==> r in multiset(sorted);
      assert r in due <==> r in multiset(due);
    }
    ByUrgencyIsOrder();
    SortSorted(due, ByUrgency);
  }

  /**
   * Reminders whose urgency follows their days left, ordered by urgency rank then days left,
   * are ordered by days left alone.
   */
  lemma UrgencyOrderIsDaysOrder(sorted: seq<Reminder>)
    requires Sorted(sorted, ByUrgency)
    requires forall r :: r in sorted ==> r.urgency == Classify(r.daysLeft)
    ensures forall i, j :: 0 <= i < j < |sorted| ==> sorted[i].daysLeft <= sorted[j].daysLeft
  {
    forall i, j | 0 <= i < j < |sorted| ensures sorted[i].daysLeft <= sorted[j].daysLeft {
      assert ByUrgency(sorted[i], sorted[j]);
      assert sorted[i] in sorted && sorted[j] in sorted;
      if sorted[i].daysLeft > sorted[j].daysLeft {
        ClassifyMonotone(sorted[j].daysLeft, sorted[i].daysLeft);
      }
    }
  }

  /** Sorting a list with one reminder per care keeps one reminder per care. */
  lemma DistinctCares(due: seq<Reminder>, sorted: seq<Reminder>)
    requires sorted == Sort(due, ByUrgency)
    requires forall i, j :: 0 <= i < j < |due| ==> due[i].care != due[j].care
    ensures forall i, j :: 0 <= i < j < |sorted| ==> sorted[i].care != sorted[j].care
  {
    SortNoDuplicates(due, ByUrgency);
    forall i, j | 0 <= i < j < |sorted| ensures sorted[i].care != sorted[j].care {
      assert sorted[i] in multiset(due) && sorted[j] in multiset(due);
      var a :| 0 <= a < |due| && due[a] == sorted[i];
      var b :| 0 <= b < |due| && due[b] == sorted[j];
      assert sorted[i] != sorted[j];
    }
  }

  /**
   * The days left as written: `Math.ceil(diffTime / (1000 * 60 * 60 * 24))`, the quotient
   * rounded up (for a positive divisor, minus the floor of the negated quotient).
   */
  function DaysLeftAsWritten(elapsed: int): (n: int)
    ensures (n - 1) * MsPerDay < elapsed <= n * MsPerDay
  {
    var q := (-elapsed) / MsPerDay;
    assert -elapsed == q * MsPerDay + (-elapsed) % MsPerDay;
    -q
  }

  /** As written, the count is `n` exactly when the time apart is more than `n - 1` days and at most `n` days. */
  lemma DaysLeftAsWrittenIsCeiling(elapsed: int, n: int)
    ensures DaysLeftAsWritten(elapsed) == n <==> (n - 1) * MsPerDay < elapsed <= n * MsPerDay
  {
    if (n - 1) * MsPerDay < elapsed <= n * MsPerDay {
      FloorDivision(-elapsed, -n);
    }
  }

  /**
   * Across the night the clocks go back, a date seven calendar days ahead is seven days and one
   * hour ahead: as written it counts eight days left and only a warning, where the rounded
   * count gives seven and an urgent reminder.
   */
  lemma CeilingOverCountsLongDay()
    ensures var elapsed := 7 * MsPerDay + 3_600_000;
            DaysLeftAsWritten(elapsed) == 8 && Classify(DaysLeftAsWritten(elapsed)) == Warning
            && DaysLeft(elapsed) == 7 && Classify(DaysLeft(elapsed)) == Urgent
  {
    DaysLeftCountsCalendarDays(7, 3_600_000);
  }
}
