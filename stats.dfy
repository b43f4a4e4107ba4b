/**
 * The counters of the statistics panel (`updateStats`), the per-type counts of the type chart
 * (`generateTypeChart`) and the 30 daily buckets of the timeline chart (`generateTimelineChart`).
 */
module Stats {
  import opened Seqs
  import opened Poops

  /** The three numbers of the statistics panel. */
  datatype Summary = Summary(total: nat, healthy: nat, problems: nat)

  /**
   * `updateStats`: the number of entries, of healthy ones, and of problem ones (diarrhea, blood
   * or mucus), each a `filter(...).length`. No entry is both healthy and a problem, so the two
   * counts together never exceed the total.
   */
  function Summarize(poops: seq<Entry>): (r: Summary)
    ensures r.total == |poops|
    ensures r.healthy + r.problems <= r.total
  {
    CountDisjoint(poops, Healthy, Problem);
    Summary(|poops|, Count(poops, Healthy), Count(poops, Problem))
  }

  /** The keys of `typeCounts`. */
  const TypeChartKeys: set<string> := {"healthy", "soft", "diarrhea", "hard", "blood", "mucus"}

  /** `counts` holds one counter per known type, each the number of entries of `poops` of that type. */
  predicate Counted(counts: map<string, nat>, poops: seq<Entry>) {
    counts.Keys == TypeChartKeys && forall t :: t in counts ==> counts[t] == Count(poops, OfType(t))
  }

  /**
   * `generateTypeChart`'s counting loop: one counter per known type, incremented for every entry
   * of that type; entries of any other type are not counted anywhere.
   */
  method TypeCounts(poops: seq<Entry>) returns (counts: map<string, nat>)
    ensures Counted(counts, poops)
  {
    counts := map["healthy" := 0, "soft" := 0, "diarrhea" := 0, "hard" := 0, "blood" := 0, "mucus" := 0];
    var i := 0;
    CountedNone(poops);
    while i < |poops|
      invariant 0 <= i <= |poops|
      invariant Counted(counts, poops[..i])
    {
      var p := poops[i];
      CountedStep(counts, poops, i);
      if p.kind in counts {
        counts := counts[p.kind := counts[p.kind] + 1];
      }
      i := i + 1;
    }
    assert poops[..i] == poops;
  }

  /** Before the loop every counter is zero. */
  lemma CountedNone(poops: seq<Entry>)
    ensures Counted(map["healthy" := 0, "soft" := 0, "diarrhea" := 0, "hard" := 0, "blood" := 0, "mucus" := 0], poops[..0])
  {
    assert poops[..0] == [];
  }

  /** Counting one more entry increments the counter of its type, if it has one, and no other. */
  lemma CountedStep(counts: map<string, nat>, poops: seq<Entry>, i: nat)
    requires i < |poops| && Counted(counts, poops[..i])
    ensures var p := poops[i];
            Counted(if p.kind in counts then counts[p.kind := counts[p.kind] + 1] else counts, poops[..i + 1])
  {
    var p := poops[i];
    assert poops[..i + 1] == poops[..i] + [p];
    forall t | t in counts ensures Count(poops[..i + 1], OfType(t)) == counts[t] + (if p.kind == t then 1 else 0) {
      CountSnoc(poops[..i], p, OfType(t));
    }
  }

  /**
   * The type chart and the statistics panel agree: the healthy slice is the healthy counter, and
   * the diarrhea, blood and mucus slices add up to the problem counter.
   */
  lemma {:induction false} TypeChartAgreesWithSummary(poops: seq<Entry>)
    ensures Count(poops, OfType("healthy")) == Summarize(poops).healthy
    ensures Count(poops, OfType("diarrhea")) + Count(poops, OfType("blood")) + Count(poops, OfType("mucus"))
            == Summarize(poops).problems
    decreases |poops|
  {
    if poops != [] {
      var e := poops[0];
      TypeChartAgreesWithSummary(poops[1..]);
      CountFront(poops, OfType("healthy"));
      CountFront(poops, OfType("diarrhea"));
      CountFront(poops, OfType("blood"));
      CountFront(poops, OfType("mucus"));
      CountFront(poops, Healthy);
      CountFront(poops, Problem);
      assert Problem(e) <==> e.kind == "diarrhea" || e.kind == "blood" || e.kind == "mucus";
    }
  }

  /** The number of days in the timeline chart. */
  const TimelineDays: nat := 30

  /** The totals of one timeline bucket. */
  datatype DayCount = DayCount(total: nat, problems: nat)

  function OnDay(d: int): Entry -> bool {
    (e: Entry) => DayOf(e.timestamp) == d
  }

  function ProblemOnDay(d: int): Entry -> bool {
    (e: Entry) => DayOf(e.timestamp) == d && IsProblemType(e.kind)
  }

  /** The bucket of day `d`: the entries logged that day, and those among them that are problems. */
  function DayBucket(poops: seq<Entry>, d: int): (b: DayCount)
    ensures b.problems <= b.total
  {
    CountMonotone(poops, ProblemOnDay(d), OnDay(d));
    DayCount(Count(poops, OnDay(d)), Count(poops, ProblemOnDay(d)))
  }

  /**
   * `generateTimelineChart`'s two loops: one zero bucket per day from 29 days ago to today, then
   * every entry logged from the midnight of the first day on is counted in its day's bucket.
   * Bucket `i` holds exactly the entries of day `DayOf(now) - 29 + i`, so an empty log gives
   * thirty zero buckets.
   */
  method Timeline(poops: seq<Entry>, now: int) returns (days: seq<DayCount>)
    ensures |days| == TimelineDays
    ensures forall i :: 0 <= i < |days| ==> days[i] == DayBucket(poops, DayOf(now) - 29 + i)
    ensures forall i :: 0 <= i < |days| ==> days[i].problems <= days[i].total
  {
    var today := DayOf(now);
    var first := today - 29;
    days := [];
    var d := first;
    while d <= today
      invariant first <= d <= today + 1
      invariant |days| == d - first
      invariant forall k :: 0 <= k < |days| ==> days[k] == DayCount(0, 0)
    {
      days := days + [DayCount(0, 0)];
      d := d + 1;
    }
    var cutoff := DayStart(first);
    var i := 0;
    NoBuckets(days, poops, first);
    while i < |poops|
      invariant 0 <= i <= |poops|
      invariant days == Buckets(poops[..i], first)
    {
      var p := poops[i];
      BucketsStep(poops, i, first);
      AtOrAfterDayStart(p.timestamp, first);
      if p.timestamp >= cutoff {
        var k := DayOf(p.timestamp) - first;
        if k < |days| {
          var b := days[k];
          days := days[k := DayCount(b.total + 1, if IsProblemType(p.kind) then b.problems + 1 else b.problems)];
        }
      }
      i := i + 1;
    }
    assert poops[..i] == poops;
  }

  /** The chart's buckets for the entries `poops`, from day `first` on. */
  function Buckets(poops: seq<Entry>, first: int): (days: seq<DayCount>)
    ensures |days| == TimelineDays
  {
    seq(TimelineDays, k => DayBucket(poops, first + k))
  }

  /** The zero buckets the first loop builds are the buckets of no entries. */
  lemma NoBuckets(days: seq<DayCount>, poops: seq<Entry>, first: int)
    requires |days| == TimelineDays
    requires forall k :: 0 <= k < |days| ==> days[k] == DayCount(0, 0)
    ensures days == Buckets(poops[..0], first)
  {
    assert poops[..0] == [];
    forall k | 0 <= k < TimelineDays ensures Buckets([], first)[k] == DayCount(0, 0) {
      assert Buckets([], first)[k] == DayBucket([], first + k);
      assert Select([], OnDay(first + k)) == [] && Select([], ProblemOnDay(first + k)) == [];
    }
  }

  /**
   * One more entry grows the bucket of its day by one (and its problems by one when it is a
   * problem), provided that day is in the chart; every other bucket stays as it was.
   */
  lemma BucketsStep(poops: seq<Entry>, i: nat, first: int)
    requires i < |poops|
    ensures var p := poops[i];
            var k := DayOf(p.timestamp) - first;
            var days := Buckets(poops[..i], first);
            Buckets(poops[..i + 1], first)
              == if 0 <= k < TimelineDays
                 then days[k := DayCount(days[k].total + 1, if IsProblemType(p.kind) then days[k].problems + 1 else days[k].problems)]
                 else days
  {
    var p := poops[i];
    var d := DayOf(p.timestamp) - first;
    var before := Buckets(poops[..i], first);
    var after := Buckets(poops[..i + 1], first);
    assert poops[..i + 1] == poops[..i] + [p];
    forall k | 0 <= k < TimelineDays
      ensures after[k].total == before[k].total + (if d == k then 1 else 0)
      ensures after[k].problems == before[k].problems + (if d == k && IsProblemType(p.kind) then 1 else 0)
    {
      CountSnoc(poops[..i], p, OnDay(first + k));
      CountSnoc(poops[..i], p, ProblemOnDay(first + k));
    }
  }

  /**
   * The bucket of day `d` as `generateTimelineChart` fills it: the cutoff `thirtyDaysAgo` is
   * `now` moved back 29 days with its time of day kept, not the midnight of the first day.
   */
  function DayBucketAsWritten(poops: seq<Entry>, now: int, d: int): (b: DayCount)
    ensures b.problems <= b.total <= DayBucket(poops, d).total
  {
    var cutoff := now - 29 * MsPerDay;
    var counted := (e: Entry) => e.timestamp >= cutoff && DayOf(e.timestamp) == d;
    var problem := (e: Entry) => e.timestamp >= cutoff && DayOf(e.timestamp) == d && IsProblemType(e.kind);
    CountMonotone(poops, problem, counted);
    CountMonotone(poops, counted, OnDay(d));
    DayCount(Count(poops, counted), Count(poops, problem))
  }

  /**
   * An entry logged on the first day of the window, earlier in the day than the current time,
   * is missing from the first bucket as written, though the bucket for its day is drawn.
   */
  lemma FirstBucketMissesEarlierEntry()
    ensures var e := Entry(1, 0.0, 0.0, 8 * 3_600_000, "healthy", "", "", "", "", "", "");
            var now := 29 * MsPerDay + 12 * 3_600_000;
            DayOf(e.timestamp) == DayOf(now) - 29
            && DayBucketAsWritten([e], now, DayOf(now) - 29).total == 0
            && DayBucket([e], DayOf(now) - 29).total == 1
  {
    var e := Entry(1, 0.0, 0.0, 8 * 3_600_000, "healthy", "", "", "", "", "", "");
    assert [e][1..] == [];
  }
}
