/**
 * The counting behind `generateFoodCorrelationChart`: entries are grouped by their trimmed,
 * non-empty food into (total, problems) pairs, in the order each food first appears, then the
 * groups are sorted by descending total and the first five kept. The problem percentage the
 * chart draws is `problems / total`, which is left as the pair.
 */
module Foods {
  import opened Seqs
  import opened Text
  import opened Sorting
  import opened Poops

  /** One entry of `foodStats`. */
  datatype FoodStat = FoodStat(food: string, total: nat, problems: nat)

  /** How many groups the chart keeps. */
  const TopCount: nat := 5

  /** A group named by a trimmed, non-empty food that counts at least one entry, and no more problems than entries. */
  predicate GoodStat(g: FoodStat) {
    g.food != [] && IsTrimmed(g.food) && 1 <= g.total && g.problems <= g.total
  }

  predicate WellFormed(groups: seq<FoodStat>) {
    forall i :: 0 <= i < |groups| ==> GoodStat(groups[i])
  }

  predicate DistinctFoods(groups: seq<FoodStat>) {
    forall i, j :: 0 <= i < j < |groups| ==> groups[i].food != groups[j].food
  }

  function FoodNames(groups: seq<FoodStat>): set<string> {
    set g | g in groups :: g.food
  }

  /** The entries grouped under `food`. */
  function HasFood(food: string): Entry -> bool {
    (e: Entry) => Trim(e.food) == food
  }

  function FoodProblem(food: string): Entry -> bool {
    (e: Entry) => Trim(e.food) == food && IsProblemType(e.kind)
  }

  /** The group of `food`, if there is one (`foodStats[food]`). */
  function Find(groups: seq<FoodStat>, food: string): Option<FoodStat> {
    if groups == [] then None
    else if groups[0].food == food then Some(groups[0])
    else Find(groups[1..], food)
  }

  /** A group counting one more entry: a missing group starts at `{ total: 0, problems: 0 }`. */
  function Bump(prior: Option<FoodStat>, food: string, problem: bool): FoodStat {
    var g := if prior.Some? then prior.value else FoodStat(food, 0, 0);
    FoodStat(food, g.total + 1, if problem then g.problems + 1 else g.problems)
  }

  /** One step of the `forEach`: count an entry of `food` in its group, adding the group at the end if new. */
  function Tally(groups: seq<FoodStat>, food: string, problem: bool): (r: seq<FoodStat>)
    ensures forall g :: g in r ==> g in groups || g.food == food
  {
    if groups == [] then [Bump(None, food, problem)]
    else if groups[0].food == food then [Bump(Some(groups[0]), food, problem)] + groups[1..]
    else [groups[0]] + Tally(groups[1..], food, problem)
  }

  /** Tallying a trimmed, non-empty food keeps the groups well formed and their foods distinct. */
  lemma TallyKeepsShape(groups: seq<FoodStat>, food: string, problem: bool)
    requires food != [] && IsTrimmed(food)
    ensures WellFormed(groups) ==> WellFormed(Tally(groups, food, problem))
    ensures DistinctFoods(groups) ==> DistinctFoods(Tally(groups, food, problem))
  {
    if WellFormed(groups) {
      TallyWellFormed(groups, food, problem);
    }
    if DistinctFoods(groups) {
      TallyDistinct(groups, food, problem);
    }
  }

  lemma {:induction false} TallyWellFormed(groups: seq<FoodStat>, food: string, problem: bool)
    requires food != [] && IsTrimmed(food) && WellFormed(groups)
    ensures WellFormed(Tally(groups, food, problem))
    decreases |groups|
  {
    var r := Tally(groups, food, problem);
    if groups == [] {
      assert r == [Bump(None, food, problem)];
    } else if groups[0].food == food {
      assert r == [Bump(Some(groups[0]), food, problem)] + groups[1..];
      assert GoodStat(r[0]);
      forall i | 1 <= i < |r| ensures GoodStat(r[i]) {
        assert r[i] == groups[i];
      }
    } else {
      var rest := Tally(groups[1..], food, problem);
      assert WellFormed(groups[1..]) by {
        forall i | 0 <= i < |groups[1..]| ensures GoodStat(groups[1..][i]) {
          assert groups[1..][i] == groups[i + 1];
        }
      }
      TallyWellFormed(groups[1..], food, problem);
      assert r == [groups[0]] + rest;
      forall i | 1 <= i < |r| ensures GoodStat(r[i]) {
        assert r[i] == rest[i - 1];
      }
    }
  }

  lemma {:induction false} TallyDistinct(groups: seq<FoodStat>, food: string, problem: bool)
    requires DistinctFoods(groups)
    ensures DistinctFoods(Tally(groups, food, problem))
    decreases |groups|
  {
    if groups != [] && groups[0].food != food {
      var rest := Tally(groups[1..], food, problem);
      TallyDistinct(groups[1..], food, problem);
      assert forall g :: g in rest ==> g.food != groups[0].food by {
        forall g | g in rest ensures g.food != groups[0].food {
          if g in groups[1..] {
            var k :| 0 <= k < |groups[1..]| && groups[1..][k] == g;
            assert groups[k + 1] == g;
          }
        }
      }
      assert Tally(groups, food, problem) == [groups[0]] + rest;
    }
  }

  /** Tallying adds at most one group, after the others, which keep their places and foods. */
  lemma TallyKeepsOrder(groups: seq<FoodStat>, food: string, problem: bool)
    ensures |groups| <= |Tally(groups, food, problem)| <= |groups| + 1
    ensures forall i :: 0 <= i < |groups| ==> Tally(groups, food, problem)[i].food == groups[i].food
  {
    TallyLength(groups, food, problem);
    forall i | 0 <= i < |groups| ensures Tally(groups, food, problem)[i].food == groups[i].food {
      TallyKeepsFood(groups, food, problem, i);
    }
  }

  lemma {:induction false} TallyLength(groups: seq<FoodStat>, food: string, problem: bool)
    ensures |groups| <= |Tally(groups, food, problem)| <= |groups| + 1
    decreases |groups|
  {
    if groups != [] && groups[0].food != food {
      TallyLength(groups[1..], food, problem);
    }
  }

  lemma {:induction false} TallyKeepsFood(groups: seq<FoodStat>, food: string, problem: bool, i: nat)
    requires i < |groups|
    ensures i < |Tally(groups, food, problem)| && Tally(groups, food, problem)[i].food == groups[i].food
    decreases i
  {
    TallyLength(groups, food, problem);
    if i > 0 && groups[0].food != food {
      TallyKeepsFood(groups[1..], food, problem, i - 1);
    }
  }

  /** Tallying `food` bumps its group and leaves every other group as it was. */
  lemma {:induction false} TallyFind(groups: seq<FoodStat>, food: string, problem: bool, other: string)
    ensures Find(Tally(groups, food, problem), other)
            == if other == food then Some(Bump(Find(groups, food), food, problem)) else Find(groups, other)
    decreases |groups|
  {
    if groups != [] && groups[0].food != food {
      TallyFind(groups[1..], food, problem, other);
    }
  }

  /** One iteration of the `forEach`: an entry with a non-empty trimmed food is counted in its group. */
  function Step(groups: seq<FoodStat>, e: Entry): (r: seq<FoodStat>)
    ensures Trim(e.food) == [] ==> r == groups
    ensures |groups| <= |r| <= |groups| + 1
    ensures forall i :: 0 <= i < |groups| ==> r[i].food == groups[i].food
  {
    var food := Trim(e.food);
    if food == [] then groups
    else
      TallyKeepsOrder(groups, food, IsProblemType(e.kind));
      Tally(groups, food, IsProblemType(e.kind))
  }

  /** The iterations over `poops`, in order, starting from `groups`. */
  function Accumulate(groups: seq<FoodStat>, poops: seq<Entry>): (r: seq<FoodStat>)
    ensures |groups| <= |r| <= |groups| + |poops|
    ensures forall i :: 0 <= i < |groups| ==> r[i].food == groups[i].food
    decreases |poops|
  {
    if poops == [] then groups else Accumulate(Step(groups, poops[0]), poops[1..])
  }

  /** `foodStats` after the `forEach` over `poops`, in the order foods first appear. */
  function FoodGroups(poops: seq<Entry>): (r: seq<FoodStat>)
    ensures WellFormed(r) && DistinctFoods(r)
  {
    AccumulateKeepsShape([], poops);
    Accumulate([], poops)
  }

  lemma {:induction false} AccumulateKeepsShape(groups: seq<FoodStat>, poops: seq<Entry>)
    requires WellFormed(groups) && DistinctFoods(groups)
    ensures WellFormed(Accumulate(groups, poops)) && DistinctFoods(Accumulate(groups, poops))
    decreases |poops|
  {
    if poops != [] {
      var food := Trim(poops[0].food);
      if food != [] {
        TallyKeepsShape(groups, food, IsProblemType(poops[0].kind));
      }
      AccumulateKeepsShape(Step(groups, poops[0]), poops[1..]);
    }
  }

  /** A group (or none) after `total` more entries of `food`, `problems` of them problems. */
  function Plus(prior: Option<FoodStat>, food: string, total: nat, problems: nat): Option<FoodStat> {
    if prior.None? && total == 0 then None
    else
      var g := if prior.Some? then prior.value else FoodStat(food, 0, 0);
      Some(FoodStat(food, g.total + total, g.problems + problems))
  }

  /** Adding counts in two goes, the first non-empty, is adding them at once. */
  lemma PlusTwice(prior: Option<FoodStat>, food: string, total1: nat, problems1: nat, total2: nat, problems2: nat)
    requires total1 > 0
    ensures Plus(Plus(prior, food, total1, problems1), food, total2, problems2)
            == Plus(prior, food, total1 + total2, problems1 + problems2)
  {
  }

  /** The counts after one entry and then `total` more are the counts after all of them at once. */
  lemma PlusStep(after: Option<FoodStat>, next: Option<FoodStat>, prior: Option<FoodStat>, food: string,
                 here: bool, problem: nat, total: nat, problems: nat, allTotal: nat, allProblems: nat)
    requires after == Plus(next, food, total, problems)
    requires next == if here then Plus(prior, food, 1, problem) else prior
    requires allTotal == (if here then 1 else 0) + total
    requires allProblems == (if here then problem else 0) + problems
    ensures after == Plus(prior, food, allTotal, allProblems)
  {
    if here {
      PlusTwice(prior, food, 1, problem, total, problems);
    }
  }

  /** One iteration changes only the group of the entry's trimmed food, by one entry. */
  lemma StepFind(groups: seq<FoodStat>, e: Entry, food: string)
    ensures Find(Step(groups, e), food)
            == if Trim(e.food) == food && food != []
               then Plus(Find(groups, food), food, 1, if IsProblemType(e.kind) then 1 else 0)
               else Find(groups, food)
  {
    var key := Trim(e.food);
    if key != [] {
      TallyFind(groups, key, IsProblemType(e.kind), food);
      if key == food {
        BumpIsPlus(Find(groups, food), food, IsProblemType(e.kind));
      }
    }
  }

  lemma BumpIsPlus(prior: Option<FoodStat>, food: string, problem: bool)
    ensures Some(Bump(prior, food, problem)) == Plus(prior, food, 1, if problem then 1 else 0)
  {
  }

  /** Adding no entries to the group of `food` leaves it as it is. */
  lemma PlusNothing(groups: seq<FoodStat>, food: string)
    ensures Plus(Find(groups, food), food, 0, 0) == Find(groups, food)
  {
    var prior := Find(groups, food);
    if prior.Some? {
      FindIsMember(groups, food);
      assert prior.value == FoodStat(food, prior.value.total, prior.value.problems);
    }
  }

  /** The group of a non-empty food after the iterations: its prior counts plus the entries with that trimmed food. */
  lemma {:induction false} AccumulateFind(groups: seq<FoodStat>, poops: seq<Entry>, food: string)
    requires food != []
    ensures Find(Accumulate(groups, poops), food)
            == Plus(Find(groups, food), food, Count(poops, HasFood(food)), Count(poops, FoodProblem(food)))
    decreases |poops|
  {
    if poops == [] {
      assert Count(poops, HasFood(food)) == 0 && Count(poops, FoodProblem(food)) == 0;
      assert Accumulate(groups, poops) == groups;
      PlusNothing(groups, food);
    } else {
      var e, rest := poops[0], poops[1..];
      var next := Step(groups, e);
      var prior := Find(groups, food);
      var total, problems := Count(rest, HasFood(food)), Count(rest, FoodProblem(food));
      var here := Trim(e.food) == food;
      var problem := if IsProblemType(e.kind) then 1 else 0;
      assert Find(Accumulate(groups, poops), food) == Plus(Find(next, food), food, total, problems) by {
        assert Accumulate(groups, poops) == Accumulate(next, rest);
        AccumulateFind(next, rest, food);
      }
      assert Find(next, food) == if here then Plus(prior, food, 1, problem) else prior by {
        StepFind(groups, e, food);
      }
      CountFront(poops, HasFood(food));
      CountFront(poops, FoodProblem(food));
      PlusStep(Find(Accumulate(groups, poops), food), Find(next, food), prior, food, here, problem, total, problems,
               Count(poops, HasFood(food)), Count(poops, FoodProblem(food)));
    }
  }

  /** The group of any non-empty food counts exactly the entries with that trimmed food, and exists iff there is one. */
  lemma FoodGroupsFind(poops: seq<Entry>, food: string)
    requires food != []
    ensures Find(FoodGroups(poops), food)
            == if Count(poops, HasFood(food)) == 0 then None
               else Some(FoodStat(food, Count(poops, HasFood(food)), Count(poops, FoodProblem(food))))
  {
    AccumulateFind([], poops, food);
  }

  lemma {:induction false} FindDistinct(groups: seq<FoodStat>, i: nat)
    requires DistinctFoods(groups) && i < |groups|
    ensures Find(groups, groups[i].food) == Some(groups[i])
    decreases i
  {
    if i > 0 {
      FindDistinct(groups[1..], i - 1);
    }
  }

  lemma {:induction false} FindIsMember(groups: seq<FoodStat>, food: string)
    requires Find(groups, food).Some?
    ensures Find(groups, food).value in groups && Find(groups, food).value.food == food
    decreases |groups|
  {
    if groups[0].food != food {
      FindIsMember(groups[1..], food);
    }
  }

  /**
   * What the groups mean: each counts exactly the entries with its trimmed food and the problem
   * entries among them, and every entry with a non-empty trimmed food has its group.
   */
  lemma FoodGroupsCount(poops: seq<Entry>)
    ensures forall g :: g in FoodGroups(poops) ==>
      g.total == Count(poops, HasFood(g.food)) && g.problems == Count(poops, FoodProblem(g.food))
    ensures forall e :: e in poops && Trim(e.food) != [] ==> Trim(e.food) in FoodNames(FoodGroups(poops))
  {
    var r := FoodGroups(poops);
    forall g | g in r
      ensures g.total == Count(poops, HasFood(g.food)) && g.problems == Count(poops, FoodProblem(g.food))
    {
      var i :| 0 <= i < |r| && r[i] == g;
      FindDistinct(r, i);
      FoodGroupsFind(poops, g.food);
    }
    forall e | e in poops && Trim(e.food) != []
      ensures Trim(e.food) in FoodNames(r)
    {
      CountZero(poops, HasFood(Trim(e.food)));
      FoodGroupsFind(poops, Trim(e.food));
      FindIsMember(r, Trim(e.food));
    }
  }

  /**
   * The `forEach` of `generateFoodCorrelationChart`: look the trimmed food up, create its group
   * at zero when missing, then increment its total and, for a problem entry, its problems.
   */
  method CountFoods(poops: seq<Entry>) returns (groups: seq<FoodStat>)
    ensures groups == FoodGroups(poops)
  {
    groups := [];
    var i := 0;
    while i < |poops|
      invariant 0 <= i <= |poops|
      invariant Accumulate(groups, poops[i..]) == FoodGroups(poops)
    {
      var p := poops[i];
      assert Accumulate(groups, poops[i..]) == Accumulate(Step(groups, p), poops[i + 1..]) by {
        assert poops[i..][0] == p && poops[i..][1..] == poops[i + 1..];
      }
      var food := Trim(p.food);
      if food != [] {
        groups := Record(groups, food, IsProblemType(p.kind));
      }
      i := i + 1;
    }
  }

  /**
   * One step of the loop: find the group of `food`, create it at zero when missing, then
   * increment its total and, for a problem entry, its problems.
   */
  method Record(groups: seq<FoodStat>, food: string, problem: bool) returns (r: seq<FoodStat>)
    ensures r == Tally(groups, food, problem)
  {
    var j := IndexOfFood(groups, food);
    TallyAt(groups, food, problem, j);
    r := groups;
    if j == |r| {
      r := r + [FoodStat(food, 0, 0)];
    }
    var g := r[j];
    r := r[j := FoodStat(food, g.total + 1, if problem then g.problems + 1 else g.problems)];
    if j == |groups| {
      assert r == groups + [Bump(None, food, problem)];
    }
  }

  /** The position of the group of `food`, or `|groups|` when there is none. */
  method IndexOfFood(groups: seq<FoodStat>, food: string) returns (j: nat)
    ensures j <= |groups|
    ensures forall k :: 0 <= k < j ==> groups[k].food != food
    ensures j < |groups| ==> groups[j].food == food
  {
    j := 0;
    while j < |groups| && groups[j].food != food
      invariant j <= |groups|
      invariant forall k :: 0 <= k < j ==> groups[k].food != food
    {
      j := j + 1;
    }
  }

  /** `Tally` is the lookup-then-increment the loop performs at the index the lookup stops at. */
  lemma TallyAt(groups: seq<FoodStat>, food: string, problem: bool, j: nat)
    requires j <= |groups|
    requires forall k :: 0 <= k < j ==> groups[k].food != food
    requires j < |groups| ==> groups[j].food == food
    ensures j == |groups| ==> Tally(groups, food, problem) == groups + [Bump(None, food, problem)]
    ensures j < |groups| ==> Tally(groups, food, problem) == groups[j := Bump(Some(groups[j]), food, problem)]
  {
    if j == |groups| {
      TallyAppends(groups, food, problem);
    } else {
      TallyBumps(groups, food, problem, j);
    }
  }

  lemma {:induction false} TallyAppends(groups: seq<FoodStat>, food: string, problem: bool)
    requires forall k :: 0 <= k < |groups| ==> groups[k].food != food
    ensures Tally(groups, food, problem) == groups + [Bump(None, food, problem)]
    decreases |groups|
  {
    if groups != [] {
      var rest := groups[1..];
      assert forall k :: 0 <= k < |rest| ==> rest[k].food != food by {
        forall k | 0 <= k < |rest| ensures rest[k].food != food {
          assert rest[k] == groups[k + 1];
        }
      }
      TallyAppends(rest, food, problem);
      assert Tally(groups, food, problem) == [groups[0]] + Tally(rest, food, problem);
      ConsAppend(groups[0], rest, Bump(None, food, problem), groups);
    }
  }

  lemma ConsAppend<T>(x: T, rest: seq<T>, y: T, s: seq<T>)
    requires s == [x] + rest
    ensures [x] + (rest + [y]) == s + [y]
  {
  }

  lemma {:induction false} TallyBumps(groups: seq<FoodStat>, food: string, problem: bool, j: nat)
    requires j < |groups| && groups[j].food == food
    requires forall k :: 0 <= k < j ==> groups[k].food != food
    ensures Tally(groups, food, problem) == groups[j := Bump(Some(groups[j]), food, problem)]
    decreases j
  {
    if j > 0 {
      var bumped := Bump(Some(groups[j]), food, problem);
      TallyBumps(groups[1..], food, problem, j - 1);
      assert groups[j := bumped] == [groups[0]] + groups[1..][j - 1 := bumped];
    }
  }

  /** The comparator `(a, b) => b.total - a.total` as "may come before". */
  const MostFirst: (FoodStat, FoodStat) -> bool := (a: FoodStat, b: FoodStat) => a.total >= b.total

  lemma MostFirstIsOrder()
    ensures Total(MostFirst) && Transitive(MostFirst)
  {
  }

  /**
   * `.sort((a, b) => b.total - a.total).slice(0, 5)`: at most five groups, by non-increasing
   * total, all taken from `groups`, and any group left out has no larger total than the fifth.
   */
  function TopFoods(groups: seq<FoodStat>): (r: seq<FoodStat>)
    ensures |r| == if |groups| < TopCount then |groups| else TopCount
    ensures forall i, j :: 0 <= i < j < |r| ==> r[i].total >= r[j].total
    ensures forall g :: g in r ==> g in groups
    ensures forall g :: g in groups ==> g in r || (|r| == TopCount && g.total <= r[TopCount - 1].total)
    ensures DistinctFoods(groups) ==> DistinctFoods(r)
  {
    var sorted := Sort(groups, MostFirst);
    var r := if |sorted| < TopCount then sorted else sorted[..TopCount];
    SortedLength(groups);
    TopIsSorted(groups, r);
    TopFromGroups(groups, r);
    TopKeepsLargest(groups, r);
    TopDistinct(groups, r);
    r
  }

  lemma SortedLength(groups: seq<FoodStat>)
    ensures |Sort(groups, MostFirst)| == |groups|
  {
    assert |multiset(Sort(groups, MostFirst))| == |multiset(groups)|;
  }

  lemma TopIsSorted(groups: seq<FoodStat>, r: seq<FoodStat>)
    requires r <= Sort(groups, MostFirst)
    ensures forall i, j :: 0 <= i < j < |r| ==> r[i].total >= r[j].total
  {
    MostFirstIsOrder();
    SortSorted(groups, MostFirst);
  }

  lemma TopFromGroups(groups: seq<FoodStat>, r: seq<FoodStat>)
    requires r <= Sort(groups, MostFirst)
    ensures forall g :: g in r ==> g in groups
  {
    var sorted := Sort(groups, MostFirst);
    forall g | g in r ensures g in groups {
      assert g in multiset(sorted);
    }
  }

  lemma TopKeepsLargest(groups: seq<FoodStat>, r: seq<FoodStat>)
    requires r == var sorted := Sort(groups, MostFirst); if |sorted| < TopCount then sorted else sorted[..TopCount]
    ensures forall g :: g in groups ==> g in r || (|r| == TopCount && g.total <= r[TopCount - 1].total)
  {
    var sorted := Sort(groups, MostFirst);
    MostFirstIsOrder();
    SortSorted(groups, MostFirst);
    forall g | g in groups ensures g in r || (|r| == TopCount && g.total <= r[TopCount - 1].total) {
      assert g in multiset(sorted);
      var k :| 0 <= k < |sorted| && sorted[k] == g;
      if k >= TopCount {
        assert MostFirst(sorted[TopCount - 1], sorted[k]);
      } else {
        assert r[k] == g;
      }
    }
  }

  lemma TopDistinct(groups: seq<FoodStat>, r: seq<FoodStat>)
    requires r <= Sort(groups, MostFirst)
    ensures DistinctFoods(groups) ==> DistinctFoods(r)
  {
    var sorted := Sort(groups, MostFirst);
    if DistinctFoods(groups) {
      SortNoDuplicates(groups, MostFirst);
      forall i, j | 0 <= i < j < |r| ensures r[i].food != r[j].food {
        assert r[i] in multiset(groups) && r[j] in multiset(groups);
        var a :| 0 <= a < |groups| && groups[a] == r[i];
        var b :| 0 <= b < |groups| && groups[b] == r[j];
        assert sorted[i] != sorted[j];
      }
    }
  }

  /**
   * The food correlation data: the (at most five) most frequent foods with their totals and
   * problem counts, by non-increasing total. Each group counts exactly the entries with its
   * trimmed food, at least one, with at most as many problems as entries.
   */
  method FoodCorrelation(poops: seq<Entry>) returns (top: seq<FoodStat>)
    ensures top == TopFoods(FoodGroups(poops))
    ensures |top| <= TopCount
    ensures forall i, j :: 0 <= i < j < |top| ==> top[i].total >= top[j].total
    ensures WellFormed(top) && DistinctFoods(top)
    ensures forall g :: g in top ==>
      g.total == Count(poops, HasFood(g.food)) && g.problems == Count(poops, FoodProblem(g.food))
  {
    var groups := CountFoods(poops);
    FoodGroupsCount(poops);
    top := TopFoods(groups);
  }

  /**
   * The names `Object.prototype` already holds. As written, `foodStats[food]` finds the inherited
   * member (a truthy value) for such a food, so no own group is created and the increments land
   * on the inherited member: the food never reaches `Object.entries(foodStats)`.
   */
  const InheritedNames: set<string> := {
    "constructor", "hasOwnProperty", "isPrototypeOf", "propertyIsEnumerable", "toLocaleString",
    "toString", "valueOf", "__proto__", "__defineGetter__", "__defineSetter__",
    "__lookupGetter__", "__lookupSetter__"}

  const OwnKey: Entry -> bool := (e: Entry) => Trim(e.food) !in InheritedNames

  /** `foodStats` as the code builds it: entries whose food is an inherited name are lost. */
  function FoodGroupsAsWritten(poops: seq<Entry>): (r: seq<FoodStat>)
    ensures WellFormed(r) && DistinctFoods(r)
  {
    FoodGroups(Select(poops, OwnKey))
  }

  /** A single entry with food "toString" forms a group, but the code as written reports no food at all. */
  lemma InheritedFoodNameIsLost()
    ensures var e := Entry(1, 0.0, 0.0, 0, "healthy", "", "", "", "toString", "", "");
            FoodGroupsAsWritten([e]) == [] && FoodGroups([e]) == [FoodStat("toString", 1, 0)]
  {
    var food := "toString";
    var e := Entry(1, 0.0, 0.0, 0, "healthy", "", "", "", food, "", "");
    assert IsTrimmed(food) by {
      assert !IsSpace(food[0]) && !IsSpace(food[|food| - 1]);
    }
    TrimmedIsFixed(food);
    assert !OwnKey(e) by {
      assert food in InheritedNames;
    }
    assert Select([e], OwnKey) == [] by {
      assert [e][1..] == [];
    }
    assert FoodGroups([e]) == Tally([], food, false) by {
      assert Accumulate([], [e]) == Accumulate(Step([], e), []);
      assert !IsProblemType(e.kind);
    }
  }
}
