/**
 * The state of a `PoopTracker` that its data operations change: the log of entries, the food
 * history and saved notes offered as suggestions, and the position and time captured when the
 * user starts logging an entry. The clock (`Date.now()`) and the chosen position are passed in.
 */
module Tracker {
  import opened Seqs
  import opened Text
  import opened Sorting
  import opened Poops
  import opened Foods

  /** A suggestion list: trimmed, non-empty strings without repetitions. */
  predicate History(h: seq<string>) {
    (forall i :: 0 <= i < |h| ==> h[i] != [] && IsTrimmed(h[i])) && NoDuplicates(h)
  }

  /**
   * A list after offering it `value`: `value` is pushed when it is non-empty and not yet in it.
   * The list only grows, by at most one element, which can only be `value`.
   */
  function Remember(h: seq<string>, value: string): (r: seq<string>)
    ensures h <= r && |r| <= |h| + 1
    ensures value != [] ==> value in r
    ensures forall x :: x in r ==> x in h || x == value
  {
    if value != [] && value !in h then h + [value] else h
  }

  /** Offering a trimmed value keeps a suggestion list well formed. */
  lemma RememberKeepsHistory(h: seq<string>, value: string)
    requires History(h) && IsTrimmed(value)
    ensures History(Remember(h, value))
  {
    var r := Remember(h, value);
    if r != h {
      forall i, j | 0 <= i < j < |r| ensures r[i] != r[j] {
        if j == |h| {
          assert r[i] == h[i];
        }
      }
    }
  }

  /** Offering the same value twice is offering it once. */
  lemma RememberIdempotent(h: seq<string>, value: string)
    ensures Remember(Remember(h, value), value) == Remember(h, value)
  {
    if value != [] && value !in h {
      assert value in h + [value];
    }
  }

  /**
   * When the food history holds the trimmed food of every entry, it holds the food of every
   * group of the food correlation chart.
   */
  lemma FoodGroupsInHistory(poops: seq<Entry>, foodHistory: seq<string>)
    requires forall e :: e in poops && Trim(e.food) != [] ==> Trim(e.food) in foodHistory
    ensures forall g :: g in FoodGroups(poops) ==> g.food in foodHistory
  {
    FoodGroupsCount(poops);
    forall g | g in FoodGroups(poops) ensures g.food in foodHistory {
      CountZero(poops, HasFood(g.food));
      var e :| e in poops && HasFood(g.food)(e);
    }
  }

  class Tracker {
    var poops: seq<Entry>
    var foodHistory: seq<string>
    var savedNotes: seq<string>
    /** `pendingPoopData`: `None` when no entry is being logged. */
    var pending: Option<Pending>

    /**
     * Both suggestion lists are well formed, and the trimmed food of every logged entry, when
     * non-empty, is in the food history.
     */
    ghost predicate Valid()
      reads this
    {
      History(foodHistory) && History(savedNotes)
      && forall e :: e in poops && Trim(e.food) != [] ==> Trim(e.food) in foodHistory
    }

    /** A new tracker: no entries, no suggestions, nothing pending. */
    constructor ()
      ensures Valid()
      ensures poops == [] && foodHistory == [] && savedNotes == [] && pending == None
    {
      poops := [];
      foodHistory := [];
      savedNotes := [];
      pending := None;
    }

    /**
     * `addPoop`: without a known position nothing happens; otherwise the (already chosen) free
     * position and the current time are kept as the pending entry.
     */
    method AddPoop(position: Option<(real, real)>, now: int)
      modifies this
      requires Valid()
      ensures Valid()
      ensures pending == if position.None? then old(pending) else Some(Pending(position.value.0, position.value.1, now))
      ensures poops == old(poops) && foodHistory == old(foodHistory) && savedNotes == old(savedNotes)
    {
      if position.Some? {
        pending := Some(Pending(position.value.0, position.value.1, now));
      }
    }

    /**
     * `savePoopWithDetails`: without pending data nothing changes. Otherwise exactly one entry
     * is appended, made of the id `now`, the pending position and time, and the details; its
     * trimmed food is offered to the food history; and the pending data is cleared.
     */
    method SavePoopWithDetails(details: Details, now: int)
      modifies this
      requires Valid()
      ensures Valid()
      ensures old(pending).None? ==> poops == old(poops) && foodHistory == old(foodHistory)
      ensures old(pending).Some? ==>
        poops == old(poops) + [NewEntry(now, old(pending).value, details)]
        && foodHistory == Remember(old(foodHistory), Trim(details.food))
      ensures pending == None && savedNotes == old(savedNotes)
    {
      if pending.None? {
        return;
      }
      var entry := NewEntry(now, pending.value, details);
      poops := poops + [entry];
      var food := Trim(details.food);
      RememberKeepsHistory(foodHistory, food);
      foodHistory := Remember(foodHistory, food);
      pending := None;
    }

    /** `deletePoop`: the entries with another id stay, in order; nothing else changes. */
    method DeletePoop(id: int)
      modifies this
      requires Valid()
      ensures Valid()
      ensures poops == Without(old(poops), id)
      ensures foodHistory == old(foodHistory) && savedNotes == old(savedNotes) && pending == old(pending)
    {
      poops := Without(poops, id);
    }

    /**
     * `clearAllPoops`: when there are entries and the user confirms, the log is emptied;
     * otherwise it is kept. The suggestion lists survive either way.
     */
    method ClearAllPoops(confirmed: bool)
      modifies this
      requires Valid()
      ensures Valid()
      ensures poops == if confirmed then [] else old(poops)
      ensures foodHistory == old(foodHistory) && savedNotes == old(savedNotes) && pending == old(pending)
    {
      if |poops| == 0 {
        return;
      }
      if confirmed {
        poops := [];
      }
    }

    /**
     * The submit handler of the details form: the trimmed note is offered to the saved notes
     * when the user ticked "save note", and the details, with food and notes trimmed, are saved.
     */
    method SubmitDetails(form: Details, saveNote: bool, now: int)
      modifies this
      requires Valid()
      ensures Valid()
      ensures savedNotes == if saveNote then Remember(old(savedNotes), Trim(form.notes)) else old(savedNotes)
      ensures old(pending).None? ==> poops == old(poops) && foodHistory == old(foodHistory)
      ensures old(pending).Some? ==>
        poops == old(poops) + [NewEntry(now, old(pending).value, form.(food := Trim(form.food), notes := Trim(form.notes)))]
        && foodHistory == Remember(old(foodHistory), Trim(form.food))
      ensures pending == None
    {
      var note := Trim(form.notes);
      if saveNote && note != [] && note !in savedNotes {
        RememberKeepsHistory(savedNotes, note);
        savedNotes := savedNotes + [note];
      }
      var details := form.(food := Trim(form.food), notes := note);
      TrimIdempotent(form.food);
      SavePoopWithDetails(details, now);
    }
  }
}
