/**
 * The logged entries of the tracker, local time as integer milliseconds and day numbers, the
 * classification of entry types, and the marker icon chosen for each type.
 */
module Poops {
  import opened Seqs

  /** Milliseconds in a day (`1000 * 60 * 60 * 24`). */
  const MsPerDay: int := 86_400_000

  /** The local calendar day of a local-time instant (days counted from the epoch). */
  function DayOf(t: int): int {
    t / MsPerDay
  }

  /** Local midnight at the start of day `d`. */
  function DayStart(d: int): int {
    d * MsPerDay
  }

  /** An instant lies on or after the midnight of day `d` exactly when its day is `d` or later. */
  lemma AtOrAfterDayStart(t: int, d: int)
    ensures t >= DayStart(d) <==> DayOf(t) >= d
  {
    var q := DayOf(t);
    assert DayStart(q) <= t < DayStart(q) + MsPerDay;
    if q >= d {
      assert DayStart(q) - DayStart(d) == (q - d) * MsPerDay;
    } else {
      assert DayStart(d) - DayStart(q) == (d - q) * MsPerDay;
    }
  }

  /**
   * One logged event. `kind` is the source's `type` field (`type` is a Dafny keyword); the
   * form fields `size`, `color`, `smell`, `food`, `hoursSinceMeal` and `notes` are the strings
   * the form produced; `timestamp` is local-time milliseconds.
   */
  datatype Entry = Entry(
    id: int, lat: real, lng: real, timestamp: int,
    kind: string, size: string, color: string, smell: string,
    food: string, hoursSinceMeal: string, notes: string)

  /** The position and time captured when the user starts logging (`pendingPoopData`). */
  datatype Pending = Pending(lat: real, lng: real, timestamp: int)

  /** The fields of the details form passed to `savePoopWithDetails`. */
  datatype Details = Details(
    kind: string, size: string, color: string, smell: string,
    food: string, hoursSinceMeal: string, notes: string)

  /** The pending part of an entry: its position and time. */
  function PendingOf(e: Entry): Pending {
    Pending(e.lat, e.lng, e.timestamp)
  }

  /** The form part of an entry. */
  function DetailsOf(e: Entry): Details {
    Details(e.kind, e.size, e.color, e.smell, e.food, e.hoursSinceMeal, e.notes)
  }

  /**
   * `{ id, ...pendingPoopData, ...details }`: the details carry none of the pending keys, so the
   * entry keeps the id, the whole pending data and the whole details, and nothing else.
   */
  function NewEntry(id: int, p: Pending, d: Details): (e: Entry)
    ensures e.id == id && PendingOf(e) == p && DetailsOf(e) == d
  {
    Entry(id, p.lat, p.lng, p.timestamp, d.kind, d.size, d.color, d.smell, d.food, d.hoursSinceMeal, d.notes)
  }

  /** Every entry is the one built from its id, its pending part and its form part. */
  lemma EntryFromParts(e: Entry)
    ensures NewEntry(e.id, PendingOf(e), DetailsOf(e)) == e
  {
  }

  /** The six types the details form offers, in the order of the type chart. */
  const KnownTypes: seq<string> := ["healthy", "soft", "diarrhea", "hard", "blood", "mucus"]

  /** The types counted as a health problem: `['diarrhea', 'blood', 'mucus'].includes(type)`. */
  predicate IsProblemType(kind: string) {
    kind in ["diarrhea", "blood", "mucus"]
  }

  function OfType(kind: string): Entry -> bool {
    (e: Entry) => e.kind == kind
  }

  const Healthy: Entry -> bool := OfType("healthy")
  const Problem: Entry -> bool := (e: Entry) => IsProblemType(e.kind)

  function HasId(id: int): Entry -> bool {
    (e: Entry) => e.id == id
  }

  function NotId(id: int): Entry -> bool {
    (e: Entry) => e.id != id
  }

  /** The log after `deletePoop(id)`: `poops.filter(p => p.id !== id)`. */
  function Without(poops: seq<Entry>, id: int): (r: seq<Entry>)
    ensures IsSubsequence(r, poops)
    ensures forall e :: e in r <==> e in poops && e.id != id
    ensures |r| == |poops| - Count(poops, HasId(id))
    ensures (forall e :: e in poops ==> e.id != id) ==> r == poops
  {
    SelectIsSubsequence(poops, NotId(id));
    CountsSplit(poops, id);
    if forall e :: e in poops ==> e.id != id then
      SelectAll(poops, NotId(id));
      Select(poops, NotId(id))
    else
      Select(poops, NotId(id))
  }

  lemma {:induction false} CountsSplit(poops: seq<Entry>, id: int)
    ensures Count(poops, HasId(id)) + Count(poops, NotId(id)) == |poops|
    decreases |poops|
  {
    if poops != [] {
      CountsSplit(poops[1..], id);
    }
  }

  /** Logging an entry with a fresh id and then deleting that id gives back the old log. */
  lemma DeleteUndoesAppend(poops: seq<Entry>, e: Entry)
    requires forall x :: x in poops ==> x.id != e.id
    ensures Without(poops + [e], e.id) == poops
  {
    SelectAppend(poops, [e], NotId(e.id));
    SelectAll(poops, NotId(e.id));
    assert Select([e], NotId(e.id)) == [];
  }

  /** Deleting the same id twice is deleting it once. */
  lemma DeleteIdempotent(poops: seq<Entry>, id: int)
    ensures Without(Without(poops, id), id) == Without(poops, id)
  {
  }

  /** The icon classes of the map markers. */
  const IconClasses: set<string> := {"poop-happy", "poop-sad", "poop-hard", "poop-sick"}

  /**
   * `getPoopIcon`: the marker icon for an entry type. Every type gets an icon; the happy,
   * hard and sick icons belong to exactly the types named for them, and any other type,
   * known or not, gets the sad one.
   */
  function Icon(kind: string): (icon: string)
    ensures icon in IconClasses
    ensures icon == "poop-happy" <==> kind == "healthy"
    ensures icon == "poop-hard" <==> kind == "hard"
    ensures icon == "poop-sick" <==> kind == "blood" || kind == "mucus"
    ensures icon == "poop-sick" ==> IsProblemType(kind)
    ensures IsProblemType(kind) ==> icon in {"poop-sad", "poop-sick"}
  {
    if kind == "healthy" then "poop-happy"
    else if kind == "soft" || kind == "diarrhea" then "poop-sad"
    else if kind == "hard" then "poop-hard"
    else if kind == "blood" || kind == "mucus" then "poop-sick"
    else "poop-sad"
  }
}
