/** The staff view of a restaurant's waitlist: an initial load of the
    waiting entries, then realtime changes on the `waitlist` table folded
    into the list (an insert appends, an update removes the entry, since
    an update only ever seats a guest). */
module RestaurantWaitlist {
  import opened Wrappers

  /** A waiting party; `created_at` only feeds rendering and is left out. */
  datatype Entry = Entry(id: string, name: string, email: string, phone: string, guests: int)

  /** A realtime change. The id of the old row is `None` when the payload
      does not carry it. */
  datatype Change =
    | Inserted(entry: Entry)
    | Updated(oldId: Option<string>)
    | Deleted(oldId: Option<string>)

  datatype View = View(entries: seq<Entry>, loading: bool, error: Option<string>)

  const Initial := View([], true, None)

  /** `current.filter(item => item.id !== oldId)`; an absent id equals no
      entry's id. */
  function Remove(entries: seq<Entry>, oldId: Option<string>): (r: seq<Entry>)
    ensures |r| <= |entries|
    ensures forall e :: e in r <==> e in entries && Some(e.id) != oldId
  {
    if |entries| == 0 then []
    else (if Some(entries[0].id) != oldId then [entries[0]] else []) + Remove(entries[1..], oldId)
  }

  /** The realtime handler. An insert appends its entry after the
      existing ones; an update removes every entry with the old id, keeping
      all others; a delete changes nothing. */
  function Apply(entries: seq<Entry>, change: Change): (r: seq<Entry>)
    ensures change.Inserted? ==>
      |r| == |entries| + 1 && r[..|entries|] == entries && r[|entries|] == change.entry
    ensures change.Updated? ==>
      && (forall e :: e in r <==> e in entries && Some(e.id) != change.oldId)
      && (forall i :: 0 <= i < |r| ==> Some(r[i].id) != change.oldId)
    ensures change.Deleted? ==> r == entries
  {
    match change
    case Inserted(e) => entries + [e]
    case Updated(oldId) =>
      var kept := Remove(entries, oldId);
      assert forall i :: 0 <= i < |kept| ==> kept[i] in kept;
      kept
    case Deleted(_) => entries
  }

  /** The initial load: `data || []` on success, the error message on
      failure; loading ends either way, and a failure keeps the list. */
  function Load(v: View, result: Result<Option<seq<Entry>>, string>): (r: View)
    ensures !r.loading
    ensures result == Success(None) ==> r.entries == []
    ensures result.Success? && result.value.Some? ==> r.entries == result.value.value
    ensures result.Success? ==> r.error == v.error
    ensures result.Failure? ==> r.entries == v.entries && r.error == Some(result.error)
  {
    match result
    case Success(data) => v.(entries := data.GetOr([]), loading := false)
    case Failure(msg) => v.(error := Some(msg), loading := false)
  }

  /** Marking a party seated: only a failed update shows; the list itself
      changes through the realtime update that follows. */
  function Seated(v: View, failure: Option<string>): (r: View)
    ensures r.entries == v.entries && r.loading == v.loading
    ensures r.error == (if failure.Some? then failure else v.error)
  {
    if failure.Some? then v.(error := failure) else v
  }

  /** The word after the party size: "guest" for a party of exactly one,
      "guests" for any other size. */
  function GuestLabel(guests: int): string {
    if guests == 1 then "guest" else "guests"
  }

  // ---------------------------------------------------------------------
  // Properties
  // ---------------------------------------------------------------------

  /** Removing from two lists one after the other removes from each, so
      the survivors keep their order. */
  lemma {:induction false} RemoveAppend(a: seq<Entry>, b: seq<Entry>, oldId: Option<string>)
    ensures Remove(a + b, oldId) == Remove(a, oldId) + Remove(b, oldId)
  {
    if |a| == 0 {
      assert a + b == b;
    } else {
      var x := a[0];
      var t := a[1..];
      var head := if Some(x.id) != oldId then [x] else [];
      assert a + b == [x] + (t + b);
      assert a == [x] + t;
      RemoveCons(x, t + b, oldId);
      RemoveCons(x, t, oldId);
      RemoveAppend(t, b, oldId);
      Reassociate(head, Remove(t, oldId), Remove(b, oldId));
    }
  }

  /** Concatenation regroups; stated apart so that the removal facts in
      scope above need not be matched against it. */
  lemma Reassociate<T>(p: seq<T>, q: seq<T>, r: seq<T>)
    ensures p + (q + r) == (p + q) + r
  {
  }

  lemma RemoveCons(x: Entry, s: seq<Entry>, oldId: Option<string>)
    ensures Remove([x] + s, oldId) == (if Some(x.id) != oldId then [x] else []) + Remove(s, oldId)
  {
    assert ([x] + s)[0] == x && ([x] + s)[1..] == s;
  }

  /** An update for an id no entry has leaves the list as it was. */
  lemma {:induction false} RemoveAbsent(entries: seq<Entry>, oldId: Option<string>)
    requires forall i :: 0 <= i < |entries| ==> Some(entries[i].id) != oldId
    ensures Remove(entries, oldId) == entries
  {
    if |entries| > 0 {
      RemoveAbsent(entries[1..], oldId);
      assert entries == [entries[0]] + entries[1..];
    }
  }

  /** A payload without the old id removes nothing. */
  lemma UpdateWithoutId(entries: seq<Entry>)
    ensures Apply(entries, Updated(None)) == entries
  {
    RemoveAbsent(entries, None);
  }

  /** A second update for the same id changes nothing more. */
  lemma RemoveIdempotent(entries: seq<Entry>, oldId: Option<string>)
    ensures Remove(Remove(entries, oldId), oldId) == Remove(entries, oldId)
  {
    var r := Remove(entries, oldId);
    assert forall i :: 0 <= i < |r| ==> r[i] in r;
    RemoveAbsent(r, oldId);
  }

  /** Seating a party that has just joined undoes its insert: the list is
      as if it had never joined, apart from earlier entries with the same
      id. */
  lemma InsertThenUpdate(entries: seq<Entry>, e: Entry)
    ensures Apply(Apply(entries, Inserted(e)), Updated(Some(e.id))) == Remove(entries, Some(e.id))
  {
    RemoveAppend(entries, [e], Some(e.id));
    assert Remove([e], Some(e.id)) == [] by {
      assert [e][1..] == [];
    }
  }

  /** Loading the same result again changes nothing more. */
  lemma LoadIdempotent(v: View, result: Result<Option<seq<Entry>>, string>)
    ensures Load(Load(v, result), result) == Load(v, result)
  {
  }

  /** A party is seated in two steps: the update call leaves the list
      alone, and the realtime update that follows removes exactly the
      entries with that party's id. */
  lemma SeatThenUpdate(v: View, failure: Option<string>, id: string)
    ensures forall e :: e in Apply(Seated(v, failure).entries, Updated(Some(id))) <==> e in v.entries && e.id != id
  {
  }
}
