/** The notification bell: realtime inserts of orders and bookings become
    notifications at the head of a feed capped at 50 entries and light
    the unread indicator; pressing the bell opens the list and clears the
    indicator, closing the list only hides it. */
module NotificationBell {
  import opened Wrappers
  import opened Json
  import Text

  /** The number of notifications the feed keeps. */
  const Capacity: nat := 50

  datatype Kind = OrderNote | BookingNote

  /** A notification; its creation time is left out. */
  datatype Notification = Notification(id: Field, kind: Kind, title: string, subtitle: string)

  datatype Bell = Bell(unread: bool, modalVisible: bool, items: seq<Notification>)

  const Initial := Bell(false, false, [])

  /** What reaches the component: a realtime insert on `orders` or
      `bookings` carrying the new row, or a press on the bell or on the
      close button of the list. */
  datatype Event = OrderInserted(row: Value) | BookingInserted(row: Value) | Press | Close

  function OrderNotification(row: Value): Notification {
    var r := Some(row);
    Notification(Get(r, "id"), OrderNote, "New Order", "Order #" + Display(Get(r, "number")))
  }

  function BookingNotification(row: Value): Notification {
    var r := Some(row);
    Notification(Get(r, "id"), BookingNote, "New Reservation",
      Display(Get(r, "number_of_people")) + " people at " + Display(Get(r, "time")))
  }

  /** The first `k` elements of `s` (all of them when there are fewer). */
  function Take<T>(s: seq<T>, k: nat): (r: seq<T>)
    ensures |r| <= k && r <= s
    ensures |s| <= k ==> r == s
  {
    if |s| <= k then s else s[..k]
  }

  /** `[n, ...items].slice(0, 50)`. */
  function Add(items: seq<Notification>, n: Notification): (r: seq<Notification>)
    ensures 1 <= |r| <= Capacity && r[0] == n
    ensures r[1..] == Take(items, Capacity - 1)
    ensures |items| < Capacity ==> |r| == |items| + 1
    ensures |items| >= Capacity ==> |r| == Capacity
  {
    Take([n] + items, Capacity)
  }

  /** The notification an event brings, if any. */
  function Arrival(e: Event): Option<Notification> {
    match e
    case OrderInserted(row) => Some(OrderNotification(row))
    case BookingInserted(row) => Some(BookingNotification(row))
    case _ => None
  }

  /** An insert lights the indicator and puts its notification first,
      leaving the list open or closed; a press opens the list and clears
      the indicator; closing only hides the list. No event other than an
      insert touches the feed. */
  function Step(b: Bell, e: Event): (r: Bell)
    ensures Arrival(e).Some? ==>
      r.unread && r.modalVisible == b.modalVisible && r.items == Add(b.items, Arrival(e).value)
    ensures Arrival(e).None? ==> r.items == b.items
    ensures e.Press? ==> r.modalVisible && !r.unread
    ensures e.Close? ==> !r.modalVisible && r.unread == b.unread
  {
    match e
    case OrderInserted(row) => b.(unread := true, items := Add(b.items, OrderNotification(row)))
    case BookingInserted(row) => b.(unread := true, items := Add(b.items, BookingNotification(row)))
    case Press => b.(modalVisible := true, unread := false)
    case Close => b.(modalVisible := false)
  }

  /** The state after a sequence of events, oldest first. The feed never
      grows past its capacity, and events other than inserts neither touch
      the feed nor light the indicator. */
  function Run(b: Bell, events: seq<Event>): (r: Bell)
    ensures |b.items| <= Capacity ==> |r.items| <= Capacity
    ensures (forall i :: 0 <= i < |events| ==> Arrival(events[i]).None?) ==>
      r.items == b.items && (r.unread ==> b.unread)
  {
    if |events| == 0 then b else Step(Run(b, events[..|events| - 1]), events[|events| - 1])
  }

  /** Every notification that arrived, newest first, without any cap. */
  function Newest(events: seq<Event>): seq<Notification> {
    if |events| == 0 then []
    else
      var e := events[|events| - 1];
      (if Arrival(e).Some? then [Arrival(e).value] else []) + Newest(events[..|events| - 1])
  }

  // ---------------------------------------------------------------------
  // Properties
  // ---------------------------------------------------------------------

  /** Keeping the first `k` of a list with one more element in front is
      the same as first keeping `k - 1` of the list. */
  lemma TakeCons<T>(x: T, s: seq<T>, k: nat)
    requires k >= 1
    ensures Take([x] + Take(s, k - 1), k) == Take([x] + s, k)
  {
    if |s| > k - 1 {
      assert Take([x] + s, k) == [x] + s[..k - 1];
    }
  }

  lemma TakeTake<T>(s: seq<T>, j: nat, k: nat)
    requires j <= k
    ensures Take(Take(s, k), j) == Take(s, j)
  {
  }

  /** The feed is always the 50 most recent notifications, newest first,
      whatever presses and closes happened in between. */
  lemma {:induction false} FeedIsNewest(events: seq<Event>)
    ensures Run(Initial, events).items == Take(Newest(events), Capacity)
  {
    if |events| > 0 {
      var prefix := events[..|events| - 1];
      var e := events[|events| - 1];
      FeedIsNewest(prefix);
      var before := Run(Initial, prefix).items;
      if Arrival(e).Some? {
        var n := Arrival(e).value;
        assert Run(Initial, events).items == Add(before, n);
        TakeTake(Newest(prefix), Capacity - 1, Capacity);
        TakeCons(n, Newest(prefix), Capacity);
      }
    }
  }

  /** The event at `i` is an insert and no press follows it. */
  ghost predicate InsertSincePress(events: seq<Event>, i: int) {
    0 <= i < |events| && Arrival(events[i]).Some? &&
    forall j :: i < j < |events| ==> !events[j].Press?
  }

  /** An insert at `i` that no press follows in the longer list was one in
      the shorter list too, and conversely when the added event is no
      press. */
  lemma InsertSinceShift(events: seq<Event>, i: int)
    requires |events| > 0 && 0 <= i < |events| - 1
    ensures InsertSincePress(events, i) ==> InsertSincePress(events[..|events| - 1], i)
    ensures !events[|events| - 1].Press? && InsertSincePress(events[..|events| - 1], i) ==>
      InsertSincePress(events, i)
  {
    var prefix := events[..|events| - 1];
    assert forall j :: 0 <= j < |prefix| ==> prefix[j] == events[j];
  }

  /** The indicator after the last event: lit by an arrival, cleared by a
      press, otherwise as before. */
  lemma RunUnread(events: seq<Event>)
    requires |events| > 0
    ensures var e := events[|events| - 1];
      Run(Initial, events).unread ==
        (Arrival(e).Some? || (!e.Press? && Run(Initial, events[..|events| - 1]).unread))
  {
  }

  /** Some insert arrived after the last press. */
  ghost predicate PendingInsert(events: seq<Event>) {
    exists i :: InsertSincePress(events, i)
  }

  /** An insert is pending after an arrival, not after a press, and
      otherwise exactly when one was pending before the last event. */
  lemma PendingStep(events: seq<Event>)
    requires |events| > 0
    ensures var e := events[|events| - 1];
      PendingInsert(events) ==
        (Arrival(e).Some? || (!e.Press? && PendingInsert(events[..|events| - 1])))
  {
    var prefix := events[..|events| - 1];
    var last := |events| - 1;
    var e := events[last];
    if Arrival(e).Some? {
      assert InsertSincePress(events, last);
    } else if e.Press? {
      forall i | 0 <= i < |events|
        ensures !InsertSincePress(events, i)
      {
      }
    } else {
      if i :| InsertSincePress(prefix, i) {
        InsertSinceShift(events, i);
      }
      if i :| InsertSincePress(events, i) {
        InsertSinceShift(events, i);
      }
    }
  }

  /** The indicator is lit exactly when some insert arrived after the last
      press of the bell. */
  lemma {:induction false} UnreadSinceLastPress(events: seq<Event>)
    ensures Run(Initial, events).unread <==> exists i :: InsertSincePress(events, i)
  {
    if |events| > 0 {
      UnreadSinceLastPress(events[..|events| - 1]);
      RunUnread(events);
      PendingStep(events);
    }
  }

  /** The subtitles are template literals, so a field renders as
      `String` renders it: a missing order number reads "Order #undefined",
      a null one "Order #null", a string as itself and a number as its
      decimal numeral. Both notifications carry the row's id. */
  lemma NotificationText(row: Value)
    ensures OrderNotification(row).id == Get(Some(row), "id")
    ensures BookingNotification(row).id == Get(Some(row), "id")
    ensures var n := Get(Some(row), "number");
      var s := OrderNotification(row).subtitle;
      && (n.None? ==> s == "Order #undefined")
      && (n == Some(Null) ==> s == "Order #null")
      && (n.Some? && n.value.Str? ==> s == "Order #" + n.value.s)
      && (n.Some? && n.value.Num? ==> s == "Order #" + Text.IntToString(n.value.n))
  {
    var n := Get(Some(row), "number");
    var s := OrderNotification(row).subtitle;
    assert s == "Order #" + Display(n);
    if n.None? {
      assert Display(n) == "undefined";
    } else if n == Some(Null) {
      assert Display(n) == "null";
    }
  }

  /** A booking row without a party size or time reads "undefined people
      at undefined". */
  lemma BookingTextUndefined(row: Value)
    requires Get(Some(row), "number_of_people").None? && Get(Some(row), "time").None?
    ensures BookingNotification(row).subtitle == "undefined people at undefined"
  {
  }

  /** Two orders with different numeric numbers get different subtitles. */
  lemma OrderSubtitlesDiffer(a: Value, b: Value, x: int, y: int)
    requires Get(Some(a), "number") == Some(Num(x)) && Get(Some(b), "number") == Some(Num(y))
    requires x != y
    ensures OrderNotification(a).subtitle != OrderNotification(b).subtitle
  {
    var sa := OrderNotification(a).subtitle;
    var sb := OrderNotification(b).subtitle;
    assert sa[7..] == Text.IntToString(x);
    assert sb[7..] == Text.IntToString(y);
    Text.ParseIntToString(x);
    Text.ParseIntToString(y);
  }
}
