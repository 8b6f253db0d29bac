/** Properties of the webhook handler: name splitting and field fallbacks,
    defaults, the choice of event branch, parent ids on child rows, which
    failures stop the handler, and the error-path log update. */
module WebhookFacts {
  import opened Wrappers
  import opened Json
  import opened Webhook

  // ---------------------------------------------------------------------
  // Observing a sequence of writes
  // ---------------------------------------------------------------------

  /** The rows one write sends (a log update sends none). */
  function WriteRows(w: Write): seq<Row> {
    match w
    case Put(r) => [r]
    case PutAll(rs) => rs
    case MarkLog(_, _, _) => []
  }

  /** The rows sent to the database, in issue order. */
  function RowsOf(ws: seq<Write>): seq<Row> {
    if |ws| == 0 then [] else WriteRows(ws[0]) + RowsOf(ws[1..])
  }

  /** The tables that receive rows. */
  function Tables(ws: seq<Write>): set<Table> {
    set r | r in RowsOf(ws) :: TableOf(r)
  }

  ghost predicate AllRows(ws: seq<Write>, p: Row -> bool) {
    forall r :: r in RowsOf(ws) ==> p(r)
  }

  lemma RowsOfAppend(a: seq<Write>, b: seq<Write>)
    ensures RowsOf(a + b) == RowsOf(a) + RowsOf(b)
  {
    if |a| > 0 {
      assert (a + b)[0] == a[0];
      assert (a + b)[1..] == a[1..] + b;
      RowsOfAppend(a[1..], b);
      calc {
        RowsOf(a + b);
        WriteRows(a[0]) + RowsOf(a[1..] + b);
        WriteRows(a[0]) + (RowsOf(a[1..]) + RowsOf(b));
        (WriteRows(a[0]) + RowsOf(a[1..])) + RowsOf(b);
      }
    } else {
      assert a + b == b;
    }
  }

  lemma RowsOfOne(w: Write)
    ensures RowsOf([w]) == WriteRows(w)
  {
    assert [w][1..] == [];
  }

  lemma RowsOfTwo(w: Write, v: Write)
    ensures RowsOf([w, v]) == WriteRows(w) + WriteRows(v)
  {
    assert [w, v] == [w] + [v];
    RowsOfAppend([w], [v]);
    RowsOfOne(w);
    RowsOfOne(v);
  }

  lemma AllWeaken(ws: seq<Write>, p: Row -> bool, q: Row -> bool)
    requires AllRows(ws, p)
    requires forall r :: p(r) ==> q(r)
    ensures AllRows(ws, q)
  {
  }

  lemma TablesWithin(ws: seq<Write>, ts: set<Table>)
    requires AllRows(ws, r => TableOf(r) in ts)
    ensures Tables(ws) <= ts
  {
  }

  lemma AllAppend(a: seq<Write>, b: seq<Write>, p: Row -> bool)
    requires AllRows(a, p) && AllRows(b, p)
    ensures AllRows(a + b, p)
  {
    RowsOfAppend(a, b);
  }

  lemma AllAndThen(a: Run, b: Run, p: Row -> bool)
    requires AllRows(a.writes, p) && AllRows(b.writes, p)
    ensures AllRows(AndThen(a, b).writes, p)
  {
    if a.fault.None? {
      AllAppend(a.writes, b.writes, p);
    }
  }

  lemma AllBatch(items: seq<Value>, build: Value -> Result<Row, string>, p: Row -> bool)
    requires forall v :: build(v).Success? ==> p(build(v).value)
    ensures AllRows(Batch(items, build).writes, p)
  {
    if |items| > 0 && MapAll(items, build).Success? {
      var rows := MapAll(items, build).value;
      RowsOfOne(PutAll(rows));
      forall r | r in rows
        ensures p(r)
      {
        var i :| 0 <= i < |rows| && rows[i] == r;
        assert build(items[i]) == Success(rows[i]);
      }
    }
  }

  // ---------------------------------------------------------------------
  // Customer fields
  // ---------------------------------------------------------------------

  /** Name, phone and email prefer the non-empty `details` value over the
      top-level one; `zip` defaults to the empty string; first and last
      name split the chosen name at its first space, and are both empty
      without a name. */
  lemma CustomerFields(c: Field)
    requires CustomerOf(c).Success?
    ensures var r := CustomerOf(c).value;
      var details := Get(c, "details");
      && (Truthy(Get(details, "name")) ==> r.name == Get(details, "name"))
      && (!Truthy(Get(details, "name")) ==> r.name == Get(c, "name"))
      && (Truthy(Get(details, "phone")) ==> r.phone == Get(details, "phone"))
      && (!Truthy(Get(details, "phone")) ==> r.phone == Get(c, "phone"))
      && (Truthy(Get(details, "email")) ==> r.email == Get(details, "email"))
      && (!Truthy(Get(details, "email")) ==> r.email == Get(c, "email"))
      && (Truthy(Get(c, "zip")) ==> r.zip == Get(c, "zip").value)
      && (!Truthy(Get(c, "zip")) ==> r.zip == Str(""))
      && r.id == Get(c, "_id")
      && (!Truthy(r.name) ==> r.firstName == "" && r.lastName == "")
      && (Truthy(r.name) ==>
            var s := r.name.value.s;
            && r.name.value.Str?
            && ' ' !in r.firstName
            && (' ' in s ==> r.firstName + " " + r.lastName == s)
            && (' ' !in s ==> r.firstName == s && r.lastName == ""))
  {
    var r := CustomerOf(c).value;
    if Truthy(r.name) {
      NameSplit(r.name.value.s);
    } else {
      NameSplit("");
      assert Text.Split("", ' ') == [""];
    }
  }

  // ---------------------------------------------------------------------
  // Parent ids
  // ---------------------------------------------------------------------

  /** `id` is the `_id` of one of the dishes. */
  ghost predicate FromDish(id: Field, dishes: seq<Value>) {
    exists k :: 0 <= k < |dishes| && Get(Some(dishes[k]), "_id") == id
  }

  /** A row of the dish part of an order: a dish row of the order, or an
      ingredient or option row of one of its dishes. */
  ghost predicate InDishTree(r: Row, orderId: Field, dishes: seq<Value>) {
    || (r.Dish? && r.dish.orderId == orderId)
    || (r.Ingredient? && FromDish(r.ingredient.dishId, dishes))
    || (r.Choice? && FromDish(r.option.dishId, dishes))
  }

  /** A row below an order: configuration, checkout-field and tax rows
      carry the order id, the rest belong to its dish tree. */
  ghost predicate OrderChild(r: Row, orderId: Field, dishes: seq<Value>) {
    || (r.Config? && r.config.orderId == orderId)
    || (r.CheckoutField? && r.field.orderId == orderId)
    || (r.Tax? && r.tax.orderId == orderId)
    || InDishTree(r, orderId, dishes)
  }

  lemma {:induction false} OptionSetsCarryDish(dishId: Field, sets: seq<Value>)
    ensures AllRows(OptionSetsRun(dishId, sets).writes, (r: Row) => r.Choice? && r.option.dishId == dishId)
    decreases |sets|
  {
    var p := (r: Row) => r.Choice? && r.option.dishId == dishId;
    if |sets| > 0 {
      var s := Some(sets[0]);
      if Read(s, "options").Success? {
        AllBatch(Elements(Get(s, "options")), o => OptionRowOf(dishId, s, o), p);
        OptionSetsCarryDish(dishId, sets[1..]);
        AllAndThen(Batch(Elements(Get(s, "options")), o => OptionRowOf(dishId, s, o)),
                   OptionSetsRun(dishId, sets[1..]), p);
      }
    }
  }

  /** Every row written for one dish: the dish row carries the order id,
      its ingredient and option rows carry the dish's id. */
  lemma DishCarriesIds(orderId: Field, dish: Value, reject: Db)
    ensures AllRows(DishRun(orderId, dish, reject).writes,
      (r: Row) => (r.Dish? && r.dish.orderId == orderId) ||
                  (r.Ingredient? && r.ingredient.dishId == Get(Some(dish), "_id")) ||
                  (r.Choice? && r.option.dishId == Get(Some(dish), "_id")))
  {
    var id := Get(Some(dish), "_id");
    var p := (r: Row) => (r.Dish? && r.dish.orderId == orderId) ||
           (r.Ingredient? && r.ingredient.dishId == id) ||
           (r.Choice? && r.option.dishId == id);
    var d := Some(dish);
    if DishOf(orderId, dish).Success? {
      var row := DishOf(orderId, dish).value;
      RowsOfOne(Put(Dish(row)));
      if reject(Dish(row)).None? {
        var ingredients := Batch(Elements(Get(d, "ingredients")), i => IngredientOf(row.id, i));
        var options := OptionSetsRun(row.id, Elements(Get(d, "option_sets")));
        AllBatch(Elements(Get(d, "ingredients")), i => IngredientOf(row.id, i), p);
        OptionSetsCarryDish(row.id, Elements(Get(d, "option_sets")));
        assert AllRows(options.writes, p);
        AllAndThen(ingredients, options, p);
        AllAppend([Put(Dish(row))], AndThen(ingredients, options).writes, p);
      }
    }
  }

  lemma {:induction false} DishesCarryIds(orderId: Field, dishes: seq<Value>, reject: Db)
    ensures AllRows(DishesRun(orderId, dishes, reject).writes, r => InDishTree(r, orderId, dishes))
    decreases |dishes|
  {
    var p := (r: Row) => InDishTree(r, orderId, dishes);
    if |dishes| > 0 {
      var first := DishRun(orderId, dishes[0], reject);
      var rest := DishesRun(orderId, dishes[1..], reject);
      DishCarriesIds(orderId, dishes[0], reject);
      forall r | r in RowsOf(first.writes)
        ensures p(r)
      {
        assert Get(Some(dishes[0]), "_id") == Get(Some(dishes[0]), "_id");
      }
      DishesCarryIds(orderId, dishes[1..], reject);
      forall r | r in RowsOf(rest.writes)
        ensures p(r)
      {
        assert InDishTree(r, orderId, dishes[1..]);
        forall id | FromDish(id, dishes[1..])
          ensures FromDish(id, dishes)
        {
          var k :| 0 <= k < |dishes[1..]| && Get(Some(dishes[1..][k]), "_id") == id;
          assert dishes[k + 1] == dishes[1..][k];
        }
      }
      AllAndThen(first, rest, p);
    }
  }

  /** Every row written below an order carries its parent's id:
      configuration, checkout-field, tax and dish rows the order id,
      ingredient and option rows the id of one of the order's dishes. */
  lemma ChildrenCarryParent(orderId: Field, order: Field, reject: Db)
    ensures AllRows(OrderChildrenRun(orderId, order, reject).writes,
                    r => OrderChild(r, orderId, Elements(Get(order, "dishes"))))
  {
    var dishes := Elements(Get(order, "dishes"));
    var p := (r: Row) => OrderChild(r, orderId, dishes);
    var config := Get(order, "config");
    var configWrites := if Truthy(config) then [Put(Config(ConfigOf(orderId, config)))] else [];
    assert AllRows(configWrites, p) by {
      if Truthy(config) {
        RowsOfOne(Put(Config(ConfigOf(orderId, config))));
      }
    }
    var checkout := Batch(Elements(Get(order, "checkout_fields")), f => CheckoutFieldOf(orderId, f));
    var taxes := Batch(Elements(Get(Get(order, "bill"), "taxes")), t => TaxOf(orderId, t));
    var ds := DishesRun(orderId, dishes, reject);
    var mark := Run([MarkLog(OrderIdIs(orderId), true, None)], None);
    AllBatch(Elements(Get(order, "checkout_fields")), f => CheckoutFieldOf(orderId, f), p);
    AllBatch(Elements(Get(Get(order, "bill"), "taxes")), t => TaxOf(orderId, t), p);
    DishesCarryIds(orderId, dishes, reject);
    assert AllRows(ds.writes, p);
    RowsOfOne(MarkLog(OrderIdIs(orderId), true, None));
    AllAndThen(ds, mark, p);
    AllAndThen(taxes, AndThen(ds, mark), p);
    AllAndThen(checkout, AndThen(taxes, AndThen(ds, mark)), p);
    AllAppend(configWrites, AndThen(checkout, AndThen(taxes, AndThen(ds, mark))).writes, p);
  }

  // ---------------------------------------------------------------------
  // Branch choice
  // ---------------------------------------------------------------------

  const OrderTables: set<Table> :=
    {Orders, OrderConfig, OrderCheckoutFields, Taxes, Dishes, DishIngredients, Options}

  lemma OrderBranchRows(body: Value, c: Field, order: Field, reject: Db)
    ensures AllRows(OrderBranch(body, c, order, reject).writes, r => TableOf(r) in OrderTables)
  {
    var p := (r: Row) => TableOf(r) in OrderTables;
    var w := OrderBranch(body, c, order, reject).writes;
    if OrderOf(body, c, order).Success? {
      var row := OrderOf(body, c, order).value;
      RowsOfOne(Put(Order(row)));
      assert AllRows([Put(Order(row))], p);
      if reject(Order(row)).None? {
        var children := OrderChildrenRun(row.id, order, reject);
        assert w == [Put(Order(row))] + children.writes;
        ChildrenCarryParent(row.id, order, reject);
        ChildRowsAreOrderRows(children.writes, row.id, Elements(Get(order, "dishes")));
        AllAppend([Put(Order(row))], children.writes, p);
      }
    } else {
      assert w == [];
    }
  }

  lemma ChildRowsAreOrderRows(ws: seq<Write>, orderId: Field, dishes: seq<Value>)
    requires AllRows(ws, r => OrderChild(r, orderId, dishes))
    ensures AllRows(ws, r => TableOf(r) in OrderTables)
  {
    AllWeaken(ws, r => OrderChild(r, orderId, dishes), r => TableOf(r) in OrderTables);
  }

  lemma BookingBranchRows(body: Value, c: Field, booking: Field, reject: Db)
    ensures AllRows(BookingBranch(body, c, booking, reject).writes, (r: Row) => r.Booking?)
  {
    if BookingOf(body, c, booking).Success? {
      var row := BookingOf(body, c, booking).value;
      RowsOfOne(Put(Booking(row)));
      RowsOfTwo(Put(Booking(row)), MarkLog(BookingIdIs(row.id), true, None));
    }
  }

  /** The rows the event branch writes. */
  ghost predicate BranchRow(body: Value, r: Row) {
    if IsBookingEvent(body) then r.Booking?
    else if Truthy(Get(Get(Some(body), "data"), "order")) then TableOf(r) in OrderTables
    else false
  }

  lemma EventRows(body: Value, c: Field, reject: Db)
    ensures AllRows(EventRun(body, c, reject).writes, r => BranchRow(body, r))
  {
    var data := Get(Some(body), "data");
    var q := (r: Row) => BranchRow(body, r);
    if IsBookingEvent(body) {
      BookingBranchRows(body, c, Get(data, "booking"), reject);
      AllWeaken(EventRun(body, c, reject).writes, (r: Row) => r.Booking?, q);
    } else if Truthy(Get(data, "order")) {
      OrderBranchRows(body, c, Get(data, "order"), reject);
      AllWeaken(EventRun(body, c, reject).writes, r => TableOf(r) in OrderTables, q);
    }
  }

  /** The rows of the main path: the log entry, the restaurant and the
      customer, and the rows of the chosen event branch. */
  lemma ProcessRows(body: Value, reject: Db)
    ensures AllRows(Process(body, reject).writes,
                    (r: Row) => r.Log? || r.Restaurant? || r.Customer? || BranchRow(body, r))
  {
    var p := (r: Row) => r.Log? || r.Restaurant? || r.Customer? || BranchRow(body, r);
    RowsOfOne(Put(Log(body)));
    if reject(Log(body)).None? && RestaurantOf(body).Success? {
      var rr := RestaurantOf(body).value;
      var head := [Put(Log(body)), Put(Restaurant(rr))];
      RowsOfTwo(Put(Log(body)), Put(Restaurant(rr)));
      if reject(Restaurant(rr)).None? {
        CustomerRows(body, reject);
        AllAppend(head, CustomerRun(body, reject).writes, p);
      }
    }
  }

  lemma CustomerRows(body: Value, reject: Db)
    ensures AllRows(CustomerRun(body, reject).writes, (r: Row) => r.Customer? || BranchRow(body, r))
  {
    var p := (r: Row) => r.Customer? || BranchRow(body, r);
    if CustomerField(body).Success? {
      var c := CustomerField(body).value;
      if CustomerOf(c).Success? {
        var cr := CustomerOf(c).value;
        RowsOfOne(Put(Customer(cr)));
        if reject(Customer(cr)).None? {
          EventRows(body, c, reject);
          AllWeaken(EventRun(body, c, reject).writes, r => BranchRow(body, r), p);
          AllAppend([Put(Customer(cr))], EventRun(body, c, reject).writes, p);
        }
      }
    }
  }

  /** The error-path writes send no row. */
  lemma ErrorLogRows(payload: Value, message: string)
    ensures RowsOf(ErrorLog(payload, message)) == []
  {
    var tail := ErrorLog(payload, message);
    if |tail| > 0 {
      RowsOfOne(tail[0]);
      assert tail == [tail[0]];
    }
  }

  /** The rows of the main path are all the rows of the request. */
  lemma HandleRows(body: Value, reject: Db, reread: bool)
    ensures RowsOf(Handle(Some(body), reject, reread).writes) == RowsOf(Process(body, reject).writes)
  {
    var run := Process(body, reject);
    if run.fault.Some? {
      var tail := if reread then ErrorLog(body, run.fault.value) else [];
      assert Handle(Some(body), reject, reread).writes == run.writes + tail;
      ErrorLogRows(body, run.fault.value);
      RowsOfAppend(run.writes, tail);
      assert RowsOf(tail) == [];
      assert RowsOf(run.writes) + [] == RowsOf(run.writes);
    }
  }

  /** What the rows of the main path say about the tables written. */
  lemma BranchTables(body: Value, ws: seq<Write>)
    requires AllRows(ws, (r: Row) => r.Log? || r.Restaurant? || r.Customer? || BranchRow(body, r))
    ensures IsBookingEvent(body) ==> Tables(ws) !! OrderTables
    ensures !IsBookingEvent(body) ==> Bookings !in Tables(ws)
    ensures !IsBookingEvent(body) && !Truthy(Get(Get(Some(body), "data"), "order")) ==>
      Tables(ws) <= {WebhookLogs, Restaurants, Customers}
  {
  }

  /** A `booking_new` event never writes order rows, even when the body
      also holds an order, and writes its booking row unless it failed;
      any other event writes no booking row; without an order only the
      log, restaurant and customer rows are written. */
  lemma BranchChoice(body: Value, reject: Db, reread: bool)
    ensures var resp := Handle(Some(body), reject, reread);
      && (IsBookingEvent(body) ==> Tables(resp.writes) !! OrderTables)
      && (IsBookingEvent(body) && resp.status == 200 ==> Bookings in Tables(resp.writes))
      && (!IsBookingEvent(body) ==> Bookings !in Tables(resp.writes))
      && (!IsBookingEvent(body) && !Truthy(Get(Get(Some(body), "data"), "order")) ==>
            Tables(resp.writes) <= {WebhookLogs, Restaurants, Customers})
  {
    var resp := Handle(Some(body), reject, reread);
    ProcessRows(body, reject);
    HandleRows(body, reject, reread);
    assert Tables(resp.writes) == Tables(Process(body, reject).writes);
    BranchTables(body, Process(body, reject).writes);
    if IsBookingEvent(body) && resp.status == 200 {
      assert Process(body, reject).fault.None?;
      BookingSucceeds(body, reject);
    }
  }

  /** A booking event that completes has written its booking row. */
  lemma BookingSucceeds(body: Value, reject: Db)
    requires IsBookingEvent(body) && Process(body, reject).fault.None?
    ensures Bookings in Tables(Process(body, reject).writes)
  {
    ProcessShape(body, reject);
    CustomerRunShape(body, reject);
    var c := CustomerField(body).value;
    BookingEventShape(body, c, reject);
    var br := BookingOf(body, c, Get(Get(Some(body), "data"), "booking")).value;
    TableInside(Process(body, reject).writes,
                [Put(Log(body)), Put(Restaurant(RestaurantOf(body).value))], CustomerRun(body, reject).writes,
                [Put(Customer(CustomerOf(c).value))], EventRun(body, c, reject).writes, Booking(br));
  }

  /** A row written first by the inner part of a nested concatenation
      lands in its table. */
  lemma TableInside(ws: seq<Write>, pre: seq<Write>, mid: seq<Write>, pre2: seq<Write>, inner: seq<Write>, r: Row)
    requires ws == pre + mid && mid == pre2 + inner
    requires |inner| > 0 && r in WriteRows(inner[0])
    ensures TableOf(r) in Tables(ws)
  {
    assert ws[|pre| + |pre2|] == inner[0];
    TableAt(ws, |pre| + |pre2|, r);
  }

  /** A booking event that completes starts with the booking row. */
  lemma BookingEventShape(body: Value, c: Field, reject: Db)
    requires IsBookingEvent(body) && EventRun(body, c, reject).fault.None?
    ensures var booking := Get(Get(Some(body), "data"), "booking");
      && BookingOf(body, c, booking).Success?
      && |EventRun(body, c, reject).writes| > 0
      && EventRun(body, c, reject).writes[0] == Put(Booking(BookingOf(body, c, booking).value))
  {
  }

  /** A main path that completes has written the log entry and the
      restaurant, then completed the customer step. */
  lemma ProcessShape(body: Value, reject: Db)
    requires Process(body, reject).fault.None?
    ensures RestaurantOf(body).Success? && CustomerRun(body, reject).fault.None?
    ensures Process(body, reject).writes ==
      [Put(Log(body)), Put(Restaurant(RestaurantOf(body).value))] + CustomerRun(body, reject).writes
  {
  }

  /** A customer step that completes has written the customer, then
      completed the event branch. */
  lemma CustomerRunShape(body: Value, reject: Db)
    requires CustomerRun(body, reject).fault.None?
    ensures CustomerField(body).Success? && CustomerOf(CustomerField(body).value).Success?
    ensures EventRun(body, CustomerField(body).value, reject).fault.None?
    ensures CustomerRun(body, reject).writes ==
      [Put(Customer(CustomerOf(CustomerField(body).value).value))]
      + EventRun(body, CustomerField(body).value, reject).writes
  {
  }

  /** A row written by any write of the sequence lands in its table. */
  lemma {:induction false} TableAt(ws: seq<Write>, i: nat, r: Row)
    requires i < |ws| && r in WriteRows(ws[i])
    ensures r in RowsOf(ws)
    ensures TableOf(r) in Tables(ws)
    decreases i
  {
    if i > 0 {
      TableAt(ws[1..], i - 1, r);
    }
  }

  // ---------------------------------------------------------------------
  // Which failures stop the handler
  // ---------------------------------------------------------------------

  /** A rejected dish write contributes only its own row: its ingredients
      and options are skipped and the dishes after it are processed as if
      it had not been there. */
  lemma RejectedDishSkipped(orderId: Field, dishes: seq<Value>, k: nat, reject: Db)
    requires k < |dishes|
    requires DishOf(orderId, dishes[k]).Success?
    requires reject(Dish(DishOf(orderId, dishes[k]).value)).Some?
    requires DishesRun(orderId, dishes[..k], reject).fault.None?
    ensures var all := DishesRun(orderId, dishes, reject);
      && all.writes == DishesRun(orderId, dishes[..k], reject).writes
                       + [Put(Dish(DishOf(orderId, dishes[k]).value))]
                       + DishesRun(orderId, dishes[k + 1..], reject).writes
      && all.fault == DishesRun(orderId, dishes[k + 1..], reject).fault
  {
    var step := DishStep(orderId, reject);
    assert step(dishes[k]) == Run([Put(Dish(DishOf(orderId, dishes[k]).value))], None);
    SequenceSplit(dishes, k, step);
  }

  /** A sequence of steps splits around any step that completes, when the
      steps before it complete too. */
  lemma {:induction false} SequenceSplit(items: seq<Value>, k: nat, step: Value -> Run)
    requires k < |items|
    requires step(items[k]).fault.None?
    requires Sequence(items[..k], step).fault.None?
    ensures var all := Sequence(items, step);
      && all.writes == Sequence(items[..k], step).writes + step(items[k]).writes
                       + Sequence(items[k + 1..], step).writes
      && all.fault == Sequence(items[k + 1..], step).fault
    decreases k
  {
    if k == 0 {
      SequenceHead(items, step);
      assert items[..0] == [];
    } else {
      var tail := items[1..];
      assert items[..k][0] == items[0];
      assert items[..k][1..] == tail[..k - 1];
      SequenceHead(items[..k], step);
      assert tail[k - 1] == items[k];
      SequenceSplit(tail, k - 1, step);
      assert tail[k..] == items[k + 1..];
      SequenceHead(items, step);
      Regroup(step(items[0]).writes, Sequence(tail, step).writes,
              Sequence(tail[..k - 1], step).writes, step(items[k]).writes,
              Sequence(items[k + 1..], step).writes, Sequence(items[..k], step).writes);
    }
  }

  /** Concatenation regrouped around a middle piece. */
  lemma Regroup<T>(head: seq<T>, rest: seq<T>, before: seq<T>, mid: seq<T>, after: seq<T>, prefix: seq<T>)
    requires rest == before + mid + after
    requires prefix == head + before
    ensures head + rest == prefix + mid + after
  {
  }

  /** A sequence that completes starts with a step that completes, and
      then runs the rest after it. */
  lemma SequenceHead(items: seq<Value>, step: Value -> Run)
    requires |items| > 0
    requires Sequence(items, step).fault.None? || step(items[0]).fault.None?
    ensures step(items[0]).fault.None?
    ensures Sequence(items, step).writes == step(items[0]).writes + Sequence(items[1..], step).writes
    ensures Sequence(items, step).fault == Sequence(items[1..], step).fault
  {
  }

  /** A failed write of the log entry, the restaurant or the customer ends
      the request with status 500 before any booking or order row is
      written. */
  lemma EarlyFailureAborts(body: Value, reject: Db, reread: bool)
    requires
      || reject(Log(body)).Some?
      || (RestaurantOf(body).Success? && reject(Restaurant(RestaurantOf(body).value)).Some?)
      || (CustomerField(body).Success? && CustomerOf(CustomerField(body).value).Success? &&
          reject(Customer(CustomerOf(CustomerField(body).value).value)).Some?)
    ensures Handle(Some(body), reject, reread).status == 500
    ensures Tables(Handle(Some(body), reject, reread).writes) <= {WebhookLogs, Restaurants, Customers}
  {
    EarlyFailureRows(body, reject);
    HandleRows(body, reject, reread);
    assert Tables(Handle(Some(body), reject, reread).writes) == Tables(Process(body, reject).writes);
  }

  lemma EarlyFailureRows(body: Value, reject: Db)
    requires
      || reject(Log(body)).Some?
      || (RestaurantOf(body).Success? && reject(Restaurant(RestaurantOf(body).value)).Some?)
      || (CustomerField(body).Success? && CustomerOf(CustomerField(body).value).Success? &&
          reject(Customer(CustomerOf(CustomerField(body).value).value)).Some?)
    ensures Process(body, reject).fault.Some?
    ensures Tables(Process(body, reject).writes) <= {WebhookLogs, Restaurants, Customers}
  {
    RowsOfOne(Put(Log(body)));
    if reject(Log(body)).Some? || RestaurantOf(body).Failure? {
      StopAtLog(body, reject);
    } else {
      var rr := RestaurantOf(body).value;
      RowsOfTwo(Put(Log(body)), Put(Restaurant(rr)));
      if reject(Restaurant(rr)).Some? {
        StopAtRestaurant(body, reject, rr);
      } else {
        var cr := CustomerOf(CustomerField(body).value).value;
        StopAtCustomer(body, reject, rr, cr);
        RowsOfOne(Put(Customer(cr)));
        RowsOfAppend([Put(Log(body)), Put(Restaurant(rr))], [Put(Customer(cr))]);
      }
    }
  }

  lemma StopAtLog(body: Value, reject: Db)
    requires reject(Log(body)).Some? || RestaurantOf(body).Failure?
    ensures Process(body, reject).fault.Some? && Process(body, reject).writes == [Put(Log(body))]
  {
  }

  lemma StopAtRestaurant(body: Value, reject: Db, rr: RestaurantRow)
    requires reject(Log(body)).None? && RestaurantOf(body) == Success(rr) && reject(Restaurant(rr)).Some?
    ensures Process(body, reject).fault.Some?
    ensures Process(body, reject).writes == [Put(Log(body)), Put(Restaurant(rr))]
  {
  }

  lemma StopAtCustomer(body: Value, reject: Db, rr: RestaurantRow, cr: CustomerRow)
    requires reject(Log(body)).None? && RestaurantOf(body) == Success(rr) && reject(Restaurant(rr)).None?
    requires CustomerField(body).Success? && CustomerOf(CustomerField(body).value) == Success(cr)
    requires reject(Customer(cr)).Some?
    ensures Process(body, reject).fault.Some?
    ensures Process(body, reject).writes == [Put(Log(body)), Put(Restaurant(rr))] + [Put(Customer(cr))]
  {
  }

  /** Two databases that answer alike except on `order_config` rows. */
  ghost predicate AgreeExceptConfig(r1: Db, r2: Db) {
    forall row: Row :: !row.Config? ==> r1(row) == r2(row)
  }

  lemma {:induction false} DishesIgnoreConfig(orderId: Field, dishes: seq<Value>, r1: Db, r2: Db)
    requires AgreeExceptConfig(r1, r2)
    ensures DishesRun(orderId, dishes, r1) == DishesRun(orderId, dishes, r2)
    decreases |dishes|
  {
    if |dishes| > 0 {
      DishesIgnoreConfig(orderId, dishes[1..], r1, r2);
      if DishOf(orderId, dishes[0]).Success? {
        var row := DishOf(orderId, dishes[0]).value;
        assert r1(Dish(row)) == r2(Dish(row));
      }
    }
  }

  lemma OrderBranchIgnoresConfig(body: Value, c: Field, order: Field, r1: Db, r2: Db)
    requires AgreeExceptConfig(r1, r2)
    ensures OrderBranch(body, c, order, r1) == OrderBranch(body, c, order, r2)
  {
    if OrderOf(body, c, order).Success? {
      var or := OrderOf(body, c, order).value;
      assert r1(Order(or)) == r2(Order(or));
      DishesIgnoreConfig(or.id, Elements(Get(order, "dishes")), r1, r2);
      assert OrderChildrenRun(or.id, order, r1) == OrderChildrenRun(or.id, order, r2);
    }
  }

  lemma EventRunIgnoresConfig(body: Value, c: Field, r1: Db, r2: Db)
    requires AgreeExceptConfig(r1, r2)
    ensures EventRun(body, c, r1) == EventRun(body, c, r2)
  {
    var data := Get(Some(body), "data");
    if BookingOf(body, c, Get(data, "booking")).Success? {
      var br := BookingOf(body, c, Get(data, "booking")).value;
      assert r1(Booking(br)) == r2(Booking(br));
    }
    OrderBranchIgnoresConfig(body, c, Get(data, "order"), r1, r2);
  }

  lemma CustomerRunIgnoresConfig(body: Value, r1: Db, r2: Db)
    requires AgreeExceptConfig(r1, r2)
    ensures CustomerRun(body, r1) == CustomerRun(body, r2)
  {
    if CustomerField(body).Success? {
      var c := CustomerField(body).value;
      if CustomerOf(c).Success? {
        assert r1(Customer(CustomerOf(c).value)) == r2(Customer(CustomerOf(c).value));
      }
      EventRunIgnoresConfig(body, c, r1, r2);
    }
  }

  /** A failed `order_config` write is only logged: the database's answer
      to it changes neither the writes nor the status of the request. */
  lemma ConfigFailureOnlyLogged(body: Option<Value>, r1: Db, r2: Db, reread: bool)
    requires AgreeExceptConfig(r1, r2)
    ensures Handle(body, r1, reread) == Handle(body, r2, reread)
  {
    if body.Some? {
      var b := body.value;
      assert r1(Log(b)) == r2(Log(b));
      if RestaurantOf(b).Success? {
        assert r1(Restaurant(RestaurantOf(b).value)) == r2(Restaurant(RestaurantOf(b).value));
      }
      CustomerRunIgnoresConfig(b, r1, r2);
      assert Process(b, r1) == Process(b, r2);
    }
  }

  // ---------------------------------------------------------------------
  // The error path
  // ---------------------------------------------------------------------

  /** The id the error path addresses is the order's when it is truthy
      and the booking's otherwise; the intended update is sent exactly when
      that id is truthy and marks the request's own entry, and the update
      as written is sent in the same cases with the same mark but a filter
      that the request's own entry meets only when its order and booking
      ids coincide. */
  lemma ErrorLogMarksOwnEntry(payload: Value, message: string)
    ensures Truthy(OrderIdOf(payload)) ==> ErrorLogId(payload) == OrderIdOf(payload)
    ensures !Truthy(OrderIdOf(payload)) ==> ErrorLogId(payload) == BookingIdOf(payload)
    ensures |ErrorLogIntended(payload, message)| == |ErrorLog(payload, message)|
    ensures forall w :: w in ErrorLogIntended(payload, message) ==> Selects(w.key, payload)
    ensures forall w :: w in ErrorLog(payload, message) ==> w.key == ErrorLogKeyAsWritten(ErrorLogId(payload))
  {
  }

  /** The error-path filter as written addresses no log entry of an order
      webhook that carries no booking: not even the entry of the request
      that failed. */
  lemma ErrorLogAsWrittenMissesOrders(id: Field, payload: Value)
    requires BookingIdOf(payload).None?
    ensures !Selects(ErrorLogKeyAsWritten(id), payload)
  {
  }

  /** A concrete order webhook whose processing fails (it carries no
      customer): the handler's update uses the filter as written, which
      addresses no entry of this request, while the intended update
      addresses its log entry. */
  lemma ErrorLogAsWrittenExample()
    ensures var body := Obj(map["data" := Obj(map["order" := Obj(map["_id" := Str("o1")])])]);
      var message := CannotRead(None, "_id");
      var resp := Handle(Some(body), _ => None, true);
      && resp.status == 500
      && resp.writes == [
           Put(Log(body)), Put(Restaurant(RestaurantRow(None, None, None))),
           MarkLog(ErrorLogKeyAsWritten(Some(Str("o1"))), false, Some(message))]
      && !Selects(resp.writes[2].key, body)
      && ErrorLogIntended(body, message) == [MarkLog(ErrorLogKey(Some(Str("o1"))), false, Some(message))]
      && Selects(ErrorLogIntended(body, message)[0].key, body)
  {
    var order := Obj(map["_id" := Str("o1")]);
    var data := Obj(map["order" := order]);
    var body := Obj(map["data" := data]);
    assert Get(Some(body), "restaurant_id") == None;
    assert RestaurantOf(body) == Success(RestaurantRow(None, None, None));
    assert Get(Some(body), "data") == Some(data);
    assert Get(Some(data), "customer") == None;
    assert CustomerField(body) == Success(None);
    assert CustomerOf(None) == Failure(CannotRead(None, "_id"));
    assert OrderIdOf(body) == Some(Str("o1"));
    assert BookingIdOf(body) == None;
  }
}
