/** The webhook ingestion function: a JSON body announcing an order or a
    booking of an external ordering platform is logged, then normalised
    into restaurant, customer, booking, order and order-child rows.

    The database is a parameter: `reject` answers, for each row whose
    write result the handler inspects, the error message the write fails
    with (or `None`). The handler's effect is the sequence of writes it
    issues. Writes started together and awaited with `Promise.all` form
    one `PutAll` batch whose outcome the handler never looks at. */
module Webhook {
  import opened Wrappers
  import opened Json
  import Text

  // ---------------------------------------------------------------------
  // Rows, one datatype per table; columns the handler stamps with the
  // current time (`created_date`, `modified_date`) are left out
  // ---------------------------------------------------------------------

  datatype RestaurantRow = RestaurantRow(id: Field, name: Field, address: Field)

  datatype CustomerRow = CustomerRow(
    id: Field, organisationId: Field,
    name: Field, phone: Field, email: Field, zip: Value,
    ip: Field, country: Field, region: Field, city: Field, lat: Field, lng: Field,
    firstName: string, lastName: string,
    kind: Field, avatar: Field, manual: Field, verified: Field,
    gender: Field, ageRange: Field, meta: Field, stats: Field,
    restaurants: Field, ageVerification: Field)

  datatype BookingRow = BookingRow(
    id: Field, restaurantId: Field, customerId: Field,
    status: Field, notes: Field, number: Field, webUrl: Field,
    date: Field, time: Field, timestamp: Field, numberOfPeople: Field)

  /** `readyIn` keeps the platform's timestamp where the handler stores
      its ISO rendering; `Null` when there is no timestamp. */
  datatype OrderRow = OrderRow(
    id: Field, restaurantId: Field, customerId: Field, orderType: Field,
    status: Field, notes: Field, number: Field, timezone: Field, webUrl: Field,
    total: Field, cart: Field, discount: Value, tip: Value,
    paymentMethod: Field, paymentStatus: Field, paymentTotal: Field,
    readyIn: Value, deliveryIn: Field, rushEtaIncrement: Value,
    wposOrder: Value, kountaOrder: Value, abacusOrder: Value, autoPrinted: Value)

  datatype ConfigRow = ConfigRow(
    orderId: Field, due: Field, lat: Field, lng: Field, date: Field, time: Field,
    zone: Field, tableInfo: Field, source: Field, service: Field, distance: Field,
    isLimit: Field, confirmed: Field, destination: Field, drivingTime: Field,
    destinationMisc: Field, numberOfPeople: Field)

  datatype CheckoutFieldRow = CheckoutFieldRow(
    orderId: Field, fieldId: Field, fieldType: Field,
    questionLabel: Field, questionDescription: Field, answer: Field)

  datatype TaxRow = TaxRow(id: Field, orderId: Field, name: Field, rate: Field, amount: Field)

  datatype DishRow = DishRow(
    id: Field, orderId: Field, name: Field, price: Field, quantity: Field,
    notes: Value, menuId: Field, subtitle: Field, basePrice: Field, priceType: Field,
    categoryId: Field, displayName: Field, requireAgeVerification: Value,
    lineId: Field, kind: Field, tags: Value)

  datatype IngredientRow = IngredientRow(dishId: Field, ingredientId: Field, name: Field, active: Field)

  datatype OptionRow = OptionRow(
    id: Field, dishId: Field, optionSetId: Field, name: Field,
    price: Value, quantity: Value, status: Field, conditions: Value,
    displayName: Field, usingPoints: Value, variablePriceRef: Field,
    incPriceFreeQtyPromo: Value)

  datatype Table =
    | WebhookLogs | Restaurants | Customers | Bookings | Orders | OrderConfig
    | OrderCheckoutFields | Taxes | Dishes | DishIngredients | Options

  datatype Row =
    | Log(payload: Value)
    | Restaurant(restaurant: RestaurantRow)
    | Customer(customer: CustomerRow)
    | Booking(booking: BookingRow)
    | Order(order: OrderRow)
    | Config(config: ConfigRow)
    | CheckoutField(field: CheckoutFieldRow)
    | Tax(tax: TaxRow)
    | Dish(dish: DishRow)
    | Ingredient(ingredient: IngredientRow)
    | Choice(option: OptionRow)

  function TableOf(r: Row): Table {
    match r
    case Log(_) => WebhookLogs
    case Restaurant(_) => Restaurants
    case Customer(_) => Customers
    case Booking(_) => Bookings
    case Order(_) => Orders
    case Config(_) => OrderConfig
    case CheckoutField(_) => OrderCheckoutFields
    case Tax(_) => Taxes
    case Dish(_) => Dishes
    case Ingredient(_) => DishIngredients
    case Choice(_) => Options
  }

  /** Which `webhook_logs` rows an update addresses, by the order or
      booking id inside their stored payload. */
  datatype LogKey =
    | OrderIdIs(id: Field)
    | BookingIdIs(id: Field)
    | OrderAndBookingIdAre(id: Field)
    | OrderOrBookingIdIs(id: Field)

  datatype Write =
    | Put(row: Row)
    | PutAll(rows: seq<Row>)
    | MarkLog(key: LogKey, processed: bool, error: Option<string>)

  /** The database's answer to each inspected write: an error message, or
      `None` when the write succeeds. */
  type Db = Row -> Option<string>

  /** Writes issued so far, and the message of the error that stopped the
      handler, if any. */
  datatype Run = Run(writes: seq<Write>, fault: Option<string>)

  /** The writes of one request and the HTTP status of its response. */
  datatype Response = Response(writes: seq<Write>, status: int)

  /** `a`, then `b` unless `a` stopped with an error. */
  function AndThen(a: Run, b: Run): Run {
    if a.fault.Some? then a else Run(a.writes + b.writes, b.fault)
  }

  // ---------------------------------------------------------------------
  // Names
  // ---------------------------------------------------------------------

  /** `name.split(' ')[0]`. */
  function FirstName(name: string): string {
    Text.Split(name, ' ')[0]
  }

  /** `name.split(' ').slice(1).join(' ')`. */
  function LastName(name: string): string {
    Text.Join(Text.Split(name, ' ')[1..], ' ')
  }

  /** The first name is the text before the first space, the last name
      everything after it. */
  lemma NameSplit(name: string)
    ensures ' ' !in FirstName(name) && FirstName(name) <= name
    ensures ' ' in name ==> FirstName(name) + " " + LastName(name) == name
    ensures ' ' !in name ==> FirstName(name) == name && LastName(name) == ""
  {
    var parts := Text.Split(name, ' ');
    Text.JoinSplit(name, ' ');
    Text.SplitPiecesFree(name, ' ');
    assert ' ' !in parts[0];
    if |parts| == 1 {
      assert Text.Join(parts, ' ') == parts[0];
    } else {
      assert Text.Join(parts, ' ') == parts[0] + " " + LastName(name);
      assert ' ' in name by {
        assert name[|parts[0]|] == ' ';
      }
    }
  }

  /** First and last name of the chosen name text; splitting a value that
      is not a string throws. */
  function NameParts(v: Value): Result<(string, string), string> {
    if v.Str? then Success((FirstName(v.s), LastName(v.s)))
    else Failure("(intermediate value).split is not a function")
  }

  // ---------------------------------------------------------------------
  // Row builders; a Failure is the exception thrown while the row's object
  // literal is evaluated, before anything is sent
  // ---------------------------------------------------------------------

  /** `restaurant.restaurant_id` throws exactly when the body is null;
      the name and address are read with optional chaining. */
  function RestaurantOf(body: Value): (r: Result<RestaurantRow, string>)
    ensures r.Failure? <==> body.Null?
    ensures r.Success? ==>
      && r.value.id == Get(Some(body), "restaurant_id")
      && r.value.name == Get(Some(body), "restaurant_name")
      && r.value.address == Get(Some(body), "restaurant_address")
  {
    var b := Some(body);
    var id :- Read(b, "restaurant_id");
    Success(RestaurantRow(id, Get(b, "restaurant_name"), Get(b, "restaurant_address")))
  }

  /** `webhookData.data.customer`: throws when the body is null or has no
      `data`. */
  function CustomerField(body: Value): (r: Result<Field, string>)
    ensures r.Failure? <==> body.Null? || Nullish(Get(Some(body), "data"))
    ensures r.Success? ==> r.value == Get(Get(Some(body), "data"), "customer")
  {
    var data :- Read(Some(body), "data");
    Read(data, "customer")
  }

  /** The customer's name: `details.name` when truthy, else `name`. */
  function CustomerName(c: Field): Field {
    Or(Get(Get(c, "details"), "name"), Get(c, "name"))
  }

  /** Building the customer row throws exactly when there is no customer,
      or when the chosen name is a truthy value that is not a string. */
  function CustomerOf(c: Field): (r: Result<CustomerRow, string>)
    ensures r.Failure? <==> Nullish(c) || (Truthy(CustomerName(c)) && !CustomerName(c).value.Str?)
    ensures r.Success? ==> r.value.id == Get(c, "_id")
  {
    var id :- Read(c, "_id");
    var details := Get(c, "details");
    var meta := Get(c, "meta");
    var name := CustomerName(c);
    var parts :- NameParts(OrElse(name, Str("")));
    Success(CustomerRow(
      id, Get(c, "organisation_id"),
      name, Or(Get(details, "phone"), Get(c, "phone")), Or(Get(details, "email"), Get(c, "email")),
      OrElse(Get(c, "zip"), Str("")),
      Get(meta, "last_ip"), Get(meta, "ip_country"), Get(meta, "ip_region"),
      Get(meta, "ip_city"), Get(meta, "ip_lat"), Get(meta, "ip_lng"),
      parts.0, parts.1,
      Get(c, "type"), Get(c, "avatar"), Get(c, "manual"), Get(c, "verified"),
      Get(details, "gender"), Get(details, "age_range"), meta, Get(c, "stats"),
      Get(c, "restaurants"), Get(c, "age_verification")))
  }

  /** Building the booking row throws exactly when the booking or its
      `config` is missing; the row carries the restaurant and customer ids
      and the booking's date. */
  function BookingOf(body: Value, c: Field, booking: Field): (r: Result<BookingRow, string>)
    ensures r.Failure? <==> Nullish(booking) || Nullish(Get(booking, "config"))
    ensures r.Success? ==>
      && r.value.id == Get(booking, "_id")
      && r.value.restaurantId == Get(Some(body), "restaurant_id")
      && r.value.customerId == Get(c, "_id")
      && r.value.date == Get(Get(booking, "config"), "date")
  {
    var id :- Read(booking, "_id");
    var config := Get(booking, "config");
    var date :- Read(config, "date");
    Success(BookingRow(
      id, Get(Some(body), "restaurant_id"), Get(c, "_id"),
      Get(booking, "status"), Get(booking, "notes"), Get(booking, "number"), Get(booking, "web_url"),
      date, Get(config, "time"), Get(config, "timestamp"), Get(config, "number_of_people")))
  }

  /** Building the order row throws exactly when the bill is missing;
      discount, tip and rush increment keep a truthy value and are 0
      otherwise, the integration flags keep a truthy value and are false
      otherwise, `auto_printed` keeps a truthy value and is the empty list
      otherwise, and `ready_in` is null exactly when there is no
      timestamp. */
  function OrderOf(body: Value, c: Field, order: Field): (r: Result<OrderRow, string>)
    ensures r.Failure? <==> Nullish(Get(order, "bill"))
    ensures r.Success? ==>
      var bill := Get(order, "bill");
      && r.value.id == Get(order, "_id")
      && r.value.customerId == Get(c, "_id")
      && r.value.total == Get(bill, "total")
      && Defaulted(r.value.discount, Get(bill, "discount"), Num(0))
      && Defaulted(r.value.tip, Get(bill, "tip"), Num(0))
      && Defaulted(r.value.rushEtaIncrement, Get(order, "rush_eta_increment"), Num(0))
      && Defaulted(r.value.wposOrder, Get(order, "wpos_order"), Bool(false))
      && Defaulted(r.value.kountaOrder, Get(order, "kounta_order"), Bool(false))
      && Defaulted(r.value.abacusOrder, Get(order, "abacus_order"), Bool(false))
      && Defaulted(r.value.autoPrinted, Get(order, "auto_printed"), Arr([]))
      && (r.value.readyIn == Null <==> !Truthy(Get(Get(order, "ready_in"), "timestamp")))
  {
    var bill := Get(order, "bill");
    var total :- Read(bill, "total");
    var payment := Get(order, "payment");
    var readyAt := Get(Get(order, "ready_in"), "timestamp");
    Success(OrderRow(
      Get(order, "_id"), Get(Some(body), "restaurant_id"), Get(c, "_id"), Get(Some(body), "order_type"),
      Get(order, "status"), Get(order, "notes"), Get(order, "number"), Get(order, "timezone"),
      Get(order, "web_url"),
      total, Get(bill, "cart"), OrElse(Get(bill, "discount"), Num(0)), OrElse(Get(bill, "tip"), Num(0)),
      Get(payment, "method"), Get(payment, "status"), Get(payment, "total"),
      if Truthy(readyAt) then readyAt.value else Null,
      Get(order, "delivery_in"), OrElse(Get(order, "rush_eta_increment"), Num(0)),
      OrElse(Get(order, "wpos_order"), Bool(false)), OrElse(Get(order, "kounta_order"), Bool(false)),
      OrElse(Get(order, "abacus_order"), Bool(false)), OrElse(Get(order, "auto_printed"), Arr([]))))
  }

  function ConfigOf(orderId: Field, config: Field): ConfigRow {
    ConfigRow(
      orderId, Get(config, "due"), Get(config, "lat"), Get(config, "lng"),
      Get(config, "date"), Get(config, "time"), Get(config, "zone"), Get(config, "table"),
      Get(config, "source"), Get(config, "service"), Get(config, "distance"),
      Get(config, "is_limit"), Get(config, "confirmed"), Get(config, "destination"),
      Get(config, "driving_time"), Get(config, "destination_misc"), Get(config, "number_of_people"))
  }

  function CheckoutFieldOf(orderId: Field, field: Value): Result<Row, string> {
    var f := Some(field);
    var id :- Read(f, "id");
    var question := Get(f, "question");
    Success(CheckoutField(CheckoutFieldRow(
      orderId, id, Get(f, "type"), Get(question, "label"), Get(question, "description"),
      Get(f, "answer"))))
  }

  function TaxOf(orderId: Field, tax: Value): Result<Row, string> {
    var t := Some(tax);
    var id :- Read(t, "_id");
    Success(Tax(TaxRow(id, orderId, Get(t, "name"), Get(t, "rate"), Get(t, "amount"))))
  }

  /** Building a dish row throws exactly for a null dish; the row carries
      the order id, keeps truthy `notes`, `tags` and age-verification flag,
      and defaults them to "", the empty list and false. */
  function DishOf(orderId: Field, dish: Value): (r: Result<DishRow, string>)
    ensures r.Failure? <==> dish.Null?
    ensures r.Success? ==>
      && r.value.id == Get(Some(dish), "_id")
      && r.value.orderId == orderId
      && r.value.quantity == Get(Some(dish), "qty")
      && Defaulted(r.value.notes, Get(Some(dish), "notes"), Str(""))
      && Defaulted(r.value.tags, Get(Some(dish), "tags"), Arr([]))
      && Defaulted(r.value.requireAgeVerification, Get(Some(dish), "require_age_verification"), Bool(false))
  {
    var d := Some(dish);
    var id :- Read(d, "_id");
    Success(DishRow(
      id, orderId, Get(d, "name"), Get(d, "price"), Get(d, "qty"),
      OrElse(Get(d, "notes"), Str("")), Get(d, "menu_id"), Get(d, "subtitle"),
      Get(d, "base_price"), Get(d, "price_type"), Get(d, "category_id"),
      Get(d, "display_name"), OrElse(Get(d, "require_age_verification"), Bool(false)),
      Get(d, "line_id"), Get(d, "type"), OrElse(Get(d, "tags"), Arr([]))))
  }

  function IngredientOf(dishId: Field, ingredient: Value): Result<Row, string> {
    var i := Some(ingredient);
    var id :- Read(i, "_id");
    Success(Ingredient(IngredientRow(dishId, id, Get(i, "name"), Get(i, "active"))))
  }

  /** An option row: its own id, name, price, quantity and status, and the
      presentation settings of the option set it belongs to. Building it
      throws exactly for a null option; price and quantity keep a truthy
      value and default to 0 and 1 (so a zero quantity becomes 1). */
  function OptionOf(dishId: Field, optionSet: Field, option: Value): (r: Result<OptionRow, string>)
    ensures r.Failure? <==> option.Null?
    ensures r.Success? ==>
      && r.value.id == Get(Some(option), "_id")
      && r.value.dishId == dishId
      && r.value.optionSetId == Get(optionSet, "_id")
      && Defaulted(r.value.price, Get(Some(option), "price"), Num(0))
      && Defaulted(r.value.quantity, Get(Some(option), "quantity"), Num(1))
      && (Get(Some(option), "quantity") == Some(Num(0)) ==> r.value.quantity == Num(1))
      && Defaulted(r.value.conditions, Get(optionSet, "conditions"), Null)
      && r.value.displayName == Get(optionSet, "display_name")
      && r.value.variablePriceRef == Get(optionSet, "variable_price_ref")
      && Defaulted(r.value.usingPoints, Get(optionSet, "using_points"), Bool(false))
      && Defaulted(r.value.incPriceFreeQtyPromo, Get(optionSet, "inc_price_free_qty_promo"), Bool(false))
  {
    var o := Some(option);
    var id :- Read(o, "_id");
    Success(OptionRow(
      id, dishId, Get(optionSet, "_id"), Get(o, "name"),
      OrElse(Get(o, "price"), Num(0)), OrElse(Get(o, "quantity"), Num(1)), Get(o, "status"),
      OrElse(Get(optionSet, "conditions"), Null), Get(optionSet, "display_name"),
      OrElse(Get(optionSet, "using_points"), Bool(false)), Get(optionSet, "variable_price_ref"),
      OrElse(Get(optionSet, "inc_price_free_qty_promo"), Bool(false))))
  }

  function OptionRowOf(dishId: Field, optionSet: Field, option: Value): Result<Row, string> {
    var r :- OptionOf(dishId, optionSet, option);
    Success(Choice(r))
  }

  /** One batch of child rows, written when the source array is non-empty. */
  function Batch(items: seq<Value>, build: Value -> Result<Row, string>): Run {
    if |items| == 0 then Run([], None)
    else
      match MapAll(items, build)
      case Failure(e) => Run([], Some(e))
      case Success(rows) => Run([PutAll(rows)], None)
  }

  // ---------------------------------------------------------------------
  // Processing
  // ---------------------------------------------------------------------

  /** The option sets of one dish, in order: each set's options form one
      batch. Reading `options` of a null set throws. */
  function OptionSetsRun(dishId: Field, sets: seq<Value>): Run
    decreases |sets|
  {
    if |sets| == 0 then Run([], None)
    else
      var s := Some(sets[0]);
      match Read(s, "options")
      case Failure(e) => Run([], Some(e))
      case Success(options) =>
        AndThen(Batch(Elements(options), o => OptionRowOf(dishId, s, o)),
                OptionSetsRun(dishId, sets[1..]))
  }

  /** One dish: its row, then (only when that write succeeded) its
      ingredients and its options. A failed dish write is logged and the
      handler moves on. */
  function DishRun(orderId: Field, dish: Value, reject: Db): Run {
    match DishOf(orderId, dish)
    case Failure(e) => Run([], Some(e))
    case Success(row) =>
      if reject(Dish(row)).Some? then Run([Put(Dish(row))], None)
      else
        var d := Some(dish);
        var children := AndThen(
          Batch(Elements(Get(d, "ingredients")), i => IngredientOf(row.id, i)),
          OptionSetsRun(row.id, Elements(Get(d, "option_sets"))));
        Run([Put(Dish(row))] + children.writes, children.fault)
  }

  /** One step per item, in order (`for ... of` with `await`); the first
      error stops the rest. */
  function Sequence(items: seq<Value>, step: Value -> Run): Run
    decreases |items|
  {
    if |items| == 0 then Run([], None)
    else AndThen(step(items[0]), Sequence(items[1..], step))
  }

  function DishStep(orderId: Field, reject: Db): Value -> Run {
    dish => DishRun(orderId, dish, reject)
  }

  function DishesRun(orderId: Field, dishes: seq<Value>, reject: Db): Run {
    Sequence(dishes, DishStep(orderId, reject))
  }

  /** Everything after the order row: the configuration (whose failure is
      only logged), checkout fields, taxes, dishes, and finally marking the
      log entry processed. */
  function OrderChildrenRun(orderId: Field, order: Field, reject: Db): Run {
    var config := Get(order, "config");
    var configWrites := if Truthy(config) then [Put(Config(ConfigOf(orderId, config)))] else [];
    var rest :=
      AndThen(Batch(Elements(Get(order, "checkout_fields")), f => CheckoutFieldOf(orderId, f)),
      AndThen(Batch(Elements(Get(Get(order, "bill"), "taxes")), t => TaxOf(orderId, t)),
      AndThen(DishesRun(orderId, Elements(Get(order, "dishes")), reject),
              Run([MarkLog(OrderIdIs(orderId), true, None)], None))));
    Run(configWrites + rest.writes, rest.fault)
  }

  function OrderBranch(body: Value, c: Field, order: Field, reject: Db): Run {
    match OrderOf(body, c, order)
    case Failure(e) => Run([], Some(e))
    case Success(row) =>
      if reject(Order(row)).Some? then Run([Put(Order(row))], reject(Order(row)))
      else
        var children := OrderChildrenRun(row.id, order, reject);
        Run([Put(Order(row))] + children.writes, children.fault)
  }

  function BookingBranch(body: Value, c: Field, booking: Field, reject: Db): Run {
    match BookingOf(body, c, booking)
    case Failure(e) => Run([], Some(e))
    case Success(row) =>
      if reject(Booking(row)).Some? then Run([Put(Booking(row))], reject(Booking(row)))
      else Run([Put(Booking(row)), MarkLog(BookingIdIs(row.id), true, None)], None)
  }

  predicate IsBookingEvent(body: Value) {
    Get(Some(body), "event") == Some(Str("booking_new"))
  }

  /** Booking event, else order present, else nothing more. */
  function EventRun(body: Value, c: Field, reject: Db): Run {
    var data := Get(Some(body), "data");
    if IsBookingEvent(body) then BookingBranch(body, c, Get(data, "booking"), reject)
    else if Truthy(Get(data, "order")) then OrderBranch(body, c, Get(data, "order"), reject)
    else Run([], None)
  }

  /** The customer row and what follows it. */
  function CustomerRun(body: Value, reject: Db): Run {
    match CustomerField(body)
    case Failure(e) => Run([], Some(e))
    case Success(c) =>
      match CustomerOf(c)
      case Failure(e) => Run([], Some(e))
      case Success(row) =>
        if reject(Customer(row)).Some? then Run([Put(Customer(row))], reject(Customer(row)))
        else
          var rest := EventRun(body, c, reject);
          Run([Put(Customer(row))] + rest.writes, rest.fault)
  }

  /** The main path of the handler: log, restaurant, customer, then the
      event's rows. Any thrown error stops it. */
  function Process(body: Value, reject: Db): (r: Run)
    ensures |r.writes| >= 1 && r.writes[0] == Put(Log(body))
    ensures r.fault.None? ==>
      && reject(Log(body)).None?
      && !body.Null?
      && !Nullish(Get(Some(body), "data"))
      && !Nullish(Get(Get(Some(body), "data"), "customer"))
  {
    if reject(Log(body)).Some? then Run([Put(Log(body))], reject(Log(body)))
    else
      match RestaurantOf(body)
      case Failure(e) => Run([Put(Log(body))], Some(e))
      case Success(row) =>
        if reject(Restaurant(row)).Some? then
          Run([Put(Log(body)), Put(Restaurant(row))], reject(Restaurant(row)))
        else
          var rest := CustomerRun(body, reject);
          Run([Put(Log(body)), Put(Restaurant(row))] + rest.writes, rest.fault)
  }

  // ---------------------------------------------------------------------
  // The error path
  // ---------------------------------------------------------------------

  function OrderIdOf(payload: Value): Field {
    Get(Get(Get(Some(payload), "data"), "order"), "_id")
  }

  function BookingIdOf(payload: Value): Field {
    Get(Get(Get(Some(payload), "data"), "booking"), "_id")
  }

  /** `data?.order?._id || data?.booking?._id`. */
  function ErrorLogId(payload: Value): Field {
    Or(OrderIdOf(payload), BookingIdOf(payload))
  }

  /** Whether a `webhook_logs` row with this stored payload is addressed by
      the key (a missing path never equals anything). */
  predicate Selects(key: LogKey, payload: Value) {
    match key
    case OrderIdIs(id) => OrderIdOf(payload).Some? && OrderIdOf(payload) == id
    case BookingIdIs(id) => BookingIdOf(payload).Some? && BookingIdOf(payload) == id
    case OrderAndBookingIdAre(id) =>
      OrderIdOf(payload).Some? && OrderIdOf(payload) == id &&
      BookingIdOf(payload).Some? && BookingIdOf(payload) == id
    case OrderOrBookingIdIs(id) =>
      (OrderIdOf(payload).Some? && OrderIdOf(payload) == id) ||
      (BookingIdOf(payload).Some? && BookingIdOf(payload) == id)
  }

  /** The key of the error-path log update as written: both `.eq` filters
      chained, so a row must carry the id as order id AND as booking id. */
  function ErrorLogKeyAsWritten(id: Field): LogKey {
    OrderAndBookingIdAre(id)
  }

  /** The key of the error-path log update as intended: the entry of the
      failed order or booking. */
  function ErrorLogKey(id: Field): LogKey {
    OrderOrBookingIdIs(id)
  }

  /** The error-path update with the given filter: reading `data` of a
      null body throws (and is swallowed); otherwise one update marking the
      addressed entries unprocessed with the error message, when an order
      or booking id is at hand. */
  function ErrorUpdate(payload: Value, message: string, key: Field -> LogKey): (r: seq<Write>)
    ensures |r| <= 1
    ensures |r| == 1 <==> !payload.Null? && Truthy(ErrorLogId(payload))
    ensures forall w :: w in r ==> w == MarkLog(key(ErrorLogId(payload)), false, Some(message))
  {
    if payload.Null? then []
    else
      var id := ErrorLogId(payload);
      if Truthy(id) then [MarkLog(key(id), false, Some(message))] else []
  }

  /** The error-path update as written, the one the handler sends: it
      marks an entry only when the entry carries the failed id both as its
      order id and as its booking id. */
  function ErrorLog(payload: Value, message: string): (r: seq<Write>)
    ensures |r| == 1 <==> !payload.Null? && Truthy(ErrorLogId(payload))
    ensures forall w :: w in r ==>
      && w.MarkLog? && !w.processed && w.error == Some(message)
      && (Selects(w.key, payload) <==> OrderIdOf(payload) == BookingIdOf(payload))
  {
    ErrorUpdate(payload, message, ErrorLogKeyAsWritten)
  }

  /** The error-path update as intended: it marks the log entry of the
      failed request itself. */
  function ErrorLogIntended(payload: Value, message: string): (r: seq<Write>)
    ensures |r| == 1 <==> !payload.Null? && Truthy(ErrorLogId(payload))
    ensures forall w :: w in r ==>
      w.MarkLog? && !w.processed && w.error == Some(message) && Selects(w.key, payload)
  {
    ErrorUpdate(payload, message, ErrorLogKey)
  }

  /** The whole request. `body` is `None` when the request body is not
      JSON; `reread` says whether re-reading the body on the error path
      succeeds. */
  function Handle(body: Option<Value>, reject: Db, reread: bool): (r: Response)
    ensures r.status == 200 || r.status == 500
    ensures r.status == 200 <==> body.Some? && Process(body.value, reject).fault.None?
    ensures body.None? ==> r.writes == []
    ensures body.Some? ==>
      var run := Process(body.value, reject);
      && run.writes <= r.writes
      && (run.fault.None? || !reread ==> r.writes == run.writes)
      && (run.fault.Some? && reread ==> r.writes == run.writes + ErrorLog(body.value, run.fault.value))
  {
    match body
    case None => Response([], 500)
    case Some(b) =>
      var run := Process(b, reject);
      if run.fault.None? then Response(run.writes, 200)
      else Response(run.writes + (if reread then ErrorLog(b, run.fault.value) else []), 500)
  }
}
