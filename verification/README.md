# Restaurant staff app: a verified model of its decision and list logic

The app is a restaurant-staff client. It is backed by a hosted database and
two serverless functions. This project models the parts that hold real
logic, as pure Dafny functions over immutable values:

- **Webhook ingestion** (`Webhook`, `WebhookFacts`). An order or booking
  webhook is logged, then normalised into restaurant, customer, booking,
  order, configuration, checkout-field, tax, dish, ingredient and option rows.
  - The database is a parameter. `reject` gives the error a write fails with.
  - The handler's effect is the sequence of writes it issues.
  - Writes awaited together with `Promise.all` form one batch.
- **User search** (`SearchUsers`). The search term is validated and
  lower-cased, then matched case-insensitively against emails and profile
  names.
- **Notification bell** (`NotificationBell`). A newest-first feed capped at
  50 entries, and the unread indicator.
- **Staff waitlist** (`RestaurantWaitlist`). The initial load, and realtime
  inserts and updates folded into the list.
- **Guest waitlist form** (`CustomerWaitlist`). Required fields, the
  party-size check, the insert, and clearing the form.
- **Campaign editing** (`CampaignEdit`). Which fields the update sends, and
  what saving reports.
- **Restaurant context** (`RestaurantContext`). The membership list, the
  default selection, and sign-out.
- **Biometric sign-in** (`AuthContext`). A decision tree over an abstract
  secure key-value store.

Shared helpers:

- `Json` models JavaScript values with truthiness, `||`, optional chaining
  (`Get`) and strict property access (`Read`). `Read` fails with the
  TypeError's message on `null` or `undefined`.
- `Text` models `split`/`join`, ASCII `toLowerCase`, `includes`, `parseInt`
  and decimal rendering.
- `Wrappers` holds `Option` and `Result`.

## Model

| member | source | states |
|---|---|---|
| Json.Read | supabase/functions/webhook/index.ts:51 | A strict property read throws exactly on null or undefined; otherwise it reads like optional chaining |
| Json.MapAll | supabase/functions/webhook/index.ts:194-207 | A `map` with a throwing callback fails exactly when some element's callback throws; otherwise it yields one result per element, in order |
| Text.JoinSplit | supabase/functions/webhook/index.ts:67-68 | Joining the pieces of a split with the same separator gives back the original name |
| Webhook.NameSplit | supabase/functions/webhook/index.ts:67-68 | The first name is the space-free prefix before the first space. First + " " + last is the name when it has a space; otherwise the last name is empty |
| WebhookFacts.CustomerFields | supabase/functions/webhook/index.ts:55-68 | Name, phone and email take the truthy `details` value, else the top-level one. `zip` defaults to "". Both name parts are empty without a name |
| Webhook.RestaurantOf | supabase/functions/webhook/index.ts:35-48 | The restaurant row throws exactly for a null body, because `restaurant_id` is read strictly after the log insert. The id, name and address are the body's fields, and a missing one stays undefined |
| Webhook.CustomerField | supabase/functions/webhook/index.ts:51 | Reading `data.customer` throws exactly when the body is null or has no `data`; otherwise it yields the customer, which may be missing |
| Webhook.CustomerOf | supabase/functions/webhook/index.ts:51-68 | Building the customer row throws exactly when the customer is missing, or its chosen name is a truthy non-string. The row carries the customer id |
| Webhook.BookingOf | supabase/functions/webhook/index.ts:89-108 | The booking row throws exactly when the booking or its config is missing. It carries the booking id, the body's restaurant id, the customer id and the config date |
| Webhook.OrderOf | supabase/functions/webhook/index.ts:126-151 | The order row throws exactly when the bill is missing. Discount, tip and rush increment keep a truthy value and are 0 otherwise; the integration flags keep a truthy value and are false otherwise; `auto_printed` keeps a truthy value and is [] otherwise. `ready_in` is null exactly without a timestamp |
| Webhook.OptionOf | supabase/functions/webhook/index.ts:289-304 | An option row throws exactly for a null option. Price and quantity keep a truthy value and are 0 and 1 otherwise, so a zero quantity becomes 1. Conditions, using-points and the free-quantity flag fall back to null and false the same way; display name and price reference are copied from the option set, and the row carries the dish id |
| Webhook.DishOf | supabase/functions/webhook/index.ts:237-255 | A dish row throws exactly for a null dish. It carries the order id and quantity; notes, tags and age verification keep a truthy value and are "", [] and false otherwise |
| WebhookFacts.ChildrenCarryParent | supabase/functions/webhook/index.ts:162-315 | Every row written below an order carries its parent's id. Config, checkout-field, tax and dish rows carry the order id; ingredient and option rows carry the id of one of the order's dishes |
| WebhookFacts.BranchChoice | supabase/functions/webhook/index.ts:88-121 | `booking_new` writes no order-side table even when an order is present, and writes a booking row when it succeeds. Other events write no booking. Without an order, only log, restaurant and customer rows are written |
| WebhookFacts.BookingSucceeds | supabase/functions/webhook/index.ts:88-110 | A booking event that completes has written a row to the bookings table |
| WebhookFacts.RejectedDishSkipped | supabase/functions/webhook/index.ts:234-265 | A rejected dish write adds only its own row. Its ingredients and options are skipped, and the later dishes run as if it were absent |
| WebhookFacts.SequenceSplit | supabase/functions/webhook/index.ts:235-316 | Sequential awaited steps split around any step that completes, when the steps before it complete: the writes come before, then its own, then those after, and only the later steps decide the outcome |
| WebhookFacts.EarlyFailureAborts | supabase/functions/webhook/index.ts:25-85 | A failed log, restaurant or customer write ends the request with 500 before any booking or order-side row |
| WebhookFacts.ConfigFailureOnlyLogged | supabase/functions/webhook/index.ts:162-190 | Two databases that differ only on order-configuration writes produce the same writes and status |
| Webhook.Process | supabase/functions/webhook/index.ts:24-85 | The log entry is always written first. A main path that completes had the log write accepted, a non-null body, and a present `data` and customer |
| Webhook.Handle | supabase/functions/webhook/index.ts:20-366 | The status is 200 exactly when the main path completes, else 500. The writes are the main path's, followed on failure by the error-path update when the body can be re-read; an unparseable body writes nothing |
| WebhookFacts.HandleRows | supabase/functions/webhook/index.ts:336-365 | The error path sends no row; the request's rows are those of the main path |
| Webhook.ErrorLog | supabase/functions/webhook/index.ts:340-354 | The update as written is issued exactly for a non-null body with a truthy order or booking id. It marks unprocessed with the message, and it selects the failed request's own entry exactly when that entry's order and booking ids are equal |
| Webhook.ErrorLogIntended | supabase/functions/webhook/index.ts:340-354 | The corrected form of this update (see Findings), with the two filters read as OR. It is issued in the same cases as the update as written and marks the failed request's own log entry unprocessed, with the message |
| WebhookFacts.ErrorLogMarksOwnEntry | supabase/functions/webhook/index.ts:342-353 | The error id is the order id if truthy, else the booking id. The intended update is issued exactly when the update as written is. The intended one selects the request's own entry; the one as written filters on order id AND booking id equal to the error id |
| WebhookFacts.ErrorLogAsWrittenMissesOrders | supabase/functions/webhook/index.ts:344-353 | The update's filter as written addresses no entry of an order webhook that has no booking |
| WebhookFacts.ErrorLogAsWrittenExample | supabase/functions/webhook/index.ts:336-353 | A concrete order webhook without a customer fails with 500. The handler's update uses the filter as written, which selects no entry of that request. The intended update selects its log entry |
| SearchUsers.Search | supabase/functions/search-users/index.ts:24-85 | Status is 400 exactly for a missing or empty term, and 500 exactly for a valid term with a failed lookup, each with its own message. Otherwise it is 200 with the shaped entries of the users matching the lower-cased term, in list order |
| SearchUsers.SearchListsMatches | supabase/functions/search-users/index.ts:24-85 | A successful search lists every user whose email or profile name contains the lower-cased term, and every entry listed is the shape of such a user |
| SearchUsers.CaseInsensitive | supabase/functions/search-users/index.ts:24 | A term and its lower-case form give the same response |
| SearchUsers.EmailCaseIgnored | supabase/functions/search-users/index.ts:54-55 | Emails equal up to letter case match alike |
| Text.Contains | supabase/functions/search-users/index.ts:54-55 | `includes` holds exactly when the term occurs at some index |
| SearchUsers.FindProfile | supabase/functions/search-users/index.ts:52 | The profile found has the user's id and is the first one with it; none is found exactly when no profile has it |
| SearchUsers.Shape | supabase/functions/search-users/index.ts:58-62 | An entry has the user's id and email (or ""). Its full name is the profile's non-empty full name, else null |
| SearchUsers.FilterMembers | supabase/functions/search-users/index.ts:50-57 | Every matching user is listed, and every entry is the shape of a matching user |
| SearchUsers.FilterAppend | supabase/functions/search-users/index.ts:50-62 | The entries of consecutive user slices are concatenated, so the response keeps the user order |
| SearchUsers.FilterOne | supabase/functions/search-users/index.ts:50-62 | A single user gives one shaped entry if it matches and none otherwise |
| SearchUsers.EmailMatchListed | supabase/functions/search-users/index.ts:54 | A user whose lower-cased email starts with the term is listed, with its email |
| NotificationBell.Add | components/notifications/NotificationBell.tsx:138-140 | The new notification is first. The rest is the old list cut to 49. Length is at most 50, and grows by one below the cap |
| NotificationBell.Step | components/notifications/NotificationBell.tsx:50-149 | An insert lights the indicator and prepends its notification. Press opens the list and clears the indicator. Close only hides. Only inserts change the feed |
| NotificationBell.Run | components/notifications/NotificationBell.tsx:50-149 | Over any event sequence the feed stays within 50 entries, and a sequence without inserts neither changes the feed nor lights the indicator |
| NotificationBell.FeedIsNewest | components/notifications/NotificationBell.tsx:138-140 | After any event sequence, the feed is the 50 newest arrivals, newest first |
| NotificationBell.UnreadSinceLastPress | components/notifications/NotificationBell.tsx:51-145 | The indicator is lit exactly when some insert came after the last press |
| NotificationBell.NotificationText | components/notifications/NotificationBell.tsx:57 | The order subtitle renders the number as a template literal does: a missing number reads "Order #undefined", null reads "Order #null", a string appears as is and a number as its decimal numeral |
| NotificationBell.OrderSubtitlesDiffer | components/notifications/NotificationBell.tsx:57 | Two orders with different numeric numbers get different subtitles |
| NotificationBell.BookingTextUndefined | components/notifications/NotificationBell.tsx:96 | A booking row without a party size or time reads "undefined people at undefined" |
| RestaurantWaitlist.Apply | components/restaurant/RestaurantWaitlist.tsx:44-52 | An insert appends its entry after the old ones. An update leaves exactly the entries whose id differs, so none carries the old id. A delete changes nothing |
| RestaurantWaitlist.RemoveAppend | components/restaurant/RestaurantWaitlist.tsx:50 | Removal distributes over concatenation, so the survivors keep their order |
| RestaurantWaitlist.RemoveAbsent | components/restaurant/RestaurantWaitlist.tsx:50 | An update for an id no entry has leaves the list unchanged |
| RestaurantWaitlist.UpdateWithoutId | components/restaurant/RestaurantWaitlist.tsx:48-50 | An update whose payload lacks the old id removes nothing |
| RestaurantWaitlist.RemoveIdempotent | components/restaurant/RestaurantWaitlist.tsx:50 | A repeated update for the same id changes nothing more |
| RestaurantWaitlist.InsertThenUpdate | components/restaurant/RestaurantWaitlist.tsx:45-50 | Inserting an entry and then updating its id gives the old list minus that id |
| RestaurantWaitlist.Load | components/restaurant/RestaurantWaitlist.tsx:61-78 | Loading ends either way. Null data gives the empty list, other data is listed as returned. A failure keeps the list and shows the message |
| RestaurantWaitlist.Seated | components/restaurant/RestaurantWaitlist.tsx:80-91 | Marking seated never changes the list; a failure shows its message |
| RestaurantWaitlist.LoadIdempotent | components/restaurant/RestaurantWaitlist.tsx:61-78 | Loading the same result twice gives the state of loading it once |
| RestaurantWaitlist.SeatThenUpdate | components/restaurant/RestaurantWaitlist.tsx:44-91 | Seating a party and then applying the realtime update leaves exactly the other parties |
| CustomerWaitlist.GuestCount | components/restaurant/CustomerWaitlist.tsx:31-35 | A party size is accepted exactly when base-10 `parseInt` yields a number of at least 1 |
| Text.ParseDecimalNaN | components/restaurant/CustomerWaitlist.tsx:31-32 | Base-10 `parseInt` is NaN exactly when no digit follows the leading space and sign |
| CustomerWaitlist.RequiredFirst | components/restaurant/CustomerWaitlist.tsx:26-29 | An empty name or party size gives the required-fields message, whatever the party size holds. Nothing is inserted or cleared |
| CustomerWaitlist.InvalidGuests | components/restaurant/CustomerWaitlist.tsx:31-35 | With both fields filled, a NaN or sub-1 party size gives the invalid-number message, and nothing is inserted |
| CustomerWaitlist.Submit | components/restaurant/CustomerWaitlist.tsx:25-64 | A row is inserted exactly for a valid submission. It holds the typed name, email and phone unchecked and the parsed party size. Success clears the form; failure keeps the fields and shows the message. A rejected submission only sets the required-fields or invalid-number message |
| CustomerWaitlist.TypedCount | components/restaurant/CustomerWaitlist.tsx:31-48 | A party size typed as the numeral of n is inserted as exactly n when n is at least 1, and rejected otherwise. In JavaScript this holds for safe integers (see Text.IntToString under "## Left out") |
| Text.ParseIntToString | components/restaurant/CustomerWaitlist.tsx:31 | `parseInt(String(n), 10)` is n for every integer n the model holds; numbers are unbounded integers, so this is the JavaScript behaviour for safe integers below 1e21 in magnitude (see "## Left out") |
| CampaignEdit.BuildUpdates | components/marketing/CampaignEditModal.tsx:42-54 | The discount is sent iff amount-off or percentage-off, and the limit iff limited-number. Both dates are sent, verbatim, iff date-range. The limit and the dates are never sent together |
| CampaignEdit.EmptyUpdate | components/marketing/CampaignEditModal.tsx:42-54 | A free-item or buy-one-get-one campaign without limits sends an empty update |
| CampaignEdit.Save | components/marketing/CampaignEditModal.tsx:37-70 | On success, `onUpdate` and then `onClose` are called. On failure neither is called and the error is shown. Loading has ended, and the update sent is the same either way |
| CampaignEdit.NumberText | components/marketing/CampaignEditModal.tsx:30-31 | A number field starts empty exactly when the value is missing; otherwise its text reads back as the value with `parseInt`, with or without a radix. Empty text reads as NaN. In JavaScript this holds for safe integers (see Text.IntToString under "## Left out") |
| CampaignEdit.InitialForm | components/marketing/CampaignEditModal.tsx:30-33 | The fields start from the campaign's values as decimal text that reads back as them, or "" when absent. In JavaScript this holds for safe integers (see Text.IntToString under "## Left out") |
| CampaignEdit.SaveUnchanged | components/marketing/CampaignEditModal.tsx:30-54 | Saving the form as opened sends back the campaign's own limit and dates. In JavaScript this holds for safe integers (see Text.IntToString under "## Left out") |
| Text.ParseIntToStringNoRadix | components/marketing/CampaignEditModal.tsx:50 | `parseInt(String(n))` with no radix is n for every integer n the model holds, as in JavaScript for safe integers below 1e21 in magnitude (see "## Left out") |
| RestaurantContext.Fetch | contexts/RestaurantContext.tsx:24-75 | Without a user nothing changes. Otherwise loading ends; a failed query or transform keeps the list and the selection and shows the message; a success lists the transformed rows and clears the error. An existing selection is never replaced |
| RestaurantContext.FetchSuccess | contexts/RestaurantContext.tsx:51-69 | The list gets one entry per row, in order, with the joined restaurant. With no prior selection, the first restaurant is selected; an existing selection stays. The error is cleared and loading ends |
| RestaurantContext.FetchIdempotent | contexts/RestaurantContext.tsx:24-75 | Fetching the same data twice gives the state of fetching it once |
| RestaurantContext.UserChanged | contexts/RestaurantContext.tsx:78-85 | A signed-in user's restaurants are fetched. When the user becomes null, the list empties and the selection becomes null |
| RestaurantContext.Select | contexts/RestaurantContext.tsx:88-90 | Selecting sets exactly that restaurant and keeps the list, loading flag and error |
| RestaurantContext.SelectKept | contexts/RestaurantContext.tsx:88-90 | Selecting sets exactly that restaurant and keeps the list; a later fetch keeps the selection |
| AuthContext.SignInEarlyExits | contexts/AuthContext.tsx:140-179 | Web, not enabled (checked before any prompt), failed prompt and missing credentials each return their own message and leave the state untouched |
| AuthContext.SignInWithStoredCredentials | contexts/AuthContext.tsx:157-173 | Unreadable credentials or a throwing sign-in remove the enabled key and token, keep the credentials and ask to re-enable. Otherwise the sign-in's own error is returned |
| AuthContext.SignInWithBiometrics | contexts/AuthContext.tsx:140-183 | A biometric sign-in either leaves the store alone or removes exactly the enabled key and refresh token. A sign-in without error left the state untouched after trying credentials, and any credentials tried are the parsed stored text |
| AuthContext.Enable | contexts/AuthContext.tsx:107-126 | A successful prompt stores "true" and the credentials and sets the flag, touching no other key. Otherwise, and on web, nothing changes |
| AuthContext.Disable | contexts/AuthContext.tsx:128-138 | Disabling removes the enabled key and refresh token, keeps the credentials and clears the flag. On web nothing changes |
| AuthContext.EnableThenSignIn | contexts/AuthContext.tsx:107-169 | After enabling, a biometric sign-in tries exactly the saved credentials, when the stored text reads back as them |
| AuthContext.DisableThenSignIn | contexts/AuthContext.tsx:128-149 | After disabling, a biometric sign-in stops at "not enabled" |
| AuthContext.Check | contexts/AuthContext.tsx:43-57 | On a device the start-up check makes the flag mirror the stored enabled key and records whether the hardware is usable; the store is only read. On web nothing changes |
| AuthContext.ConsistencyKept | contexts/AuthContext.tsx:43-138 | The start-up check makes the flag mirror the stored enabled key, and every operation keeps it so |
| AuthContext.OnAuthChange | contexts/AuthContext.tsx:59-73 | The session is taken over. The refresh token is stored exactly on `SIGNED_IN` with a non-empty token and biometrics enabled, and no other key changes |
| AuthContext.SignOut | contexts/AuthContext.tsx:100-105 | Sign-out on a device removes only the refresh token. On web nothing changes |

## Left out

- Network, database and platform calls are inputs, not code:
  - webhook writes answer through `reject`;
  - lookups, inserts and updates are a `Result`/`Option` outcome;
  - the biometric prompt, `JSON.parse`, `JSON.stringify` and the password sign-in are parameters;
  - the secure store is a map.
- Not modelled: request routing, CORS and `OPTIONS` handling, response headers, environment variables.
- Not modelled: realtime channel set-up and tear-down, the per-restaurant subscription filter, and native notification scheduling.
- Only the first page of `listUsers` is modelled. The auth user list is taken as given.
- Clock-dependent columns are left out: `created_date`, `modified_date` and notification timestamps.
- Webhook.OrderOf: does not model two RangeErrors of `toISOString()`, so "throws exactly when the bill is missing" leaves them out. One is `new Date(order.created)` for a missing or unparseable creation date (supabase/functions/webhook/index.ts:152). The other is `new Date(order.ready_in.timestamp)` for a truthy timestamp that does not parse (index.ts:145). The order row keeps the platform's `ready_in` timestamp instead of its ISO rendering. Date parsing is not modelled.
- Webhook.BookingOf: does not model the RangeError of `new Date(booking.created).toISOString()`, for the same reason.
- Json.Elements: a value that is not an array but has a positive `length` is read as holding no elements. Such a value is a non-empty string, or an object with a numeric `length` field. The source behaves differently at each use site:
  - `checkout_fields` (supabase/functions/webhook/index.ts:194), `taxes` (index.ts:214), `ingredients` (index.ts:269) and `options` (index.ts:289) go through `.map`, which throws "… .map is not a function" for both kinds of value;
  - `dishes` (index.ts:235) and `option_sets` (index.ts:287) go through `for...of`, which walks a string one character at a time and throws "… is not iterable" for such an object.
- Webhook.Handle: whether re-reading the request body on the error path succeeds is an input (`reread`), and both cases are modelled. `await req.json()` (supabase/functions/webhook/index.ts:22) consumes the body. Under the Fetch standard, `req.clone()` of a consumed request (index.ts:341) then throws a TypeError, which the inner `catch` (index.ts:355-357) swallows. In practice `reread` is therefore false and the error-path update is probably never sent.
- Database-side effects are not modelled:
  - how the database applies upserts and log updates;
  - which rows `Selects` matches in JSONB paths;
  - the outcome of batched writes, which the handler never inspects.
- Json.Value: numbers are integers. Floating point is not modelled, so prices, discounts and `String()` of non-integral numbers are not modelled.
- Text.IntToString: renders every integer as its plain decimal numeral, and the model's integers are unbounded. JavaScript numbers are doubles: integers beyond 2^53 lose precision (`parseInt("9007199254740993", 10)` is 9007199254740992), and `String` switches to exponent form from 1e21 (`parseInt(String(1e21), 10)` is 1). Neither behaviour is modelled, so the read-back properties (Text.ParseIntToString, Text.ParseIntToStringNoRadix, CustomerWaitlist.TypedCount, CampaignEdit.NumberText, CampaignEdit.InitialForm, CampaignEdit.SaveUnchanged) hold in JavaScript only for safe integers.
- CampaignEdit.BuildUpdates: the discount is sent as the text whose `parseFloat` value the source sends. `parseFloat` is not modelled.
- CampaignEdit.InitialForm: discount values are integers. `toString()` of fractional discounts is not modelled.
- Text.Lower: lower-cases ASCII letters only. Unicode case mapping is not modelled.
- Each handler is modelled by its final state:
  - intermediate renders are not modelled, such as `loading` being true while a request runs;
  - interleavings of concurrent handlers are not modelled.
- AuthContext: the `isMounted` guards are taken as true (the component is mounted).
- AuthContext: the listener's `biometricsEnabled` is the current flag. The source re-subscribes the listener whenever the flag changes.
- AuthContext: `signIn` with a password, `hasHardwareAsync`/`isEnrolledAsync` internals, and store reads that throw are not modelled.
- RestaurantContext: the fetch reads the current selection. In the source a stale closure could see an older one.
- UI rendering, navigation and styling are not modelled.

## Findings

| source | as written | input that shows it | evidently intended | confidence | as-written member | corrected member |
|---|---|---|---|---|---|---|
| supabase/functions/webhook/index.ts:352-353 | The error-path log update chains `.eq('payload->data->order->_id', id).eq('payload->data->booking->_id', id)`. Chained filters must both hold, so only a payload carrying the id as both order id and booking id is updated | An order webhook `{"data":{"order":{"_id":"o1"}}}` that fails (it has no customer). Its own log entry has no booking id, so the update matches nothing and the entry is never marked with the error | Mark the log entry whose order id or booking id equals the id | high (chained filters combine with AND), not executed | Webhook.ErrorLog (the update `Webhook.Handle` sends, keyed by Webhook.ErrorLogKeyAsWritten), WebhookFacts.ErrorLogAsWrittenMissesOrders, WebhookFacts.ErrorLogAsWrittenExample | Webhook.ErrorLogIntended (keyed by Webhook.ErrorLogKey), WebhookFacts.ErrorLogMarksOwnEntry |
