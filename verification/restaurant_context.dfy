/** The restaurant context of the signed-in user: the user's memberships
    with their joined restaurant, the selected restaurant, and the loading
    and error state of the last fetch. */
module RestaurantContext {
  import opened Wrappers
  import opened Json

  /** A membership row with its joined `restaurants` record. */
  datatype UserRestaurant = UserRestaurant(
    id: Field, userId: Field, restaurantId: Field, role: Field,
    createdAt: Field, updatedAt: Field, restaurant: Field)

  /** `selected` is the selected restaurant record; `Some(Null)` is the
      initial `null`. */
  datatype Ctx = Ctx(list: seq<UserRestaurant>, selected: Field, loading: bool, error: Option<string>)

  const Initial := Ctx([], Some(Null), true, None)

  /** One returned row, renamed; reading a field of a null row throws. */
  function Transform(item: Value): Result<UserRestaurant, string> {
    var i := Some(item);
    var id :- Read(i, "id");
    Success(UserRestaurant(id, Get(i, "user_id"), Get(i, "restaurant_id"), Get(i, "role"),
      Get(i, "created_at"), Get(i, "updated_at"), Get(i, "restaurants")))
  }

  /** `data.map(transform)`. */
  function Rows(data: Value): Result<seq<UserRestaurant>, string> {
    if data.Null? then Failure(CannotRead(Some(Null), "map"))
    else if !data.Arr? then Failure("data.map is not a function")
    else MapAll(data.items, Transform)
  }

  /** `fetchUserRestaurants`: `user` is the signed-in user's id, `result`
      the query's data or its error message. Without a user nothing
      changes; otherwise loading ends, a failure keeps the list and the
      selection and shows its message, a success lists the transformed
      rows and clears the error, and an existing selection is never
      replaced. */
  function Fetch(ctx: Ctx, user: Option<string>, result: Result<Value, string>): (r: Ctx)
    ensures user.None? ==> r == ctx
    ensures user.Some? ==> !r.loading
    ensures user.Some? && r.error.Some? ==> r.list == ctx.list && r.selected == ctx.selected
    ensures user.Some? && result.Failure? ==> r.error == Some(result.error)
    ensures user.Some? ==>
      (r.error.None? <==> result.Success? && Rows(result.value).Success?)
    ensures user.Some? && r.error.None? ==> Rows(result.value) == Success(r.list)
    ensures Truthy(ctx.selected) ==> r.selected == ctx.selected
  {
    if user.None? then ctx
    else
      var rows := if result.Success? then Rows(result.value) else Failure(result.error);
      match rows
      case Failure(msg) => ctx.(loading := false, error := Some(msg))
      case Success(list) =>
        var selected := if |list| > 0 && !Truthy(ctx.selected) then list[0].restaurant else ctx.selected;
        Ctx(list, selected, false, None)
  }

  /** The effect run when the user changes: a signed-in user's
      restaurants are fetched; signing out empties the list and clears the
      selection, leaving loading and error as they were. */
  function UserChanged(ctx: Ctx, user: Option<string>, result: Result<Value, string>): (r: Ctx)
    ensures user.Some? ==> !r.loading
    ensures user.None? ==>
      r.list == [] && r.selected == Some(Null) && r.loading == ctx.loading && r.error == ctx.error
  {
    if user.Some? then Fetch(ctx, user, result) else ctx.(list := [], selected := Some(Null))
  }

  /** Choosing a restaurant sets exactly that selection and leaves the
      list, loading and error alone. */
  function Select(ctx: Ctx, restaurant: Value): (r: Ctx)
    ensures r.selected == Some(restaurant)
    ensures r.list == ctx.list && r.loading == ctx.loading && r.error == ctx.error
  {
    ctx.(selected := Some(restaurant))
  }

  // ---------------------------------------------------------------------
  // Properties
  // ---------------------------------------------------------------------

  /** A successful fetch replaces the list with one entry per returned
      row, in order, each carrying its joined restaurant; it selects the
      first entry's restaurant when nothing was selected and keeps any
      selection otherwise; the error is cleared and loading has ended. */
  lemma FetchSuccess(ctx: Ctx, user: string, items: seq<Value>)
    requires forall i :: 0 <= i < |items| ==> !items[i].Null?
    ensures var c := Fetch(ctx, Some(user), Success(Arr(items)));
      && |c.list| == |items|
      && (forall i :: 0 <= i < |items| ==>
            c.list[i].id == Get(Some(items[i]), "id") &&
            c.list[i].restaurant == Get(Some(items[i]), "restaurants"))
      && (|items| > 0 && !Truthy(ctx.selected) ==> c.selected == Get(Some(items[0]), "restaurants"))
      && (|items| == 0 || Truthy(ctx.selected) ==> c.selected == ctx.selected)
      && c.error.None? && !c.loading
  {
    assert forall i :: 0 <= i < |items| ==> Transform(items[i]).Success?;
  }

  /** Fetching the same data again changes nothing more. */
  lemma FetchIdempotent(ctx: Ctx, user: Option<string>, result: Result<Value, string>)
    ensures Fetch(Fetch(ctx, user, result), user, result) == Fetch(ctx, user, result)
  {
  }

  /** Selecting sets exactly the given restaurant and keeps the list; a
      later fetch keeps that selection. */
  lemma SelectKept(ctx: Ctx, restaurant: Value, user: Option<string>, result: Result<Value, string>)
    requires Truthy(Some(restaurant))
    ensures Select(ctx, restaurant).selected == Some(restaurant)
    ensures Select(ctx, restaurant).list == ctx.list
    ensures Fetch(Select(ctx, restaurant), user, result).selected == Some(restaurant)
  {
  }
}
