/** The user-search function: a search term taken from the query string is
    lower-cased and matched as a substring against each auth user's email
    and against the full name of the profile with the same id. The auth
    user list and the profile list are the results of the two lookups. */
module SearchUsers {
  import opened Wrappers
  import Text

  datatype AuthUser = AuthUser(id: string, email: Option<string>)

  /** A profile row; `fullName` is `None` when the column is null. */
  datatype Profile = Profile(id: string, fullName: Option<string>)

  /** One entry of the response; `fullName` is `None` for JSON null. */
  datatype Match = Match(id: string, email: string, fullName: Option<string>)

  datatype Body = Error(message: string) | Users(users: seq<Match>)

  datatype Response = Response(status: int, body: Body)

  const TermRequired := "Search term is required"
  const SearchFailed := "Failed to search users"

  /** `url.searchParams.get('search')?.toLowerCase()`. */
  function SearchTerm(search: Option<string>): (r: Option<string>)
    ensures r.Some? <==> search.Some?
    ensures r.Some? ==> |r.value| == |search.value| && Text.Lower(r.value) == r.value
  {
    match search
    case None => None
    case Some(s) => Some(Text.Lower(s))
  }

  /** `profiles?.find(p => p.id === id)` on a non-null list: the first
      profile with that id. */
  function FindProfile(profiles: seq<Profile>, id: string): (r: Option<Profile>)
    ensures r.None? <==> forall k :: 0 <= k < |profiles| ==> profiles[k].id != id
    ensures r.Some? ==> r.value.id == id && r.value in profiles
    ensures r.Some? ==>
      exists k :: 0 <= k < |profiles| && profiles[k] == r.value && forall j :: 0 <= j < k ==> profiles[j].id != id
  {
    if |profiles| == 0 then None
    else if profiles[0].id == id then Some(profiles[0])
    else
      assert forall k :: 1 <= k < |profiles| ==> profiles[k] == profiles[1..][k - 1];
      FindProfile(profiles[1..], id)
  }

  /** The profile of user `id`; a null profile list holds none. */
  function ProfileOf(profiles: Option<seq<Profile>>, id: string): Option<Profile> {
    if profiles.None? then None else FindProfile(profiles.value, id)
  }

  /** The filter predicate: the lower-cased email, or the lower-cased full
      name of the user's profile, contains the term. */
  predicate Matches(u: AuthUser, term: string, profiles: Option<seq<Profile>>) {
    var p := ProfileOf(profiles, u.id);
    || (u.email.Some? && Text.Contains(Text.Lower(u.email.value), term))
    || (p.Some? && p.value.fullName.Some? && Text.Contains(Text.Lower(p.value.fullName.value), term))
  }

  /** The response entry of a user: `email || ''` and
      `profile?.full_name || null`. */
  function Shape(u: AuthUser, profiles: Option<seq<Profile>>): (m: Match)
    ensures m.id == u.id
    ensures u.email.Some? ==> m.email == u.email.value
    ensures u.email.None? ==> m.email == ""
    ensures m.fullName.Some? <==>
      ProfileOf(profiles, u.id).Some? && ProfileOf(profiles, u.id).value.fullName.Some? &&
      ProfileOf(profiles, u.id).value.fullName.value != ""
    ensures m.fullName.Some? ==> m.fullName == ProfileOf(profiles, u.id).value.fullName
  {
    var p := ProfileOf(profiles, u.id);
    var name := if p.Some? && p.value.fullName.Some? && p.value.fullName.value != "" then p.value.fullName else None;
    // An empty email is already the empty string `|| ''` falls back to.
    Match(u.id, u.email.GetOr(""), name)
  }

  /** `xs.filter(keep).map(f)`. */
  function Select<T, U>(xs: seq<T>, keep: T -> bool, f: T -> U): (r: seq<U>)
    ensures |r| <= |xs|
  {
    if |xs| == 0 then []
    else (if keep(xs[0]) then [f(xs[0])] else []) + Select(xs[1..], keep, f)
  }

  /** `users.filter(matches).map(shape)`. */
  function Filter(users: seq<AuthUser>, term: string, profiles: Option<seq<Profile>>): (r: seq<Match>)
    ensures |r| <= |users|
  {
    Select(users, u => Matches(u, term, profiles), u => Shape(u, profiles))
  }

  /** The request: a missing or empty term is a 400 before any lookup; a
      failed lookup with a valid term is a 500 with a generic message;
      otherwise a 200 with the filtered users. */
  function Search(search: Option<string>, listed: Result<seq<AuthUser>, string>,
                  profiles: Result<Option<seq<Profile>>, string>): (r: Response)
    ensures r.status == 400 <==> search.None? || search.value == ""
    ensures r.status == 400 ==> r.body == Error(TermRequired)
    ensures r.status == 500 <==>
      search.Some? && search.value != "" && (listed.Failure? || profiles.Failure?)
    ensures r.status == 500 ==> r.body == Error(SearchFailed)
    ensures r.status == 200 <==> r.body.Users?
    ensures r.status == 200 ==> |r.body.users| <= |listed.value|
    ensures r.status == 200 ==>
      r.body.users == Filter(listed.value, Text.Lower(search.value), profiles.value)
  {
    var term := SearchTerm(search);
    assert search.Some? && search.value != "" ==> |term.value| > 0;
    if term.None? || term.value == "" then Response(400, Error(TermRequired))
    else if listed.Failure? || profiles.Failure? then Response(500, Error(SearchFailed))
    else Response(200, Users(Filter(listed.value, term.value, profiles.value)))
  }

  // ---------------------------------------------------------------------
  // Properties
  // ---------------------------------------------------------------------

  /** Matching ignores case: a term and its lower-case form give the same
      response. */
  lemma CaseInsensitive(s: string, listed: Result<seq<AuthUser>, string>,
                        profiles: Result<Option<seq<Profile>>, string>)
    ensures Search(Some(s), listed, profiles) == Search(Some(Text.Lower(s)), listed, profiles)
  {
    Text.LowerIdempotent(s);
  }

  /** The email and the full name are compared in lower case, so users
      whose emails differ only in letter case are matched alike. */
  lemma EmailCaseIgnored(id: string, e1: string, e2: string, term: string, profiles: Option<seq<Profile>>)
    requires Text.Lower(e1) == Text.Lower(e2)
    ensures Matches(AuthUser(id, Some(e1)), term, profiles) == Matches(AuthUser(id, Some(e2)), term, profiles)
  {
  }

  /** A filter-then-map of two lists one after the other is the
      filter-then-map of the first followed by that of the second: entries
      keep the order of their users. */
  lemma {:induction false} SelectAppend<T, U>(a: seq<T>, b: seq<T>, keep: T -> bool, f: T -> U)
    ensures Select(a + b, keep, f) == Select(a, keep, f) + Select(b, keep, f)
  {
    if |a| == 0 {
      assert a + b == b;
    } else {
      var head := if keep(a[0]) then [f(a[0])] else [];
      assert (a + b)[0] == a[0];
      assert (a + b)[1..] == a[1..] + b;
      SelectAppend(a[1..], b, keep, f);
      calc {
        Select(a + b, keep, f);
        head + Select(a[1..] + b, keep, f);
        head + (Select(a[1..], keep, f) + Select(b, keep, f));
        (head + Select(a[1..], keep, f)) + Select(b, keep, f);
      }
    }
  }

  /** One element gives one entry when accepted and none otherwise. */
  lemma SelectOne<T, U>(x: T, keep: T -> bool, f: T -> U)
    ensures Select([x], keep, f) == if keep(x) then [f(x)] else []
  {
    assert [x][1..] == [];
  }

  /** Every accepted element has its entry, and every entry comes from an
      accepted element. */
  lemma {:induction false} SelectMembers<T, U>(xs: seq<T>, keep: T -> bool, f: T -> U)
    ensures forall i :: 0 <= i < |xs| && keep(xs[i]) ==> f(xs[i]) in Select(xs, keep, f)
    ensures forall y :: y in Select(xs, keep, f) ==> exists i :: 0 <= i < |xs| && keep(xs[i]) && y == f(xs[i])
  {
    if |xs| > 0 {
      SelectMembers(xs[1..], keep, f);
      forall i | 1 <= i < |xs|
        ensures xs[i] == xs[1..][i - 1]
      {
      }
      forall y | y in Select(xs, keep, f)
        ensures exists i :: 0 <= i < |xs| && keep(xs[i]) && y == f(xs[i])
      {
        if y !in Select(xs[1..], keep, f) {
          assert keep(xs[0]) && y == f(xs[0]);
        } else {
          var i :| 0 <= i < |xs[1..]| && keep(xs[1..][i]) && y == f(xs[1..][i]);
          assert xs[i + 1] == xs[1..][i];
        }
      }
    }
  }

  /** The response entries of two consecutive slices of the user list are
      those of the first slice followed by those of the second. */
  lemma FilterAppend(a: seq<AuthUser>, b: seq<AuthUser>, term: string, profiles: Option<seq<Profile>>)
    ensures Filter(a + b, term, profiles) == Filter(a, term, profiles) + Filter(b, term, profiles)
  {
    SelectAppend(a, b, u => Matches(u, term, profiles), u => Shape(u, profiles));
  }

  /** A single user is listed, shaped, exactly when it matches. */
  lemma FilterOne(u: AuthUser, term: string, profiles: Option<seq<Profile>>)
    ensures Filter([u], term, profiles) == if Matches(u, term, profiles) then [Shape(u, profiles)] else []
  {
    SelectOne(u, u => Matches(u, term, profiles), u => Shape(u, profiles));
  }

  /** Every matching user is listed, and every listed entry is the shape of
      a matching user. */
  lemma FilterMembers(users: seq<AuthUser>, term: string, profiles: Option<seq<Profile>>)
    ensures forall i :: 0 <= i < |users| && Matches(users[i], term, profiles) ==>
      Shape(users[i], profiles) in Filter(users, term, profiles)
    ensures forall m :: m in Filter(users, term, profiles) ==>
      exists i :: 0 <= i < |users| && Matches(users[i], term, profiles) && m == Shape(users[i], profiles)
  {
    SelectMembers(users, u => Matches(u, term, profiles), u => Shape(u, profiles));
  }

  /** A successful search lists the shaped entry of every user whose
      email or profile name contains the lower-cased term, and nothing
      else. */
  lemma SearchListsMatches(s: string, users: seq<AuthUser>, profiles: Option<seq<Profile>>)
    requires s != ""
    ensures var r := Search(Some(s), Success(users), Success(profiles));
      && r.status == 200
      && (forall i :: 0 <= i < |users| && Matches(users[i], Text.Lower(s), profiles) ==>
            Shape(users[i], profiles) in r.body.users)
      && (forall m :: m in r.body.users ==>
            exists i :: 0 <= i < |users| && Matches(users[i], Text.Lower(s), profiles) && m == Shape(users[i], profiles))
  {
    FilterMembers(users, Text.Lower(s), profiles);
  }

  /** A user whose email contains the term is always listed, with the
      email as given. */
  lemma EmailMatchListed(users: seq<AuthUser>, i: nat, term: string, profiles: Option<seq<Profile>>)
    requires i < |users| && users[i].email.Some?
    requires Text.OccursAt(Text.Lower(users[i].email.value), term, 0)
    ensures Shape(users[i], profiles) in Filter(users, term, profiles)
    ensures users[i].email.value == Shape(users[i], profiles).email
  {
    assert Matches(users[i], term, profiles);
    FilterMembers(users, term, profiles);
  }
}
