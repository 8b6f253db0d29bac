/** The guest-facing waitlist form: name, email, phone and party size are
    typed as text; submitting checks the required fields, then the party
    size, inserts a waitlist row and clears the form when the insert
    succeeds. */
module CustomerWaitlist {
  import opened Wrappers
  import Text

  datatype Form = Form(name: string, email: string, phone: string, guests: string,
                       loading: bool, error: Option<string>)

  const Blank := Form("", "", "", "", false, None)

  /** The row inserted into `waitlist`. */
  datatype WaitlistInsert = WaitlistInsert(restaurantId: string, name: string, email: string,
                                           phone: string, guests: int)

  /** The form after a submission and the row it inserted, if any. */
  datatype Submission = Submission(form: Form, inserted: Option<WaitlistInsert>)

  const RequiredMessage := "Name and number of guests are required"
  const InvalidGuestsMessage := "Please enter a valid number of guests"

  /** The party size the form accepts: `parseInt(guests, 10)` unless it is
      NaN or below 1. */
  function GuestCount(guests: string): (r: Option<int>)
    ensures r.Some? ==> r.value >= 1
    ensures r.Some? <==> Text.ParseInt(guests, 10).Some? && Text.ParseInt(guests, 10).value >= 1
    ensures r.Some? ==> r == Text.ParseInt(guests, 10)
  {
    match Text.ParseInt(guests, 10)
    case None => None
    case Some(n) => if n < 1 then None else Some(n)
  }

  /** `handleSubmit`; `failure` is the insert's error message, if any. A
      row is inserted exactly when both required fields are filled and the
      party size parses to at least 1; it holds the typed name, email and
      phone unchecked and the parsed party size. A successful insert clears
      the form; a failed one keeps the fields and shows the message, and
      loading has ended. A rejected submission only sets one of the two
      messages. */
  function Submit(f: Form, restaurantId: string, failure: Option<string>): (s: Submission)
    ensures s.inserted.Some? <==> f.name != "" && f.guests != "" && GuestCount(f.guests).Some?
    ensures s.inserted.Some? ==>
      && s.inserted.value == WaitlistInsert(restaurantId, f.name, f.email, f.phone, GuestCount(f.guests).value)
      && s.inserted.value.guests >= 1
      && Text.ParseInt(f.guests, 10) == Some(s.inserted.value.guests)
      && !s.form.loading
      && (failure.None? ==> s.form == Blank)
      && (failure.Some? ==>
            s.form.name == f.name && s.form.email == f.email && s.form.phone == f.phone &&
            s.form.guests == f.guests && s.form.error == failure)
    ensures s.inserted.None? ==>
      s.form.(error := f.error) == f && s.form.error.Some? &&
      s.form.error.value in {RequiredMessage, InvalidGuestsMessage}
  {
    if f.name == "" || f.guests == "" then
      Submission(f.(error := Some(RequiredMessage)), None)
    else
      match GuestCount(f.guests)
      case None => Submission(f.(error := Some(InvalidGuestsMessage)), None)
      case Some(n) =>
        var row := WaitlistInsert(restaurantId, f.name, f.email, f.phone, n);
        if failure.None? then Submission(Blank, Some(row))
        else Submission(f.(loading := false, error := failure), Some(row))
  }

  // ---------------------------------------------------------------------
  // Properties
  // ---------------------------------------------------------------------

  /** An empty name or party size is reported first, whatever the party
      size holds, and nothing is inserted or cleared. */
  lemma RequiredFirst(f: Form, restaurantId: string, failure: Option<string>)
    requires f.name == "" || f.guests == ""
    ensures Submit(f, restaurantId, failure) == Submission(f.(error := Some(RequiredMessage)), None)
  {
  }

  /** With both required fields filled, a party size that is not a number
      of at least 1 is reported and nothing is inserted. */
  lemma InvalidGuests(f: Form, restaurantId: string, failure: Option<string>)
    requires f.name != "" && f.guests != ""
    requires Text.ParseInt(f.guests, 10).None? || Text.ParseInt(f.guests, 10).value < 1
    ensures Submit(f, restaurantId, failure) == Submission(f.(error := Some(InvalidGuestsMessage)), None)
  {
  }

  /** A party size typed as the decimal numeral of `n` is inserted as
      exactly `n` when `n` is at least 1, and rejected otherwise. */
  lemma TypedCount(f: Form, restaurantId: string, n: int)
    requires f.name != "" && f.guests == Text.IntToString(n)
    ensures var s := Submit(f, restaurantId, None);
      && (n >= 1 ==> s.inserted.Some? && s.inserted.value.guests == n && s.form == Blank)
      && (n < 1 ==> s.inserted.None? && s.form.error == Some(InvalidGuestsMessage))
  {
    Text.ParseIntToString(n);
    assert f.guests != "" by {
      assert |Text.NatToString(if n < 0 then -n else n)| >= 1;
    }
  }
}
