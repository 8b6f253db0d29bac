/** The campaign edit dialog: the form starts from the campaign's values,
    and saving sends only the fields the campaign's type and period type
    use, then reports back and closes on success. */
module CampaignEdit {
  import opened Wrappers
  import Text

  datatype CampaignType = AmountOff | PercentageOff | FreeItem | Bogo

  datatype PeriodType = LimitedNumber | DateRange | Unlimited

  /** A marketing campaign. Discount values are modelled as integers. */
  datatype Campaign = Campaign(
    id: string, kind: CampaignType, discountValue: Option<int>,
    maxRedemptions: Option<int>, startDate: Option<string>, endDate: Option<string>,
    period: PeriodType)

  /** The text fields of the dialog. */
  datatype Form = Form(discountValue: string, maxRedemptions: string, startDate: string, endDate: string)

  /** The update sent for the campaign; an absent field is not sent.
      `discount` holds the text whose `parseFloat` value is sent (floating
      point is not modelled); `maxRedemptions` holds `parseInt` of the
      text, `None` inside standing for NaN. */
  datatype Updates = Updates(
    discount: Option<string>, maxRedemptions: Option<Option<int>>,
    startDate: Option<string>, endDate: Option<string>)

  datatype Callback = OnUpdate | OnClose

  /** What saving leaves behind: the update sent, the callbacks invoked in
      order, the error shown and the loading flag. */
  datatype Outcome = Outcome(updates: Updates, calls: seq<Callback>, error: Option<string>, loading: bool)

  /** `value?.toString() || ''`: empty exactly when there is no value, and
      otherwise text that reads back as the value, with or without a
      radix; the empty text reads as NaN. */
  function NumberText(value: Option<int>): (r: string)
    ensures r == "" <==> value.None?
    ensures value.Some? ==> Text.ParseInt(r, 0) == value && Text.ParseInt(r, 10) == value
    ensures value.None? ==> Text.ParseInt(r, 0).None?
  {
    match value
    case None =>
      assert Text.TrimStart("") == "";
      ""
    case Some(n) =>
      Text.ParseIntToStringNoRadix(n);
      Text.ParseIntToString(n);
      assert |Text.NatToString(if n < 0 then -n else n)| >= 1;
      Text.IntToString(n)
  }

  /** The fields start from the campaign's values, rendered as decimal
      text, or empty when the campaign has none. */
  function InitialForm(c: Campaign): (f: Form)
    ensures c.discountValue.None? <==> f.discountValue == ""
    ensures c.maxRedemptions.None? <==> f.maxRedemptions == ""
    ensures c.maxRedemptions.Some? ==> Text.ParseInt(f.maxRedemptions, 10) == c.maxRedemptions
    ensures c.discountValue.Some? ==> Text.ParseInt(f.discountValue, 10) == c.discountValue
    ensures c.startDate.Some? ==> f.startDate == c.startDate.value
    ensures c.startDate.None? ==> f.startDate == ""
    ensures c.endDate.Some? ==> f.endDate == c.endDate.value
    ensures c.endDate.None? ==> f.endDate == ""
  {
    Form(NumberText(c.discountValue), NumberText(c.maxRedemptions),
         c.startDate.GetOr(""), c.endDate.GetOr(""))
  }

  /** Which fields are sent: the discount for the two discount types, the
      redemption limit for a limited period, both dates (copied verbatim)
      for a date range, and never the limit together with the dates. */
  function BuildUpdates(c: Campaign, f: Form): (u: Updates)
    ensures u.discount.Some? <==> c.kind in {AmountOff, PercentageOff}
    ensures u.discount.Some? ==> u.discount.value == f.discountValue
    ensures u.maxRedemptions.Some? <==> c.period == LimitedNumber
    ensures u.maxRedemptions.Some? ==> u.maxRedemptions.value == Text.ParseInt(f.maxRedemptions, 0)
    ensures u.startDate.Some? <==> c.period == DateRange
    ensures u.endDate.Some? <==> c.period == DateRange
    ensures u.startDate.Some? ==> u.startDate.value == f.startDate && u.endDate.value == f.endDate
    ensures !(u.maxRedemptions.Some? && u.startDate.Some?)
  {
    var discount := if c.kind == AmountOff || c.kind == PercentageOff then Some(f.discountValue) else None;
    match c.period
    case LimitedNumber => Updates(discount, Some(Text.ParseInt(f.maxRedemptions, 0)), None, None)
    case DateRange => Updates(discount, None, Some(f.startDate), Some(f.endDate))
    case Unlimited => Updates(discount, None, None, None)
  }

  /** `handleUpdate`; `failure` is the error message of the update, if
      any. On success the parent is told to refresh, then the dialog
      closes; on failure neither happens and the message is shown. Loading
      has ended either way, and the update sent does not depend on the
      outcome. */
  function Save(c: Campaign, f: Form, failure: Option<string>): (o: Outcome)
    ensures !o.loading
    ensures o.updates == BuildUpdates(c, f)
    ensures failure.None? ==> o.calls == [OnUpdate, OnClose] && o.error.None?
    ensures failure.Some? ==> o.calls == [] && o.error == failure
  {
    var updates := BuildUpdates(c, f);
    if failure.None? then Outcome(updates, [OnUpdate, OnClose], None, false)
    else Outcome(updates, [], failure, false)
  }

  // ---------------------------------------------------------------------
  // Properties
  // ---------------------------------------------------------------------

  /** A free-item or buy-one-get-one campaign with no limit sends an empty
      update. */
  lemma EmptyUpdate(c: Campaign, f: Form)
    requires c.kind in {FreeItem, Bogo} && c.period == Unlimited
    ensures BuildUpdates(c, f) == Updates(None, None, None, None)
  {
  }

  /** Saving the form as it was opened sends back the campaign's own
      redemption limit and dates (the empty string for a missing date) and
      its discount rendered as text. */
  lemma SaveUnchanged(c: Campaign)
    ensures var u := BuildUpdates(c, InitialForm(c));
      && (c.period == LimitedNumber && c.maxRedemptions.Some? ==>
            u.maxRedemptions == Some(Some(c.maxRedemptions.value)))
      && (c.period == LimitedNumber && c.maxRedemptions.None? ==> u.maxRedemptions == Some(None))
      && (c.period == DateRange ==> u.startDate == Some(c.startDate.GetOr("")) && u.endDate == Some(c.endDate.GetOr("")))
      && (u.discount.Some? && c.discountValue.Some? ==>
            Text.ParseInt(u.discount.value, 10) == c.discountValue)
  {
    var f := InitialForm(c);
    var u := BuildUpdates(c, f);
    if c.period == LimitedNumber {
      assert u.maxRedemptions == Some(Text.ParseInt(NumberText(c.maxRedemptions), 0));
    }
    if u.discount.Some? {
      assert u.discount.value == NumberText(c.discountValue);
    }
  }

}
