/**
 * The `software.license` record and the operations that act on it in place:
 * the expiration, days-left and expiring-soon computes, the date constraint,
 * the four state actions, the expiration sweep and the reminder selection.
 *
 * Dates are Python date ordinals (see module Dates) and an unset date field
 * is None. "Today" is a parameter. A batch (an Odoo recordset) is a sequence
 * of `License` objects, processed in order.
 */
module SoftwareLicense {
  import opened Wrappers
  import Dates

  /** The `state` selection. */
  datatype State = Draft | Active | Expired | Suspended | Canceled

  /** A customer (`res.partner`): its email and its parent contact, if any. */
  datatype Partner = Partner(email: Option<string>, parent: Option<Partner>)

  /** The error `_check_dates` raises. */
  datatype DateError = ExpirationNotAfterStart

  /** Days in one "month" of license duration. */
  const DaysPerMonth := 30

  /** How many days ahead a license counts as expiring soon. */
  const WarningDays := 7

  class License {
    var name: string
    var licenseKey: string
    var partner: Partner
    var startDate: Option<int>
    var durationMonths: int
    var expirationDate: Option<int>
    var state: State
    var dateRenewed: Option<int>
    var daysUntilExpiration: int
    var isExpiringSoon: bool

    /**
     * A freshly stored license: state `draft`, not renewed, and its stored
     * expiration computed from the start date and the duration.
     */
    constructor (name: string, licenseKey: string, partner: Partner, startDate: Option<int>, durationMonths: int)
      ensures this.name == name && this.licenseKey == licenseKey && this.partner == partner
      ensures this.startDate == startDate && this.durationMonths == durationMonths
      ensures expirationDate == ExpirationFor(startDate, durationMonths)
      ensures state == Draft && dateRenewed == None
      ensures daysUntilExpiration == 0 && !isExpiringSoon
    {
      this.name := name;
      this.licenseKey := licenseKey;
      this.partner := partner;
      this.startDate := startDate;
      this.durationMonths := durationMonths;
      expirationDate := ExpirationFor(startDate, durationMonths);
      state := Draft;
      dateRenewed := None;
      daysUntilExpiration := 0;
      isExpiringSoon := false;
    }
  }

  /** The objects of a batch. */
  function Records(batch: seq<License>): (records: set<License>) {
    set r | r in batch
  }

  /** A recordset holds each record once. */
  predicate Distinct(batch: seq<License>) {
    forall i, j :: 0 <= i < j < |batch| ==> batch[i] != batch[j]
  }

  // ---------------------------------------------------------------------------
  // Expiration date

  /** The expiration the compute assigns: start + 30 days per month, or cleared. */
  function ExpirationFor(start: Option<int>, months: int): (expiration: Option<int>)
    ensures expiration.Some? <==> start.Some? && months != 0
    ensures expiration.Some? ==> expiration.value - start.value == DaysPerMonth * months
  {
    if start.Some? && months != 0 then Some(start.value + DaysPerMonth * months) else None
  }

  /** Index of the first renewed record of a batch, or the batch length when none is. */
  function FirstRenewed(batch: seq<License>): (k: nat)
    reads Records(batch)
    ensures k <= |batch|
    ensures forall i :: 0 <= i < k ==> batch[i].dateRenewed.None?
    ensures k < |batch| ==> batch[k].dateRenewed.Some?
  {
    if |batch| == 0 then 0
    else if batch[0].dateRenewed.Some? then 0
    else
      assert Records(batch[1..]) <= Records(batch);
      1 + FirstRenewed(batch[1..])
  }

  /**
   * `_compute_expiration_date`, as written: records are recomputed in order
   * until the first renewed one, where the whole compute returns. That record
   * and every later one keep their stored expiration.
   */
  method ComputeExpirationDate(batch: seq<License>)
    requires Distinct(batch)
    modifies Records(batch)`expirationDate
    ensures forall i :: 0 <= i < |batch| ==>
      batch[i].expirationDate ==
        if i < old(FirstRenewed(batch)) then ExpirationFor(batch[i].startDate, batch[i].durationMonths)
        else old(batch[i].expirationDate)
  {
    ghost var k := FirstRenewed(batch);
    var i := 0;
    while i < |batch|
      invariant i <= k
      invariant forall j :: 0 <= j < k ==> batch[j].dateRenewed.None?
      invariant k < |batch| ==> batch[k].dateRenewed.Some?
      invariant forall j :: 0 <= j < i ==>
        batch[j].expirationDate == ExpirationFor(batch[j].startDate, batch[j].durationMonths)
      invariant forall j :: i <= j < |batch| ==> batch[j].expirationDate == old(batch[j].expirationDate)
    {
      var record := batch[i];
      if record.dateRenewed.Some? {
        return;
      }
      if record.startDate.Some? && record.durationMonths != 0 {
        record.expirationDate := Some(record.startDate.value + DaysPerMonth * record.durationMonths);
      } else {
        record.expirationDate := None;
      }
      i := i + 1;
    }
  }

  /**
   * The compute as evidently intended: a renewed record is skipped (its
   * expiration is governed by the renewal), every other record is recomputed.
   */
  method ComputeExpirationDateSkippingRenewed(batch: seq<License>)
    requires Distinct(batch)
    modifies Records(batch)`expirationDate
    ensures forall i :: 0 <= i < |batch| ==>
      batch[i].expirationDate ==
        if batch[i].dateRenewed.None? then ExpirationFor(batch[i].startDate, batch[i].durationMonths)
        else old(batch[i].expirationDate)
  {
    for i := 0 to |batch|
      invariant forall j :: 0 <= j < i ==>
        batch[j].expirationDate ==
          if batch[j].dateRenewed.None? then ExpirationFor(batch[j].startDate, batch[j].durationMonths)
          else old(batch[j].expirationDate)
      invariant forall j :: i <= j < |batch| ==> batch[j].expirationDate == old(batch[j].expirationDate)
    {
      var record := batch[i];
      if record.dateRenewed.Some? {
        continue;
      }
      record.expirationDate := ExpirationFor(record.startDate, record.durationMonths);
    }
  }

  /**
   * A batch whose first record is renewed recomputes nothing: a later record
   * that is not renewed keeps a stale expiration, although the skipping
   * compute would recompute it.
   */
  method EarlyReturnExample() returns (asWritten: Option<int>, intended: Option<int>)
    ensures asWritten == None && intended == Some(130)
  {
    var nobody := Partner(None, None);
    var renewed := new License("LIC/1", "KEY1", nobody, Some(100), 12);
    renewed.dateRenewed := Some(400);
    var other := new License("LIC/2", "KEY2", nobody, Some(100), 0);
    other.durationMonths := 1;
    ComputeExpirationDate([renewed, other]);
    asWritten := other.expirationDate;
    ComputeExpirationDateSkippingRenewed([renewed, other]);
    intended := other.expirationDate;
  }

  /**
   * A license starting 2024-01-01 for 12 months expires 360 days later, on
   * 2024-12-26 (2024 is a leap year).
   */
  lemma ExpirationExample()
    ensures ExpirationFor(Some(Dates.Ordinal(2024, 1, 1)), 12) == Some(Dates.Ordinal(2024, 12, 26))
  {
  }

  // ---------------------------------------------------------------------------
  // Date constraint

  /** `_check_dates` for one record: it fails only when both dates are set and expiration <= start. */
  predicate DatesOk(start: Option<int>, expiration: Option<int>)
    ensures DatesOk(start, expiration) <==> start.None? || expiration.None? || start.value < expiration.value
  {
    !(expiration.Some? && start.Some? && expiration.value <= start.value)
  }

  /** `_check_dates`: raise on the first record whose expiration is not after its start. */
  method CheckDates(batch: seq<License>) returns (r: Outcome<DateError>)
    ensures r.Pass? <==> forall i :: 0 <= i < |batch| ==> DatesOk(batch[i].startDate, batch[i].expirationDate)
    ensures r.Fail? ==> r.error == ExpirationNotAfterStart
  {
    for i := 0 to |batch|
      invariant forall j :: 0 <= j < i ==> DatesOk(batch[j].startDate, batch[j].expirationDate)
    {
      var record := batch[i];
      if record.expirationDate.Some? && record.startDate.Some? {
        if record.expirationDate.value <= record.startDate.value {
          return Fail(ExpirationNotAfterStart);
        }
      }
    }
    return Pass;
  }

  /**
   * A freshly computed expiration passes the date check exactly when the
   * start date is unset or the duration is not negative: a zero duration
   * clears the expiration, a positive one puts it after the start.
   */
  lemma ComputedExpirationPassesCheck(start: Option<int>, months: int)
    ensures DatesOk(start, ExpirationFor(start, months)) <==> start.None? || months >= 0
    ensures ExpirationFor(start, months).Some? ==>
      ExpirationFor(start, months).value - start.value == DaysPerMonth * months
  {
  }

  // ---------------------------------------------------------------------------
  // Days until expiration and "expiring soon"

  /** `days_until_expiration`: days from today to the expiration, 0 when there is none. */
  function DaysUntilExpiration(expiration: Option<int>, today: int): (days: int)
    ensures expiration.Some? ==> today + days == expiration.value
    ensures expiration.None? ==> days == 0
  {
    if expiration.Some? then expiration.value - today else 0
  }

  /** `is_expiring_soon` from the state and the days left. */
  predicate ExpiringSoon(state: State, days: int)
  {
    state == Active && 0 <= days <= WarningDays
  }

  /** `_compute_days_until_expiration` over a batch, with today's date. */
  method ComputeDaysUntilExpiration(batch: seq<License>, today: int)
    modifies Records(batch)`daysUntilExpiration
    ensures forall r :: r in batch ==> r.daysUntilExpiration == DaysUntilExpiration(r.expirationDate, today)
  {
    for i := 0 to |batch|
      invariant forall j :: 0 <= j < i ==>
        batch[j].daysUntilExpiration == DaysUntilExpiration(batch[j].expirationDate, today)
    {
      var record := batch[i];
      if record.expirationDate.Some? {
        record.daysUntilExpiration := record.expirationDate.value - today;
      } else {
        record.daysUntilExpiration := 0;
      }
    }
  }

  /** `_compute_is_expiring_soon` over a batch, from each record's state and days left. */
  method ComputeIsExpiringSoon(batch: seq<License>)
    modifies Records(batch)`isExpiringSoon
    ensures forall r :: r in batch ==> r.isExpiringSoon == ExpiringSoon(r.state, r.daysUntilExpiration)
  {
    for i := 0 to |batch|
      invariant forall j :: 0 <= j < i ==>
        batch[j].isExpiringSoon == ExpiringSoon(batch[j].state, batch[j].daysUntilExpiration)
    {
      var record := batch[i];
      record.isExpiringSoon := record.state == Active && 0 <= record.daysUntilExpiration <= WarningDays;
    }
  }

  /** The reminder job's search domain: active, and today <= expiration <= today + 7. */
  predicate ReminderDue(state: State, expiration: Option<int>, today: int)
    ensures ReminderDue(state, expiration, today) ==> ExpiringSoon(state, DaysUntilExpiration(expiration, today))
  {
    state == Active && expiration.Some? && today <= expiration.value <= today + WarningDays
  }

  /** For a license with an expiration date, "expiring soon" is exactly the reminder job's domain. */
  lemma ExpiringSoonIsReminderDue(state: State, expiration: Option<int>, today: int)
    requires expiration.Some?
    ensures ExpiringSoon(state, DaysUntilExpiration(expiration, today)) <==> ReminderDue(state, expiration, today)
  {
  }

  /**
   * As written, an active license with no expiration date has 0 days left and
   * so counts as expiring soon, although the reminder job never selects it.
   */
  lemma ExpiringSoonWithoutExpiration(today: int)
    ensures ExpiringSoon(Active, DaysUntilExpiration(None, today))
    ensures !ReminderDue(Active, None, today)
  {
  }

  /** "Expiring soon" as evidently intended: only a license that has an expiration date. */
  predicate IntendedExpiringSoon(state: State, expiration: Option<int>, today: int)
    ensures IntendedExpiringSoon(state, expiration, today) <==> ReminderDue(state, expiration, today)
  {
    expiration.Some? && ExpiringSoon(state, DaysUntilExpiration(expiration, today))
  }

  // ---------------------------------------------------------------------------
  // State actions

  /** `self.write({'state': s})`: every record of the batch gets state `s`, whatever it had. */
  method WriteState(batch: seq<License>, s: State)
    modifies Records(batch)`state
    ensures forall r :: r in batch ==> r.state == s
  {
    for i := 0 to |batch|
      invariant forall j :: 0 <= j < i ==> batch[j].state == s
    {
      batch[i].state := s;
    }
  }

  /** `action_activate` */
  method ActionActivate(batch: seq<License>)
    modifies Records(batch)`state
    ensures forall r :: r in batch ==> r.state == Active
  {
    WriteState(batch, Active);
  }

  /** `action_suspend` */
  method ActionSuspend(batch: seq<License>)
    modifies Records(batch)`state
    ensures forall r :: r in batch ==> r.state == Suspended
  {
    WriteState(batch, Suspended);
  }

  /** `action_cancel` */
  method ActionCancel(batch: seq<License>)
    modifies Records(batch)`state
    ensures forall r :: r in batch ==> r.state == Canceled
  {
    WriteState(batch, Canceled);
  }

  /** `action_draft` */
  method ActionDraft(batch: seq<License>)
    modifies Records(batch)`state
    ensures forall r :: r in batch ==> r.state == Draft
  {
    WriteState(batch, Draft);
  }

  // ---------------------------------------------------------------------------
  // Expiration sweep

  /** The sweep's search domain: active and expired before today (an unset date never matches). */
  predicate ShouldExpire(state: State, expiration: Option<int>, today: int)
    ensures ShouldExpire(state, expiration, today) ==>
      DaysUntilExpiration(expiration, today) < 0 && !ReminderDue(state, expiration, today)
  {
    state == Active && expiration.Some? && expiration.value < today
  }

  /** The state a license has after the sweep. */
  function SweptState(state: State, expiration: Option<int>, today: int): (swept: State)
    ensures swept == state || (state == Active && swept == Expired)
    ensures !ShouldExpire(swept, expiration, today)
  {
    if ShouldExpire(state, expiration, today) then Expired else state
  }

  /** A second sweep on the same day changes nothing, and no overdue active license remains. */
  lemma SweepIdempotent(state: State, expiration: Option<int>, today: int)
    ensures SweptState(SweptState(state, expiration, today), expiration, today) == SweptState(state, expiration, today)
    ensures !ShouldExpire(SweptState(state, expiration, today), expiration, today)
  {
  }

  /** On 2024-06-15 an active license that expired yesterday is swept; one expiring tomorrow is not. */
  lemma SweepExample()
    ensures var today := Dates.Ordinal(2024, 6, 15);
      SweptState(Active, Some(Dates.Ordinal(2024, 6, 14)), today) == Expired &&
      SweptState(Active, Some(Dates.Ordinal(2024, 6, 16)), today) == Active
  {
  }

  /** `search([('state', '=', 'active'), ('expiration_date', '<', today)])` */
  method SearchExpired(licenses: seq<License>, today: int) returns (found: seq<License>)
    ensures forall r :: r in found <==> r in licenses && ShouldExpire(r.state, r.expirationDate, today)
  {
    found := [];
    for i := 0 to |licenses|
      invariant forall r :: r in found <==>
        r in licenses[..i] && ShouldExpire(r.state, r.expirationDate, today)
    {
      var record := licenses[i];
      assert licenses[..i + 1] == licenses[..i] + [record];
      if record.state == Active && record.expirationDate.Some? && record.expirationDate.value < today {
        found := found + [record];
      }
    }
    assert licenses[..|licenses|] == licenses;
  }

  /**
   * `_cron_check_expired_licenses`: the active licenses that expired before
   * today become expired; every other license keeps its state, and no other
   * field changes.
   */
  method CronCheckExpiredLicenses(licenses: seq<License>, today: int) returns (done: bool)
    modifies Records(licenses)`state
    ensures done
    ensures forall r :: r in licenses ==> r.state == SweptState(old(r.state), r.expirationDate, today)
  {
    var expired := SearchExpired(licenses, today);
    WriteState(expired, Expired);
    return true;
  }

  // ---------------------------------------------------------------------------
  // Expiration reminders

  /**
   * The selection of `_cron_send_expiration_reminders`:
   * `search([('state', '=', 'active'), ('expiration_date', '<=', today + 7), ('expiration_date', '>=', today)])`.
   */
  method SearchExpiring(licenses: seq<License>, today: int) returns (found: seq<License>)
    ensures forall r :: r in found <==> r in licenses && ReminderDue(r.state, r.expirationDate, today)
  {
    found := [];
    var warningDate := today + WarningDays;
    for i := 0 to |licenses|
      invariant forall r :: r in found <==>
        r in licenses[..i] && ReminderDue(r.state, r.expirationDate, today)
    {
      var record := licenses[i];
      assert licenses[..i + 1] == licenses[..i] + [record];
      if record.state == Active && record.expirationDate.Some?
        && record.expirationDate.value <= warningDate && record.expirationDate.value >= today
      {
        found := found + [record];
      }
    }
    assert licenses[..|licenses|] == licenses;
  }

  /** A truthy email: set and not empty. */
  predicate HasEmail(email: Option<string>)
    ensures HasEmail(email) <==> email.Some? && |email.value| > 0
  {
    email.Some? && email.value != ""
  }

  /**
   * The reminder's `email_to`, as written:
   * `(partner.email or parent.email) if parent else None`. A customer without
   * a parent contact gets no recipient, whatever its own email.
   */
  function ReminderRecipient(customer: Partner): (to: Option<string>)
    ensures customer.parent.None? ==> to.None?
    ensures customer.parent.Some? && HasEmail(customer.email) ==> to == customer.email
    ensures customer.parent.Some? && !HasEmail(customer.email) ==> to == customer.parent.value.email
  {
    if customer.parent.Some? then
      (if HasEmail(customer.email) then customer.email else customer.parent.value.email)
    else None
  }

  /** The customer's own address is dropped when it has no parent contact. */
  lemma RecipientDropsOwnEmail()
    ensures var customer := Partner(Some("a@example.com"), None);
      HasEmail(customer.email) && ReminderRecipient(customer) == None
  {
  }

  /**
   * The recipient as evidently intended: `partner.email or (parent.email if
   * parent else None)`, the customer's own address first, then its parent's.
   */
  function IntendedReminderRecipient(customer: Partner): (to: Option<string>)
    ensures HasEmail(customer.email) ==> to == customer.email
    ensures !HasEmail(customer.email) && customer.parent.Some? ==> to == customer.parent.value.email
    ensures !HasEmail(customer.email) && customer.parent.None? ==> to.None?
  {
    if HasEmail(customer.email) then customer.email
    else if customer.parent.Some? then customer.parent.value.email
    else None
  }

  /** The two readings differ only for a customer without a parent contact. */
  lemma RecipientReadingsAgreeWithParent(customer: Partner)
    ensures customer.parent.Some? ==> ReminderRecipient(customer) == IntendedReminderRecipient(customer)
    ensures customer.parent.None? ==> ReminderRecipient(customer) == None
  {
  }
}
