/**
 * The renewal wizard (`software.license.renew.wizard`): a transient form that
 * points at one license, edits that license's duration through a related
 * field, and on confirmation extends the license's expiration from its
 * current value and stamps the renewal date.
 */
module LicenseRenewal {
  import opened Wrappers
  import opened SoftwareLicense
  import Dates

  datatype RenewalError =
    | NonPositiveDuration  // `_check_duration_months`
    | NoExpirationDate     // `license.expiration_date + timedelta(...)` on an unset date raises

  class RenewWizard {
    /** `license_id` */
    const license: License

    constructor (license: License)
      ensures this.license == license
    {
      this.license := license;
    }

    /** `duration_months`, related to `license_id.duration_months`: the wizard holds no copy. */
    function DurationMonths(): (months: int)
      reads license
      ensures months == license.durationMonths
    {
      license.durationMonths
    }

    /**
     * Writing the wizard's duration writes the license's duration; the
     * duration constraint then runs, and when it raises the write is undone.
     */
    method SetDurationMonths(months: int) returns (r: Outcome<RenewalError>)
      modifies license`durationMonths
      ensures r.Pass? <==> months > 0
      ensures r.Fail? ==> r.error == NonPositiveDuration
      ensures license.durationMonths == if months > 0 then months else old(license.durationMonths)
    {
      var previous := license.durationMonths;
      license.durationMonths := months;
      r := CheckDurationMonths([this]);
      assert [this][0] == this;
      if r.Fail? {
        license.durationMonths := previous;
      }
    }
  }

  /** The licenses the wizards of a batch point at. */
  function Licenses(wizards: seq<RenewWizard>): (licenses: set<License>) {
    set w | w in wizards :: w.license
  }

  /** `_check_duration_months`: raise on the first wizard whose duration is not positive. */
  method CheckDurationMonths(wizards: seq<RenewWizard>) returns (r: Outcome<RenewalError>)
    ensures r.Pass? <==> forall i :: 0 <= i < |wizards| ==> wizards[i].license.durationMonths > 0
    ensures r.Fail? ==> r.error == NonPositiveDuration
  {
    for i := 0 to |wizards|
      invariant forall j :: 0 <= j < i ==> wizards[j].license.durationMonths > 0
    {
      if wizards[i].DurationMonths() <= 0 {
        return Fail(NonPositiveDuration);
      }
    }
    return Pass;
  }

  /** The expiration one renewal gives: a new start the day after, plus 30 days per month. */
  function RenewedExpiration(expiration: int, months: int): (renewed: int) {
    expiration + 1 + DaysPerMonth * months
  }

  /** A renewal applies the compute's formula to a new start the day after the old expiration. */
  lemma RenewedExpirationIsCompute(expiration: int, months: int)
    ensures months != 0 ==> ExpirationFor(Some(expiration + 1), months) == Some(RenewedExpiration(expiration, months))
    ensures months == 0 ==> RenewedExpiration(expiration, months) == expiration + 1
  {
  }

  /** The expiration after `n` renewals of `months` each. */
  function RenewedTimes(expiration: int, n: nat, months: int): (renewed: int)
  {
    if n == 0 then expiration else RenewedExpiration(RenewedTimes(expiration, n - 1, months), months)
  }

  /** Each renewal adds the same shift, so n renewals shift the expiration n times as far. */
  lemma {:induction false} RenewedTimesClosedForm(expiration: int, n: nat, months: int)
    ensures RenewedTimes(expiration, n, months) == expiration + n * (1 + DaysPerMonth * months)
  {
    if n > 0 {
      RenewedTimesClosedForm(expiration, n - 1, months);
      assert n * (1 + DaysPerMonth * months) == (n - 1) * (1 + DaysPerMonth * months) + (1 + DaysPerMonth * months);
    }
  }

  /** How many wizards of `wizards` point at `l`. */
  ghost function Hits(wizards: seq<RenewWizard>, l: License): nat {
    if wizards == [] then 0
    else Hits(wizards[..|wizards| - 1], l) + (if wizards[|wizards| - 1].license == l then 1 else 0)
  }

  /** Index of the first wizard whose license has no expiration date, or the batch length. */
  function FirstWithoutExpiration(wizards: seq<RenewWizard>): (k: nat)
    reads Licenses(wizards)
    ensures k <= |wizards|
    ensures forall i :: 0 <= i < k ==> wizards[i].license.expirationDate.Some?
    ensures k < |wizards| ==> wizards[k].license.expirationDate.None?
  {
    if |wizards| == 0 then 0
    else if wizards[0].license.expirationDate.None? then 0
    else
      assert Licenses(wizards[1..]) <= Licenses(wizards);
      1 + FirstWithoutExpiration(wizards[1..])
  }

  /**
   * A license's expiration and renewal date after `n` renewals of `months`
   * each on day `today`, given the values before: unchanged when `n` is 0.
   */
  predicate RenewedAs(expiration: Option<int>, renewed: Option<int>,
                      oldExpiration: Option<int>, oldRenewed: Option<int>, n: nat, months: int, today: int) {
    (n == 0 ==> expiration == oldExpiration && renewed == oldRenewed) &&
    (n > 0 ==> oldExpiration.Some? && renewed == Some(today) &&
               expiration == Some(RenewedTimes(oldExpiration.value, n, months)))
  }

  /**
   * `renew_license`: each wizard in turn extends its license to one day after
   * the current expiration plus 30 days per month of the wizard's duration,
   * and stamps `date_renewed` with today. A license renewed by several
   * wizards is extended once per wizard. The batch stops with an error at the
   * first wizard whose license has no expiration date; the wizards before it
   * have renewed their licenses. The frame admits no write but to
   * `expiration_date` and `date_renewed` of those licenses: state, start date
   * and duration stay as they were, so an expired license stays expired.
   */
  method RenewLicense(wizards: seq<RenewWizard>, today: int) returns (r: Outcome<RenewalError>)
    modifies Licenses(wizards)`expirationDate, Licenses(wizards)`dateRenewed
    ensures var k := old(FirstWithoutExpiration(wizards));
      (r.Pass? <==> k == |wizards|) && (r.Fail? ==> r.error == NoExpirationDate) &&
      RenewedSoFar(wizards, old(Snapshot(wizards)), k, today)
    ensures |wizards| == 1 && old(wizards[0].license.expirationDate).Some? ==>
      wizards[0].license.expirationDate ==
        Some(RenewedExpiration(old(wizards[0].license.expirationDate).value, wizards[0].DurationMonths())) &&
      wizards[0].license.dateRenewed == Some(today)
  {
    ghost var k := FirstWithoutExpiration(wizards);
    ghost var before := Snapshot(wizards);
    assert forall j :: 0 <= j < k ==> before[j].0.Some?;
    assert k < |wizards| ==> before[k].0.None?;
    assert wizards[..0] == [];
    var i := 0;
    while i < |wizards|
      invariant i <= k
      invariant RenewedSoFar(wizards, before, i, today)
    {
      if wizards[i].license.expirationDate.None? {
        assert Hits(wizards[..i], wizards[i].license) == 0;
        assert before[i].0.None?;
        return Fail(NoExpirationDate);
      }
      assert before[i].0.Some?;
      RenewOne(wizards, i, today, before);
      i := i + 1;
    }
    if |wizards| == 1 {
      SingleRenewal(wizards, before, today);
    }
    return Pass;
  }

  /** After a batch of one wizard, its license was renewed exactly once. */
  lemma SingleRenewal(wizards: seq<RenewWizard>, before: seq<(Option<int>, Option<int>)>, today: int)
    requires |wizards| == 1 && RenewedSoFar(wizards, before, 1, today)
    ensures before[0].0.Some? ==>
      wizards[0].license.expirationDate ==
        Some(RenewedExpiration(before[0].0.value, wizards[0].license.durationMonths)) &&
      wizards[0].license.dateRenewed == Some(today)
  {
    var l := wizards[0].license;
    assert wizards[..1] == wizards;
    assert wizards[..1][..0] == [];
    assert Hits(wizards[..1], l) == 1;
    if before[0].0.Some? {
      assert RenewedTimes(before[0].0.value, 1, l.durationMonths)
        == RenewedExpiration(RenewedTimes(before[0].0.value, 0, l.durationMonths), l.durationMonths);
    }
  }

  /** Each wizard's license's expiration and renewal dates, in wizard order. */
  ghost function Snapshot(wizards: seq<RenewWizard>): (r: seq<(Option<int>, Option<int>)>)
    reads Licenses(wizards)
    ensures |r| == |wizards|
    ensures forall j :: 0 <= j < |wizards| ==>
      r[j] == (wizards[j].license.expirationDate, wizards[j].license.dateRenewed)
  {
    if wizards == [] then []
    else
      assert Licenses(wizards[1..]) <= Licenses(wizards);
      [(wizards[0].license.expirationDate, wizards[0].license.dateRenewed)] + Snapshot(wizards[1..])
  }

  /**
   * The loop invariant of `renew_license` after the first `n` wizards: every
   * license holds what its share of those renewals gives, starting from the
   * values `before` the loop.
   */
  ghost predicate RenewedSoFar(wizards: seq<RenewWizard>, before: seq<(Option<int>, Option<int>)>,
                               n: nat, today: int)
    reads Licenses(wizards)
  {
    |before| == |wizards| && n <= |wizards| &&
    forall j :: 0 <= j < |wizards| ==>
      var l := wizards[j].license;
      RenewedAs(l.expirationDate, l.dateRenewed, before[j].0, before[j].1,
                Hits(wizards[..n], l), l.durationMonths, today)
  }

  /** The body of the `renew_license` loop for the wizard at index `i`. */
  method RenewOne(wizards: seq<RenewWizard>, i: nat, today: int, ghost before: seq<(Option<int>, Option<int>)>)
    requires i < |wizards| && RenewedSoFar(wizards, before, i, today)
    requires wizards[i].license.expirationDate.Some?
    modifies wizards[i].license`expirationDate, wizards[i].license`dateRenewed
    ensures RenewedSoFar(wizards, before, i + 1, today)
  {
    var license := wizards[i].license;
    var newStart := license.expirationDate.value + 1;
    var newExpiration := newStart + DaysPerMonth * wizards[i].DurationMonths();
    license.expirationDate := Some(newExpiration);
    license.dateRenewed := Some(today);
    forall j | 0 <= j < |wizards|
      ensures var l := wizards[j].license;
        RenewedAs(l.expirationDate, l.dateRenewed, before[j].0, before[j].1,
                  Hits(wizards[..i + 1], l), l.durationMonths, today)
    {
      var l := wizards[j].license;
      HitsStep(wizards, i, l);
      if l == license {
        RenewedAsStep(old(l.expirationDate), old(l.dateRenewed), before[j].0, before[j].1,
                      Hits(wizards[..i], l), l.durationMonths, today);
      } else {
        assert l.expirationDate == old(l.expirationDate) && l.dateRenewed == old(l.dateRenewed);
      }
    }
  }

  lemma {:induction false} HitsStep(wizards: seq<RenewWizard>, i: nat, l: License)
    requires i < |wizards|
    ensures Hits(wizards[..i + 1], l) == Hits(wizards[..i], l) + if wizards[i].license == l then 1 else 0
  {
    assert wizards[..i + 1][..i] == wizards[..i];
  }

  /** One more renewal of a license that has an expiration date. */
  lemma RenewedAsStep(expiration: Option<int>, renewed: Option<int>,
                      oldExpiration: Option<int>, oldRenewed: Option<int>, n: nat, months: int, today: int)
    requires RenewedAs(expiration, renewed, oldExpiration, oldRenewed, n, months, today)
    requires expiration.Some?
    ensures RenewedAs(Some(RenewedExpiration(expiration.value, months)), Some(today),
                      oldExpiration, oldRenewed, n + 1, months, today)
  {
  }

  // ---------------------------------------------------------------------------
  // What a renewal promises

  /** One renewal moves the expiration later exactly when the duration is not negative. */
  lemma RenewalIsLater(expiration: int, months: int)
    ensures RenewedExpiration(expiration, months) > expiration <==> months >= 0
    ensures RenewedExpiration(expiration, months) - expiration == 1 + DaysPerMonth * months
  {
  }

  /**
   * A license expiring 2024-12-27, renewed for 6 months, now expires 181 days
   * later, on 2025-06-26.
   */
  lemma RenewalExample()
    ensures RenewedExpiration(Dates.Ordinal(2024, 12, 27), 6) == Dates.Ordinal(2025, 6, 26)
  {
  }

  /** With a duration the wizard accepts, `n` renewals move the expiration at least `n` days later. */
  lemma {:induction false} RenewedTimesGrows(expiration: int, n: nat, months: int)
    requires months >= 0
    ensures RenewedTimes(expiration, n, months) >= expiration + n
  {
    if n > 0 {
      RenewedTimesGrows(expiration, n - 1, months);
    }
  }

  /** A license whose dates satisfied the date constraint before renewal still satisfy it afterwards. */
  lemma RenewalKeepsDatesOk(start: Option<int>, expiration: int, n: nat, months: int)
    requires DatesOk(start, Some(expiration)) && months >= 0
    ensures DatesOk(start, Some(RenewedTimes(expiration, n, months)))
  {
    RenewedTimesGrows(expiration, n, months);
  }
}
