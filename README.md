# Software license records, modelled in Dafny

This project models the domain logic of the `license_management` Odoo module.
The module keeps software license records for products and customers. Each
record has a sequence-assigned number and a unique generated key
`XXXX-XXXX-XXXX-XXXX`. It has a start date, a duration in months, a computed
expiration date (30 days per month), a state (draft, active, expired,
suspended, canceled) and an optional renewal date. A daily sweep marks
overdue active licenses as expired. A reminder job selects the active
licenses that expire within a week. A renewal wizard extends a license from
its current expiration.

Modelling choices:

- Dates are Python date ordinals. Adding `timedelta(days = n)` adds n, and
  subtracting two dates gives the difference in days. Module `Dates`
  reproduces `date.toordinal()` for the calendar examples. An unset date
  (`False`) is `None`.
- "Today" is a parameter.
- The key generator's random source is a supplied stream of draws. Each draw
  is an index into `A-Z0-9`.
- The `software.license` sequence is an oracle: `sequence(n)` is the value
  of the n-th call.
- A license is a `License` object whose fields the operations write in place.
  A recordset is a `seq<License>`. Each method's `modifies` clause names the
  one or two fields it writes, so every other field of every license is
  unchanged.

Files and modules:

- `wrappers.dfy` (`Wrappers`): `Option` and `Outcome`.
- `dates.dfy` (`Dates`): Python's proleptic Gregorian ordinals.
- `license_keys.dfy` (`LicenseKeys`): `_generate_license_key`.
- `license_create.dfy` (`LicenseCreate`): the `create` override.
- `software_license.dfy` (`SoftwareLicense`): the record, the computes,
  `_check_dates`, the state actions, the sweep and the reminder selection.
- `license_renewal.dfy` (`LicenseRenewal`): the renewal wizard.

Facts about the code that the model follows:

- Calendar arithmetic. A license starting 2024-01-01 for 12 months expires
  360 days later, on 2024-12-26 (2024 is a leap year). Renewing a license
  that expires 2024-12-27 for 6 months moves its expiration 1 + 180 = 181
  days later, to 2025-06-26. `ExpirationExample` and `RenewalExample` prove
  these dates.
- State transitions are not enforced: every action writes its state from
  any prior state.
- The compute's early exit at a renewed record is modelled as written and
  reported under Findings.

## Model

| member | source | states |
|---|---|---|
| `LicenseKeys.Chars` | license_management/models/software_license.py:138 | The alphabet `ascii_uppercase + digits` has 36 characters, one per possible draw. `AlphabetAt` says which character each draw picks. |
| `LicenseKeys.Part` | license_management/models/software_license.py:143 | One part has one character per draw. `DrawPart` and `CandidateKeyLayout` say which character. |
| `LicenseKeys.JoinDashShape` | license_management/models/software_license.py:145 | `'-'.join` (`JoinDash`) puts the first part first, and n parts of four characters join into 5n - 1 characters. |
| `LicenseKeys.DrawPart` | license_management/models/software_license.py:143 | One part is the characters `Chars()[d]` of its draws, in order. |
| `LicenseKeys.DrawCandidate` | license_management/models/software_license.py:141-145 | Four parts of four draws each, joined with `-`, give exactly `CandidateKey` of the 16 draws, and the result is well formed. |
| `LicenseKeys.GenerateLicenseKey` | license_management/models/software_license.py:136-149 | A returned key is well formed and held by no existing license. It is the first fresh candidate of the draw stream, as `FirstFreshKey` defines. When no key is returned, no full pass drew a fresh key, and every full pass was consumed. |
| `LicenseKeys.Retry` | license_management/models/software_license.py:141-148 | One pass of the retry loop builds a well-formed candidate from the next 16 draws. If no existing license holds it, it is the loop's result; otherwise the loop goes on from the next pass with the same result. |
| `LicenseKeys.FirstFreshKey` | license_management/models/software_license.py:140-149 | The retry loop's result is not an existing key. It consumes a whole number of 16-draw passes: at least one, and no more than the stream holds. |
| `LicenseKeys.FirstFreshKeyIsLastCandidate` | license_management/models/software_license.py:140-148 | The returned key is the candidate built from the last 16-draw pass it consumed. |
| `LicenseKeys.FirstFreshKeyIsFirst` | license_management/models/software_license.py:140-149 | The returned key is well formed, and every earlier pass drew a key already held. When no key is returned, every full pass drew a held key. |
| `LicenseKeys.AlphabetAt` | license_management/models/software_license.py:138 | Draw d picks `A`+d for d < 26 and `0`+(d-26) otherwise, always a character of `[A-Z0-9]`. |
| `LicenseKeys.CandidateKeyLayout` | license_management/models/software_license.py:141-145 | A candidate (`CandidateKey`, the key one pass builds) has 19 characters. It has `-` at positions 4, 9 and 14, and the draws in order elsewhere. |
| `LicenseKeys.CandidateKeyWellFormed` | license_management/models/software_license.py:138-145 | Every candidate matches `^[A-Z0-9]{4}(-[A-Z0-9]{4}){3}$`. |
| `LicenseKeys.CandidateKeyDraws` | license_management/models/software_license.py:138-145 | The draws can be read back from a candidate, so distinct draws give distinct keys. |
| `LicenseKeys.WellFormedKeyIsCandidate` | license_management/models/software_license.py:138-145 | Every key of the format is the candidate of some draws, so the generator can produce every well-formed key. |
| `LicenseCreate.PassFillsDefaults` | license_management/models/software_license.py:128-132 | One pass calls the sequence exactly when the dict needs a number (`NeedsNumber`: no name, or 'New'), and otherwise keeps the name. A dict that needs a number gets a non-empty name. A supplied non-empty key is kept with no draws (`NeedsKey`). A dict that lacked a key gets a well-formed key that no stored license holds, unless the draws ran out. The start date and the duration are never touched. |
| `LicenseCreate.NumberOrPlaceholder` | license_management/models/software_license.py:129 | `next_by_code(...) or 'New'` is never empty. It is the sequence's value whenever that value is a non-empty string, and 'New' otherwise. |
| `LicenseCreate.PrepareOne` | license_management/models/software_license.py:126-132 | One pass of the loop never consumes more draws than it was given. |
| `LicenseCreate.PrepareFirst` | license_management/models/software_license.py:126-132 | After n passes the loop has passed over at most n dicts, exactly n when no pass ran out of draws, and has consumed no more draws than it was given. |
| `LicenseCreate.PrepareAll` | license_management/models/software_license.py:126-132 | The prepared batch has one dict per input dict, and consumes no more draws than it was given. |
| `LicenseCreate.FillDefaults` | license_management/models/software_license.py:128-132 | One dict gets the sequence's value as its name only when the name is missing or 'New'. It gets a generated key only when the key is missing or empty. This is exactly `PrepareOne`. |
| `LicenseCreate.Create` | license_management/models/software_license.py:122-134 | The vals array is updated in place into `PrepareAll` of its old contents. The method reports completion, the sequence calls made and the draws consumed. |
| `LicenseCreate.FillAt` | license_management/models/software_license.py:126-132 | The loop body fills the dict at index i in place: the dicts passed over grow by exactly that dict, as `PrepareFirst` prescribes, and the later dicts are untouched. |
| `LicenseCreate.SuppliedValuesKept` | license_management/models/software_license.py:128-132 | A supplied name other than 'New' and a supplied non-empty key pass through unchanged. Other fields never change. |
| `LicenseCreate.CompleteBatchKeys` | license_management/models/software_license.py:131-132 | In a completed batch, every dict that had no key holds a well-formed key that no stored license holds. |
| `LicenseCreate.CompleteBatchNumbers` | license_management/models/software_license.py:128-129 | In a completed batch, the sequence is called once per dict that needed a number. Each such dict holds the sequence's next value in batch order, or 'New'. |
| `LicenseCreate.PassesNumbers` | license_management/models/software_license.py:126-129 | Whether or not the draws ran out, the sequence was called once per dict passed over that needed a number, and each such dict holds the value of its own call. |
| `LicenseCreate.PassesKeys` | license_management/models/software_license.py:126-132 | While no pass has run out of draws, every dict passed over that needed a key holds a well-formed key no stored license holds. |
| `LicenseCreate.StaysStopped` | license_management/models/software_license.py:126-132 | Once a pass has run out of draws, later passes change nothing. |
| `LicenseCreate.SameBatchKeysCanCoincide` | license_management/models/software_license.py:148 | Keys are checked only against stored licenses, so two dicts of one batch can receive the same key. |
| `SoftwareLicense.License.constructor` | license_management/models/software_license.py:14-100 | A new record is in state draft, not renewed, not expiring soon. Its stored expiration is computed from start and duration. |
| `SoftwareLicense.ExpirationFor` | license_management/models/software_license.py:157-160 | An expiration is set exactly when the start is set and the duration is not 0. It then lies 30·months days after the start. |
| `SoftwareLicense.FirstRenewed` | license_management/models/software_license.py:154-156 | The index where the compute stops: every record before it is unrenewed, and the record at it is renewed. |
| `SoftwareLicense.ComputeExpirationDate` | license_management/models/software_license.py:151-160 | Records before the first renewed one get start + 30·months, or no expiration when the start is unset or the duration is 0. The renewed record and all later records keep their old expiration. Only `expiration_date` is written. |
| `SoftwareLicense.ComputeExpirationDateSkippingRenewed` | license_management/models/software_license.py:154-160 | Corrected compute: every unrenewed record is recomputed and every renewed one keeps its expiration. |
| `SoftwareLicense.EarlyReturnExample` | license_management/models/software_license.py:154-156 | For a batch [renewed, other], the as-written compute leaves `other` without an expiration, while the corrected compute gives it day 130. |
| `SoftwareLicense.ExpirationExample` | license_management/models/software_license.py:158 | Start 2024-01-01, 12 months: expiration 2024-12-26. |
| `SoftwareLicense.DatesOk` | license_management/models/software_license.py:166-167 | A record passes the date check exactly when either date is unset or the start is before the expiration. |
| `SoftwareLicense.CheckDates` | license_management/models/software_license.py:162-168 | Passes exactly when every record has either date unset or its expiration after its start. Otherwise it fails with the date error. |
| `SoftwareLicense.ComputedExpirationPassesCheck` | license_management/models/software_license.py:157-168 | A computed expiration passes the date check if and only if the start is unset or the duration is not negative. When set, it lies 30·months days after the start. |
| `SoftwareLicense.DaysUntilExpiration` | license_management/models/software_license.py:102-111 | today + days = expiration when an expiration is set, and days = 0 otherwise. |
| `SoftwareLicense.ComputeDaysUntilExpiration` | license_management/models/software_license.py:102-111 | Every record's `days_until_expiration` becomes `DaysUntilExpiration` of its expiration and today. Only that field is written. |
| `SoftwareLicense.ReminderDue` | license_management/models/software_license.py:222-226 | Every license the reminder search selects is flagged as expiring soon. |
| `SoftwareLicense.ComputeIsExpiringSoon` | license_management/models/software_license.py:113-120 | Every record's `is_expiring_soon` becomes: active and 0 ≤ days ≤ 7. Only that field is written. |
| `SoftwareLicense.ExpiringSoonIsReminderDue` | license_management/models/software_license.py:113-120 | For a license with an expiration date, "expiring soon" (`ExpiringSoon`: active with 0 to 7 days left) holds if and only if the reminder job's search selects it (active, today ≤ expiration ≤ today+7). |
| `SoftwareLicense.ExpiringSoonWithoutExpiration` | license_management/models/software_license.py:107-120 | An active license with no expiration date counts as expiring soon, but the reminder job does not select it. |
| `SoftwareLicense.IntendedExpiringSoon` | license_management/models/software_license.py:113-120 | Corrected flag: it holds if and only if the reminder job selects the license, for every input. |
| `SoftwareLicense.WriteState` | license_management/models/software_license.py:172 | `write({'state': s})`: every record of the batch gets state s, whatever its prior state. Only `state` is written. |
| `SoftwareLicense.ActionActivate` | license_management/models/software_license.py:170-172 | Every record becomes active from any state. No other field is written. |
| `SoftwareLicense.ActionSuspend` | license_management/models/software_license.py:174-176 | Every record becomes suspended from any state. No other field is written. |
| `SoftwareLicense.ActionCancel` | license_management/models/software_license.py:178-180 | Every record becomes canceled from any state. No other field is written. |
| `SoftwareLicense.ActionDraft` | license_management/models/software_license.py:201-203 | Every record becomes draft from any state. No other field is written. |
| `SoftwareLicense.ShouldExpire` | license_management/models/software_license.py:209-212 | A license the sweep selects has a negative number of days left, and the reminder search does not select it. |
| `SoftwareLicense.SweptState` | license_management/models/software_license.py:209-213 | The sweep either keeps a license's state or turns an active license into an expired one. Afterwards the sweep would not select the license again. |
| `SoftwareLicense.SearchExpired` | license_management/models/software_license.py:209-212 | Selects exactly the licenses that are active with an expiration before today. |
| `SoftwareLicense.CronCheckExpiredLicenses` | license_management/models/software_license.py:205-214 | Exactly the active licenses with expiration < today become expired. All other licenses keep their state, no other field is written, and the method returns true. |
| `SoftwareLicense.SweepIdempotent` | license_management/models/software_license.py:205-214 | A second sweep on the same day gives the same states as one sweep, and no overdue active license remains. |
| `SoftwareLicense.SweepExample` | license_management/models/software_license.py:209-213 | On 2024-06-15, an active license that expired 2024-06-14 is swept. One expiring 2024-06-16 is untouched. |
| `SoftwareLicense.SearchExpiring` | license_management/models/software_license.py:216-226 | Selects exactly the licenses that are active with today ≤ expiration ≤ today+7. |
| `SoftwareLicense.HasEmail` | license_management/models/software_license.py:234 | An email is truthy exactly when it is set and not empty. |
| `SoftwareLicense.ReminderRecipient` | license_management/models/software_license.py:234 | As written: no recipient without a parent contact. With a parent, the customer's own non-empty email, otherwise the parent's. |
| `SoftwareLicense.RecipientDropsOwnEmail` | license_management/models/software_license.py:234 | A customer with an email and no parent contact gets no recipient. |
| `SoftwareLicense.IntendedReminderRecipient` | license_management/models/software_license.py:234 | Corrected: the customer's own non-empty email first. Otherwise the parent's email, or none without a parent. |
| `SoftwareLicense.RecipientReadingsAgreeWithParent` | license_management/models/software_license.py:234 | The two readings agree for every customer that has a parent contact. |
| `LicenseRenewal.RenewWizard.constructor` | license_management/wizard/software_license_renew_wizard.py:9-14 | The wizard points at the given license. |
| `LicenseRenewal.RenewWizard.DurationMonths` | license_management/wizard/software_license_renew_wizard.py:16-20 | The wizard's duration is the license's `duration_months`: the related field holds no copy. |
| `LicenseRenewal.RenewWizard.SetDurationMonths` | license_management/wizard/software_license_renew_wizard.py:16-26 | Editing the wizard's duration writes the license's `duration_months`. A value ≤ 0 is rejected with a validation error and leaves the license's duration unchanged. The wizard's duration always reads the license's. |
| `LicenseRenewal.CheckDurationMonths` | license_management/wizard/software_license_renew_wizard.py:22-26 | Passes exactly when every wizard's duration is positive. Otherwise it fails with the duration error. |
| `LicenseRenewal.RenewedExpirationIsCompute` | license_management/wizard/software_license_renew_wizard.py:31-32 | One renewal (`RenewedExpiration`) gives the compute's expiration for a new start the day after the old expiration, with the wizard's duration. |
| `LicenseRenewal.RenewedTimesClosedForm` | license_management/wizard/software_license_renew_wizard.py:31-32 | n renewals of the same duration move the expiration by n·(1 + 30·months) days. |
| `LicenseRenewal.FirstWithoutExpiration` | license_management/wizard/software_license_renew_wizard.py:31 | The index of the first wizard whose license has no expiration date, where `renew_license` raises. |
| `LicenseRenewal.RenewLicense` | license_management/wizard/software_license_renew_wizard.py:28-36 | Each license renewed n times by the batch gets expiration old + n·(1 + 30·months), applied one renewal at a time, and `date_renewed` = today. A license no wizard reached is unchanged. A single wizard sets the expiration to old + 1 + 30·duration. The method fails exactly when some wizard's license has no expiration, after renewing the licenses of the wizards before it. Its frame admits writes only to `expiration_date` and `date_renewed`, so state, start date and duration never change and an expired license stays expired. |
| `LicenseRenewal.RenewOne` | license_management/wizard/software_license_renew_wizard.py:31-35 | The loop body for one wizard: its license gets one more renewal, and every other license keeps what the earlier wizards gave it. |
| `LicenseRenewal.HitsStep` | license_management/wizard/software_license_renew_wizard.py:29-30 | Counting wizards that point at a license grows by one exactly at the wizards that point at it. |
| `LicenseRenewal.RenewedAsStep` | license_management/wizard/software_license_renew_wizard.py:31-35 | One more renewal of a license with an expiration extends the renewal count by one. |
| `LicenseRenewal.RenewalIsLater` | license_management/wizard/software_license_renew_wizard.py:31-32 | One renewal moves the expiration later if and only if the duration is not negative. The shift is 1 + 30·months days. |
| `LicenseRenewal.RenewedTimesGrows` | license_management/wizard/software_license_renew_wizard.py:28-32 | With a non-negative duration, n renewals move the expiration at least n days later. |
| `LicenseRenewal.RenewalKeepsDatesOk` | license_management/wizard/software_license_renew_wizard.py:31-32 | A license whose dates passed `_check_dates` still passes it after any number of renewals with a non-negative duration. |
| `LicenseRenewal.RenewalExample` | license_management/wizard/software_license_renew_wizard.py:31-32 | Expiration 2024-12-27, 6 months: new expiration 2025-06-26. |

## Left out

- LicenseKeys.GenerateLicenseKey: the source draws again forever until a key is fresh. The model stops and returns None when the supplied draws run out, because termination of the retry loop is only probabilistic.
- LicenseCreate.Create: when the draws run out, it stops with `complete` false and leaves the remaining dicts untouched. The source never stops, for the same reason.
- LicenseCreate.Create: the dicts are modelled as values. A `vals_list` that repeats one dict object is not modelled. In the source, the pass over the second occurrence finds the name and key that the first pass wrote, so the sequence is called once and both records get the same number and key. The model fills each entry separately.
- LicenseCreate.Create: storing the prepared dicts (`super().create`) is not modelled. The `License` constructor stands for a stored record.
- Persistence, `search` ordering and record caching are not modelled. The contracts of `SearchExpired` and `SearchExpiring` state which licenses are selected, not their order. The order of the result is not modelled.
- Transaction rollback is not modelled. When `_check_dates` or `renew_license` raises, the database would undo the writes of the transaction. The model keeps the writes made before the error, except `SetDurationMonths`, which undoes its own write.
- When the framework calls a compute or a constraint is not modelled (recompute ordering). The computes and checks are methods that a caller invokes. In particular, editing a duration does not recompute the expiration by itself.
- `is_expiring_soon` is stored but depends on today. When its stored value goes stale is not modelled. It also depends on `state`, and the framework recomputes it after every state write: activating a draft license with 3 days left sets it. In the model, a state write (`WriteState`, the four actions, `CronCheckExpiredLicenses`) leaves `isExpiringSoon` as it was, and a caller runs `ComputeIsExpiringSoon`.
- `days_until_expiration` is not stored in the source (`store=False`), so it is recomputed on every read. The model keeps it as a cached field that a caller refreshes with `ComputeDaysUntilExpiration`. The constructor's 0 is a placeholder, so `ComputeIsExpiringSoon` sees a fresh value only after that refresh.
- SoftwareLicense.ComputeExpirationDate and SoftwareLicense.ComputeExpirationDateSkippingRenewed: require a recordset without repeated records, which an Odoo recordset given to a compute is.
- The `ir.sequence` numbering format (prefix, padding) is not modelled. The sequence is an oracle.
- The secure random source is not modelled. It is the supplied draw stream.
- The email template lookup and `send_mail` (lines 228-236, apart from the recipient expression) are not modelled, nor is `mail.thread` tracking or the `print` on line 125. These are side effects.
- `action_renew` and `action_view_licenses`, and `license_count` in `product_template.py` and `res_partner.py`, are not modelled. They build UI action dictionaries or count records.
- `company_id`, `notes` and `product_id` are not modelled. No operation of the core reads them.
- The `active` (archiving) flag is not modelled. Odoo's `search` skips archived licenses by default, so the key lookup and the sweep and reminder searches see only unarchived licenses. In the model, `existing` (`GenerateLicenseKey`, `Create`) and `licenses` (`CronCheckExpiredLicenses`, `SearchExpired`, `SearchExpiring`) stand for the unarchived licenses. An archived license's key therefore counts as free and can be drawn again. An archived license that is active and past its expiration is never swept.
- The commented-out renewal code (lines 192-199) is not modelled.
- Dates are unbounded integers: Python's year range 1-9999 (`OverflowError`) is not modelled. `duration_months` is an unbounded integer, not a 32-bit column.
- An unset email is `None`. `HasEmail` treats `Some("")` as falsy, as Python does. For a name, `False` is not distinguished from a supplied name.

## Findings

| source | as written | input that shows it | evidently intended | confidence | as-written member | corrected member |
|---|---|---|---|---|---|---|
| license_management/models/software_license.py:156 | `return` leaves the whole compute at the first renewed record, so later records of the batch are never recomputed | batch [renewed license, license with start day 100 whose duration was changed from 0 to 1]: the second keeps no expiration (`EarlyReturnExample`) | skip only the renewed record (`continue`), giving the second license day 130 | medium, not executed | `SoftwareLicense.ComputeExpirationDate` | `SoftwareLicense.ComputeExpirationDateSkippingRenewed` |
| license_management/models/software_license.py:107-119 | a license without an expiration date gets 0 days left, so an active one is flagged as expiring soon | active license with no expiration date (duration 0) | not expiring soon, matching the reminder job, which never selects it | medium, not executed | `SoftwareLicense.ExpiringSoonWithoutExpiration` | `SoftwareLicense.IntendedExpiringSoon` |
| license_management/models/software_license.py:234 | `a or b if c else None` parses as `(a or b) if c else None` | customer with email `a@example.com` and no parent contact: no recipient | the customer's own email, with the parent's as fallback | high, not executed | `SoftwareLicense.RecipientDropsOwnEmail` | `SoftwareLicense.IntendedReminderRecipient` |

The operations model the code as written: `ComputeExpirationDate`,
`ComputeIsExpiringSoon` and `ReminderRecipient` are the source's behaviour.
The corrected members stand beside them, and lemmas relate the two
(`EarlyReturnExample`, `IntendedExpiringSoon`,
`RecipientReadingsAgreeWithParent`).
