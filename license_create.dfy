/**
 * `SoftwareLicense.create`: before the records are stored, each vals dict of
 * the batch gets a license number from the `software.license` sequence when
 * the caller gave none (or gave the placeholder 'New'), and a generated key
 * when the caller gave none.
 *
 * The sequence is an oracle: `sequence(n)` is what `next_by_code` returns on
 * its n-th call (None for `False`, when no sequence is configured), and
 * `issued` counts the calls made before this batch. Keys are drawn from the
 * supplied stream `draws` and checked against the keys already stored,
 * `existing`, which does not change during the batch.
 */
module LicenseCreate {
  import opened Wrappers
  import opened LicenseKeys

  /** The values a caller passes for one new license; None is a key absent from the dict. */
  datatype LicenseVals = LicenseVals(
    name: Option<string>,
    licenseKey: Option<string>,
    startDate: Option<int>,
    durationMonths: Option<int>)

  /** The placeholder name of a license that has no number yet. */
  const Placeholder := "New"

  /** `val.get('name', 'New') == 'New'` */
  predicate NeedsNumber(v: LicenseVals) {
    v.name.None? || v.name.value == Placeholder
  }

  /** `not val.get('license_key')`: the key is absent, False or empty. */
  predicate NeedsKey(v: LicenseVals) {
    v.licenseKey.None? || v.licenseKey.value == ""
  }

  /** `next_by_code(...) or 'New'` */
  function NumberOrPlaceholder(number: Option<string>): (name: string)
    ensures name != ""
    ensures number.Some? && number.value != "" ==> name == number.value
    ensures !(number.Some? && number.value != "") ==> name == Placeholder
  {
    if number.Some? && number.value != "" then number.value else Placeholder
  }

  /**
   * The dicts the loop has passed over, the sequence calls made so far, the
   * draws consumed, and whether every pass got its key (false once the draws
   * ran out: the loop stops at that dict).
   */
  datatype Prepared = Prepared(vals: seq<LicenseVals>, issued: nat, drawsUsed: nat, complete: bool)

  /** One dict after its pass of the loop, with the sequence calls and draws it leaves. */
  datatype Step = Step(val: LicenseVals, issued: nat, used: nat, ok: bool)

  /** One pass of the loop of `create`: the number step, then the key step. */
  function PrepareOne(v: LicenseVals, sequence: nat -> Option<string>, issued: nat,
                      draws: seq<Draw>, existing: set<string>): (s: Step)
    ensures s.used <= |draws|
  {
    var numbered := if NeedsNumber(v) then v.(name := Some(NumberOrPlaceholder(sequence(issued)))) else v;
    var next := if NeedsNumber(v) then issued + 1 else issued;
    if !NeedsKey(v) then Step(numbered, next, 0, true)
    else
      match FirstFreshKey(draws, existing)
      case None => Step(numbered, next, |draws| - |draws| % DrawsPerKey, false)
      case Some(kd) => Step(numbered.(licenseKey := Some(kd.key)), next, kd.used, true)
  }

  /**
   * What one pass does to a dict: it calls the sequence exactly when the dict
   * needs a number, keeps a name other than 'New' and a non-empty key, gives a
   * dict that lacked a key a well-formed key no stored license holds unless
   * the draws ran out, and never touches the start date or the duration.
   */
  lemma PassFillsDefaults(v: LicenseVals, sequence: nat -> Option<string>, issued: nat,
                          draws: seq<Draw>, existing: set<string>)
    ensures var s := PrepareOne(v, sequence, issued, draws, existing);
      (s.issued == issued + 1 <==> NeedsNumber(v)) &&
      (!NeedsNumber(v) ==> s.issued == issued && s.val.name == v.name) &&
      (NeedsNumber(v) ==> s.val.name.Some? && s.val.name.value != "") &&
      (!NeedsKey(v) ==> s.val.licenseKey == v.licenseKey && s.used == 0 && s.ok) &&
      (NeedsKey(v) && s.ok ==>
         s.val.licenseKey.Some? && WellFormedKey(s.val.licenseKey.value) && s.val.licenseKey.value !in existing) &&
      s.val.startDate == v.startDate && s.val.durationMonths == v.durationMonths
  {
    if NeedsKey(v) {
      FirstFreshKeyIsFirst(draws, existing);
    }
  }

  /**
   * The loop of `create` after its first `n` passes, front to back; once a
   * pass runs out of draws the loop stops and later passes change nothing.
   */
  function PrepareFirst(vs: seq<LicenseVals>, n: nat, sequence: nat -> Option<string>, issued: nat,
                        draws: seq<Draw>, existing: set<string>): (p: Prepared)
    requires n <= |vs|
    ensures p.drawsUsed <= |draws|
    ensures |p.vals| <= n && (p.complete ==> |p.vals| == n)
  {
    if n == 0 then Prepared([], issued, 0, true)
    else
      var p := PrepareFirst(vs, n - 1, sequence, issued, draws, existing);
      if !p.complete then p
      else
        var s := PrepareOne(vs[n - 1], sequence, p.issued, draws[p.drawsUsed..], existing);
        Prepared(p.vals + [s.val], s.issued, p.drawsUsed + s.used, s.ok)
  }

  /** What `create` does to a whole batch: the dicts it passed over, then the ones it never reached. */
  function PrepareAll(vs: seq<LicenseVals>, sequence: nat -> Option<string>, issued: nat,
                      draws: seq<Draw>, existing: set<string>): (p: Prepared)
    ensures |p.vals| == |vs| && p.drawsUsed <= |draws|
  {
    var q := PrepareFirst(vs, |vs|, sequence, issued, draws, existing);
    q.(vals := q.vals + vs[|q.vals|..])
  }

  /**
   * One pass of the loop: `val['name'] = next_by_code(...) or 'New'` when the
   * name is missing or 'New', then `val['license_key'] = _generate_license_key()`
   * when the key is missing or empty.
   */
  method FillDefaults(val: LicenseVals, sequence: nat -> Option<string>, issued: nat,
                      draws: seq<Draw>, existing: set<string>)
    returns (filled: LicenseVals, issuedAfter: nat, used: nat, ok: bool)
    ensures Step(filled, issuedAfter, used, ok) == PrepareOne(val, sequence, issued, draws, existing)
  {
    filled, issuedAfter, used, ok := val, issued, 0, true;
    if val.name.None? || val.name.value == Placeholder {
      var number := sequence(issued);
      issuedAfter := issued + 1;
      filled := filled.(name := Some(NumberOrPlaceholder(number)));
    }
    if val.licenseKey.None? || val.licenseKey.value == "" {
      var key;
      key, used := GenerateLicenseKey(draws, existing);
      if key.None? {
        ok := false;
      } else {
        filled := filled.(licenseKey := key);
      }
    }
  }

  /**
   * The `create` override: fill in the number and the key of each dict of
   * the batch in place. Returns whether every dict got a key, the sequence
   * calls made and the draws consumed.
   */
  method Create(vals: array<LicenseVals>, sequence: nat -> Option<string>, issued: nat,
                draws: seq<Draw>, existing: set<string>)
    returns (complete: bool, issuedAfter: nat, drawsUsed: nat)
    modifies vals
    ensures var p := PrepareAll(old(vals[..]), sequence, issued, draws, existing);
      vals[..] == p.vals && complete == p.complete && issuedAfter == p.issued && drawsUsed == p.drawsUsed
  {
    ghost var original := vals[..];
    ghost var done: seq<LicenseVals> := [];
    var counter: nat, pos: nat := issued, 0;
    for i := 0 to vals.Length
      invariant PreparedAs(original, i, sequence, issued, draws, existing, Prepared(done, counter, pos, true))
      invariant vals[..] == done + original[i..]
    {
      var next, used, ok := FillAt(vals, i, sequence, issued, draws, existing, original, done, counter, pos);
      counter := next;
      done := done + [vals[i]];
      pos := pos + used;
      if !ok {
        StoppedAll(original, i + 1, sequence, issued, draws, existing, Prepared(done, counter, pos, false));
        return false, counter, pos;
      }
    }
    StoppedAll(original, vals.Length, sequence, issued, draws, existing, Prepared(done, counter, pos, true));
    return true, counter, pos;
  }

  /** The loop of `create` after its first `n` passes is in state `p`. */
  predicate PreparedAs(vs: seq<LicenseVals>, n: nat, sequence: nat -> Option<string>, issued: nat,
                       draws: seq<Draw>, existing: set<string>, p: Prepared)
    requires n <= |vs|
  {
    PrepareFirst(vs, n, sequence, issued, draws, existing) == p
  }

  /** The body of the loop of `create` for the dict at index `i`, filled in place. */
  method FillAt(vals: array<LicenseVals>, i: nat, sequence: nat -> Option<string>, issued: nat,
                draws: seq<Draw>, existing: set<string>, ghost original: seq<LicenseVals>,
                ghost done: seq<LicenseVals>, counter: nat, pos: nat)
    returns (next: nat, used: nat, ok: bool)
    requires i < vals.Length && |original| == vals.Length
    requires PreparedAs(original, i, sequence, issued, draws, existing, Prepared(done, counter, pos, true))
    requires vals[..] == done + original[i..]
    modifies vals
    ensures PreparedAs(original, i + 1, sequence, issued, draws, existing, Prepared(done + [vals[i]], next, pos + used, ok))
    ensures vals[..] == (done + [vals[i]]) + original[i + 1..]
  {
    assert vals[i] == original[i];
    var filled;
    filled, next, used, ok := FillDefaults(vals[i], sequence, counter, draws[pos..], existing);
    PassStep(original, i, sequence, issued, draws, existing, filled, next, used, ok);
    ghost var before := vals[..];
    vals[i] := filled;
    assert vals[..] == before[i := filled];
    Overwrite(done, original, filled);
  }

  /** Overwriting the first untouched dict moves the boundary between passed and untouched dicts. */
  lemma {:induction false} Overwrite(done: seq<LicenseVals>, original: seq<LicenseVals>, filled: LicenseVals)
    requires |done| < |original|
    ensures (done + original[|done|..])[|done| := filled] == (done + [filled]) + original[|done| + 1..]
  {
  }

  /** One pass of the loop extends the dicts passed over by the one it filled. */
  lemma {:induction false} PassStep(vs: seq<LicenseVals>, i: nat, sequence: nat -> Option<string>, issued: nat,
                 draws: seq<Draw>, existing: set<string>, filled: LicenseVals, next: nat, used: nat, ok: bool)
    requires i < |vs|
    requires var p := PrepareFirst(vs, i, sequence, issued, draws, existing);
      p.complete &&
      Step(filled, next, used, ok) == PrepareOne(vs[i], sequence, p.issued, draws[p.drawsUsed..], existing)
    ensures var p := PrepareFirst(vs, i, sequence, issued, draws, existing);
      PrepareFirst(vs, i + 1, sequence, issued, draws, existing) ==
        Prepared(p.vals + [filled], next, p.drawsUsed + used, ok)
  {
  }

  /** Where the loop ends, at the last dict or at the one that ran out of draws, the rest is untouched. */
  lemma {:induction false} StoppedAll(vs: seq<LicenseVals>, n: nat, sequence: nat -> Option<string>, issued: nat,
                   draws: seq<Draw>, existing: set<string>, q: Prepared)
    requires n <= |vs| && PreparedAs(vs, n, sequence, issued, draws, existing, q)
    requires n == |vs| || !q.complete
    ensures var p := PrepareAll(vs, sequence, issued, draws, existing);
      p.vals == q.vals + vs[|q.vals|..] && p.complete == q.complete && p.issued == q.issued && p.drawsUsed == q.drawsUsed
  {
    if n < |vs| {
      StaysStopped(vs, n, |vs|, sequence, issued, draws, existing);
    }
  }

  /** Once the loop has stopped, later passes change nothing. */
  lemma {:induction false} StaysStopped(vs: seq<LicenseVals>, n: nat, m: nat, sequence: nat -> Option<string>,
                                        issued: nat, draws: seq<Draw>, existing: set<string>)
    requires n <= m <= |vs|
    requires !PrepareFirst(vs, n, sequence, issued, draws, existing).complete
    ensures PrepareFirst(vs, m, sequence, issued, draws, existing) == PrepareFirst(vs, n, sequence, issued, draws, existing)
    decreases m
  {
    if m > n {
      StaysStopped(vs, n, m - 1, sequence, issued, draws, existing);
    }
  }

  // ---------------------------------------------------------------------------
  // Properties of the prepared batch

  /**
   * Supplied values pass through: a dict that has a real name keeps it, one
   * that has a key keeps it, and the other fields never change. Only a dict
   * without a number or a key gets one.
   */
  lemma {:induction false} SuppliedValuesKept(vs: seq<LicenseVals>, sequence: nat -> Option<string>, issued: nat,
                           draws: seq<Draw>, existing: set<string>)
    ensures var p := PrepareAll(vs, sequence, issued, draws, existing);
      forall i :: 0 <= i < |vs| ==> Kept(vs[i], p.vals[i])
  {
    var q := PrepareFirst(vs, |vs|, sequence, issued, draws, existing);
    PassesKeep(vs, |vs|, sequence, issued, draws, existing);
    var all := q.vals + vs[|q.vals|..];
    forall i | 0 <= i < |vs|
      ensures Kept(vs[i], all[i])
    {
      if i >= |q.vals| {
        assert all[i] == vs[i];
      }
    }
  }

  /** `after` is `before` with at most a number and a key filled in where `before` had none. */
  predicate Kept(before: LicenseVals, after: LicenseVals) {
    after.startDate == before.startDate &&
    after.durationMonths == before.durationMonths &&
    (!NeedsNumber(before) ==> after.name == before.name) &&
    (!NeedsKey(before) ==> after.licenseKey == before.licenseKey)
  }

  lemma {:induction false} PassesKeep(vs: seq<LicenseVals>, n: nat, sequence: nat -> Option<string>, issued: nat,
                                      draws: seq<Draw>, existing: set<string>)
    requires n <= |vs|
    ensures var q := PrepareFirst(vs, n, sequence, issued, draws, existing);
      forall i :: 0 <= i < |q.vals| ==> Kept(vs[i], q.vals[i])
  {
    if n > 0 {
      PassesKeep(vs, n - 1, sequence, issued, draws, existing);
    }
  }

  /**
   * When every dict got its key, each dict that needed a key holds a
   * well-formed key that no stored license holds.
   */
  lemma {:induction false} CompleteBatchKeys(vs: seq<LicenseVals>, sequence: nat -> Option<string>, issued: nat,
                          draws: seq<Draw>, existing: set<string>)
    requires PrepareAll(vs, sequence, issued, draws, existing).complete
    ensures var p := PrepareAll(vs, sequence, issued, draws, existing);
      forall i :: 0 <= i < |vs| && NeedsKey(vs[i]) ==> FreshKey(p.vals[i], existing)
  {
    PassesKeys(vs, |vs|, sequence, issued, draws, existing);
    assert vs[|vs|..] == [];
  }

  /** The dict holds a well-formed key that no stored license holds. */
  predicate FreshKey(v: LicenseVals, existing: set<string>) {
    v.licenseKey.Some? && WellFormedKey(v.licenseKey.value) && v.licenseKey.value !in existing
  }

  lemma {:induction false} PassesKeys(vs: seq<LicenseVals>, n: nat, sequence: nat -> Option<string>, issued: nat,
                                      draws: seq<Draw>, existing: set<string>)
    requires n <= |vs|
    requires PrepareFirst(vs, n, sequence, issued, draws, existing).complete
    ensures var q := PrepareFirst(vs, n, sequence, issued, draws, existing);
      forall i :: 0 <= i < n && NeedsKey(vs[i]) ==> FreshKey(q.vals[i], existing)
  {
    if n > 0 {
      var p := PrepareFirst(vs, n - 1, sequence, issued, draws, existing);
      PassesKeys(vs, n - 1, sequence, issued, draws, existing);
      FirstFreshKeyIsFirst(draws[p.drawsUsed..], existing);
    }
  }

  /** How many of the first `n` dicts of `vs` take a number from the sequence. */
  function NumbersBefore(vs: seq<LicenseVals>, n: nat): (count: nat)
    requires n <= |vs|
    ensures count <= n
  {
    if n == 0 then 0
    else NumbersBefore(vs, n - 1) + if NeedsNumber(vs[n - 1]) then 1 else 0
  }

  /**
   * The dict at `i` holds the value of the sequence call made for it, if it
   * needed a number: the calls before it are one per earlier dict that needed one.
   */
  predicate NumberedAt(vs: seq<LicenseVals>, prepared: seq<LicenseVals>, i: nat,
                       sequence: nat -> Option<string>, issued: nat)
    requires i < |vs| && i < |prepared|
  {
    NeedsNumber(vs[i]) ==> prepared[i].name == Some(NumberOrPlaceholder(sequence(issued + NumbersBefore(vs, i))))
  }

  /**
   * When every dict got its key, the sequence was called once per dict that
   * needed a number, and each such dict holds the sequence's value for its
   * place in the batch (or 'New' when the sequence gave none).
   */
  lemma {:induction false} CompleteBatchNumbers(vs: seq<LicenseVals>, sequence: nat -> Option<string>, issued: nat,
                             draws: seq<Draw>, existing: set<string>)
    requires PrepareAll(vs, sequence, issued, draws, existing).complete
    ensures var p := PrepareAll(vs, sequence, issued, draws, existing);
      p.issued == issued + NumbersBefore(vs, |vs|) &&
      forall i :: 0 <= i < |vs| ==> NumberedAt(vs, p.vals, i, sequence, issued)
  {
    PassesNumbers(vs, |vs|, sequence, issued, draws, existing);
    var q := PrepareFirst(vs, |vs|, sequence, issued, draws, existing);
    assert vs[|vs|..] == [];
    assert PrepareAll(vs, sequence, issued, draws, existing).vals == q.vals;
  }

  /**
   * After `n` passes, the sequence was called once per dict the loop passed
   * over that needed a number, and each such dict holds the value of its
   * call, whether or not the draws ran out.
   */
  lemma {:induction false} PassesNumbers(vs: seq<LicenseVals>, n: nat, sequence: nat -> Option<string>, issued: nat,
                                         draws: seq<Draw>, existing: set<string>)
    requires n <= |vs|
    ensures var q := PrepareFirst(vs, n, sequence, issued, draws, existing);
      q.issued == issued + NumbersBefore(vs, |q.vals|) &&
      forall i :: 0 <= i < |q.vals| ==> NumberedAt(vs, q.vals, i, sequence, issued)
  {
    if n > 0 {
      var p := PrepareFirst(vs, n - 1, sequence, issued, draws, existing);
      PassesNumbers(vs, n - 1, sequence, issued, draws, existing);
      if p.complete {
        var q := PrepareFirst(vs, n, sequence, issued, draws, existing);
        NumberedLast(vs, n, sequence, issued, draws, existing);
        assert q.vals[..n - 1] == p.vals;
        NumberedPrefix(vs, p.vals, q.vals, sequence, issued);
      }
    }
  }

  /** Numbering facts carry over to a batch that begins with the same dicts. */
  lemma {:induction false} NumberedPrefix(vs: seq<LicenseVals>, a: seq<LicenseVals>, b: seq<LicenseVals>,
                       sequence: nat -> Option<string>, issued: nat)
    requires |a| <= |b| && |a| <= |vs| && b[..|a|] == a
    requires forall i :: 0 <= i < |a| ==> NumberedAt(vs, a, i, sequence, issued)
    ensures forall i :: 0 <= i < |a| ==> NumberedAt(vs, b, i, sequence, issued)
  {
    forall i | 0 <= i < |a|
      ensures NumberedAt(vs, b, i, sequence, issued)
    {
      assert NumberedAt(vs, a, i, sequence, issued) && b[i] == a[i];
    }
  }

  /** The pass over dict `n - 1`, when the loop reached it, numbers it with the next sequence call. */
  lemma {:induction false} NumberedLast(vs: seq<LicenseVals>, n: nat, sequence: nat -> Option<string>, issued: nat,
                     draws: seq<Draw>, existing: set<string>)
    requires 0 < n <= |vs|
    requires var p := PrepareFirst(vs, n - 1, sequence, issued, draws, existing);
      p.complete && p.issued == issued + NumbersBefore(vs, n - 1)
    ensures var q := PrepareFirst(vs, n, sequence, issued, draws, existing);
      q.issued == issued + NumbersBefore(vs, n) && |q.vals| == n &&
      NumberedAt(vs, q.vals, n - 1, sequence, issued)
  {
    var p := PrepareFirst(vs, n - 1, sequence, issued, draws, existing);
    var step := PrepareOne(vs[n - 1], sequence, p.issued, draws[p.drawsUsed..], existing);
    assert PrepareFirst(vs, n, sequence, issued, draws, existing).vals[n - 1] == step.val;
  }

  /**
   * Keys are checked only against stored licenses, so two dicts of one batch
   * can receive the same key when the draws repeat.
   */
  lemma {:induction false} SameBatchKeysCanCoincide(d: seq<Draw>, sequence: nat -> Option<string>)
    requires |d| == DrawsPerKey
    ensures var v := LicenseVals(Some("LIC/7"), None, None, None);
      var p := PrepareAll([v, v], sequence, 0, d + d, {});
      p.complete && p.vals[0].licenseKey == p.vals[1].licenseKey == Some(CandidateKey(d))
  {
    var v := LicenseVals(Some("LIC/7"), None, None, None);
    assert (d + d)[..DrawsPerKey] == d && (d + d)[DrawsPerKey..] == d && d[..DrawsPerKey] == d;
    assert FirstFreshKey(d + d, {}) == Some(KeyDraw(CandidateKey(d), DrawsPerKey));
    assert FirstFreshKey(d, {}) == Some(KeyDraw(CandidateKey(d), DrawsPerKey));
    var keyed := v.(licenseKey := Some(CandidateKey(d)));
    assert PrepareFirst([v, v], 1, sequence, 0, d + d, {}) == Prepared([keyed], 0, DrawsPerKey, true);
    assert (d + d)[DrawsPerKey..] == d;
    assert PrepareFirst([v, v], 2, sequence, 0, d + d, {}) == Prepared([keyed, keyed], 0, 2 * DrawsPerKey, true);
  }
}
