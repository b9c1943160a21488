/**
 * License key generation (`SoftwareLicense._generate_license_key`).
 *
 * A key is sixteen characters drawn from the upper-case letters and the
 * digits, in four groups of four joined by `-`. The secure random source is
 * modelled as a supplied stream of draws: draw `d` picks `Chars()[d]`, as
 * `secrets.choice(chars)` does. The source retries without bound until the
 * key is not held by an existing license; here the retries stop when the
 * stream has fewer than sixteen draws left.
 */
module LicenseKeys {
  import opened Wrappers

  /** `string.ascii_uppercase` */
  function AsciiUppercase(): (s: string)
    ensures |s| == 26
  {
    seq(26, i requires 0 <= i < 26 => ('A' as int + i) as char)
  }

  /** `string.digits` */
  function Digits(): (s: string)
    ensures |s| == 10
  {
    seq(10, i requires 0 <= i < 10 => ('0' as int + i) as char)
  }

  /** The alphabet of `chars = string.ascii_uppercase + string.digits`. */
  function Chars(): (s: string)
    ensures |s| == 36
  {
    AsciiUppercase() + Digits()
  }

  /** One `secrets.choice(chars)`: the index of the character it picks. */
  type Draw = d: int | 0 <= d < 36

  /** Number of draws one candidate key takes: four parts of four characters. */
  const DrawsPerKey := 16

  predicate IsKeyChar(c: char) {
    'A' <= c <= 'Z' || '0' <= c <= '9'
  }

  /** The format `^[A-Z0-9]{4}(-[A-Z0-9]{4}){3}$`. */
  predicate WellFormedKey(k: string) {
    |k| == 19 &&
    forall i :: 0 <= i < 19 ==> if i % 5 == 4 then k[i] == '-' else IsKeyChar(k[i])
  }

  /** `''.join(secrets.choice(chars) for _ in range(n))` for the draws `b`. */
  function Part(b: seq<Draw>): (part: string)
    ensures |part| == |b|
  {
    seq(|b|, j requires 0 <= j < |b| => Chars()[b[j]])
  }

  /** `'-'.join(parts)` */
  function JoinDash(parts: seq<string>): (joined: string) {
    if |parts| == 0 then ""
    else if |parts| == 1 then parts[0]
    else parts[0] + "-" + JoinDash(parts[1..])
  }

  /** The joined string starts with the first part; n parts of four characters join into 5n - 1. */
  lemma {:induction false} JoinDashShape(parts: seq<string>)
    requires |parts| > 0 && forall i :: 0 <= i < |parts| ==> |parts[i]| == 4
    ensures parts[0] <= JoinDash(parts)
    ensures |JoinDash(parts)| == 5 * |parts| - 1
  {
    if |parts| > 1 {
      JoinDashShape(parts[1..]);
    }
  }

  /** The four parts built from sixteen draws, four draws each. */
  function Parts(d: seq<Draw>): (parts: seq<string>)
    requires |d| == DrawsPerKey
    ensures |parts| == 4
  {
    seq(4, q requires 0 <= q < 4 => Part(d[4 * q .. 4 * q + 4]))
  }

  /** The key one pass of the retry loop builds from its sixteen draws. */
  function CandidateKey(d: seq<Draw>): (key: string)
    requires |d| == DrawsPerKey
  {
    JoinDash(Parts(d))
  }

  /** The draws of the `b`-th pass of the retry loop. */
  function Block(draws: seq<Draw>, b: nat): (d: seq<Draw>)
    requires DrawsPerKey * b + DrawsPerKey <= |draws|
    ensures |d| == DrawsPerKey
  {
    draws[DrawsPerKey * b .. DrawsPerKey * b + DrawsPerKey]
  }

  /** The result of the retry loop: the key returned and the draws it consumed. */
  datatype KeyDraw = KeyDraw(key: string, used: nat)

  /**
   * The key the retry loop returns for a stream of draws: the first candidate
   * no existing license holds, or None when the stream runs out first.
   */
  function FirstFreshKey(draws: seq<Draw>, existing: set<string>): (r: Option<KeyDraw>)
    ensures r.Some? ==> r.value.key !in existing
    ensures r.Some? ==> DrawsPerKey <= r.value.used <= |draws| && r.value.used % DrawsPerKey == 0
    decreases |draws|
  {
    if |draws| < DrawsPerKey then None
    else
      var key := CandidateKey(draws[..DrawsPerKey]);
      if key !in existing then Some(KeyDraw(key, DrawsPerKey))
      else
        match FirstFreshKey(draws[DrawsPerKey..], existing)
        case None => None
        case Some(later) => Some(KeyDraw(later.key, later.used + DrawsPerKey))
  }

  /** Shifts the draw count of a retry result by `offset` draws consumed earlier. */
  function After(r: Option<KeyDraw>, offset: nat): (shifted: Option<KeyDraw>) {
    match r
    case None => None
    case Some(kd) => Some(KeyDraw(kd.key, kd.used + offset))
  }

  /** One part of a key: `''.join(secrets.choice(chars) for _ in range(4))` over the draws `b`. */
  method DrawPart(b: seq<Draw>) returns (part: string)
    ensures part == Part(b)
  {
    part := "";
    for c := 0 to |b|
      invariant part == Part(b[..c])
    {
      assert b[..c + 1] == b[..c] + [b[c]];
      part := part + [Chars()[b[c]]];
    }
    assert b[..|b|] == b;
  }

  /** One pass of the retry loop: four parts appended to `key_parts`, then joined with `-`. */
  method DrawCandidate(seg: seq<Draw>) returns (key: string)
    requires |seg| == DrawsPerKey
    ensures key == CandidateKey(seg)
    ensures WellFormedKey(key)
  {
    var keyParts: seq<string> := [];
    for p := 0 to 4
      invariant keyParts == Parts(seg)[..p]
    {
      var part := DrawPart(seg[4 * p .. 4 * p + 4]);
      keyParts := keyParts + [part];
    }
    assert keyParts == Parts(seg);
    key := JoinDash(keyParts);
    CandidateKeyWellFormed(seg);
  }

  /**
   * `_generate_license_key`: build a candidate key and return it unless an
   * existing license already holds it; otherwise draw again. Returns None
   * (with every full pass consumed) when the draws run out.
   */
  method GenerateLicenseKey(draws: seq<Draw>, existing: set<string>) returns (key: Option<string>, used: nat)
    ensures key.Some? ==> WellFormedKey(key.value) && key.value !in existing
    ensures key.Some? ==> FirstFreshKey(draws, existing) == Some(KeyDraw(key.value, used))
    ensures key.None? ==> FirstFreshKey(draws, existing) == None && used == |draws| - |draws| % DrawsPerKey
  {
    var pos := 0;
    while pos + DrawsPerKey <= |draws|
      invariant pos <= |draws| && pos % DrawsPerKey == 0
      invariant Resumes(draws, existing, pos)
      decreases |draws| - pos
    {
      var candidate := Retry(draws, existing, pos);
      pos := pos + DrawsPerKey;
      if candidate !in existing {
        return Some(candidate), pos;
      }
    }
    DrawsExhausted(draws, existing, pos);
    return None, pos;
  }

  /** The retry loop, resumed at draw offset `pos`, returns what it returns on the whole stream. */
  predicate Resumes(draws: seq<Draw>, existing: set<string>, pos: nat)
    requires pos <= |draws|
  {
    FirstFreshKey(draws, existing) == After(FirstFreshKey(draws[pos..], existing), pos)
  }

  /** The body of the retry loop at draw offset `pos`: the candidate of the next sixteen draws. */
  method Retry(draws: seq<Draw>, existing: set<string>, pos: nat) returns (candidate: string)
    requires pos + DrawsPerKey <= |draws|
    requires Resumes(draws, existing, pos)
    ensures WellFormedKey(candidate)
    ensures candidate !in existing ==> FirstFreshKey(draws, existing) == Some(KeyDraw(candidate, pos + DrawsPerKey))
    ensures candidate in existing ==> Resumes(draws, existing, pos + DrawsPerKey)
  {
    candidate := DrawCandidate(draws[pos .. pos + DrawsPerKey]);
    RetryStep(draws, existing, pos);
  }

  /** One pass of the retry loop at draw offset `pos`, seen from the whole stream. */
  lemma {:induction false} RetryStep(draws: seq<Draw>, existing: set<string>, pos: nat)
    requires pos + DrawsPerKey <= |draws|
    requires Resumes(draws, existing, pos)
    ensures var key := CandidateKey(draws[pos .. pos + DrawsPerKey]);
      FirstFreshKey(draws, existing) ==
        if key !in existing then Some(KeyDraw(key, pos + DrawsPerKey))
        else After(FirstFreshKey(draws[pos + DrawsPerKey..], existing), pos + DrawsPerKey)
  {
    assert draws[pos..][..DrawsPerKey] == draws[pos .. pos + DrawsPerKey];
    assert draws[pos..][DrawsPerKey..] == draws[pos + DrawsPerKey..];
  }

  /** When fewer than sixteen draws are left, the loop leaves off at the last full pass with no key. */
  lemma {:induction false} DrawsExhausted(draws: seq<Draw>, existing: set<string>, pos: nat)
    requires pos <= |draws| && pos % DrawsPerKey == 0 && |draws| < pos + DrawsPerKey
    requires Resumes(draws, existing, pos)
    ensures FirstFreshKey(draws, existing) == None
    ensures pos == |draws| - |draws| % DrawsPerKey
  {
    assert FirstFreshKey(draws[pos..], existing) == None;
  }

  // ---------------------------------------------------------------------------
  // The format of a generated key

  lemma AlphabetAt(d: Draw)
    ensures IsKeyChar(Chars()[d])
    ensures d < 26 ==> Chars()[d] as int == 'A' as int + d
    ensures 26 <= d ==> Chars()[d] as int == '0' as int + d - 26
  {
    if d < 26 {
      assert Chars()[d] == AsciiUppercase()[d];
    } else {
      assert Chars()[d] == Digits()[d - 26];
    }
  }

  /** Where each character of a candidate key comes from: a `-` at 4, 9 and 14, draws elsewhere. */
  lemma {:induction false} CandidateKeyLayout(d: seq<Draw>)
    requires |d| == DrawsPerKey
    ensures |CandidateKey(d)| == 19
    ensures forall i :: 0 <= i < 19 ==>
      CandidateKey(d)[i] == if i % 5 == 4 then '-' else Chars()[d[i - i / 5]]
  {
    var ps := Parts(d);
    assert ps[1..][1..] == ps[2..] && ps[2..][1..] == ps[3..];
    assert JoinDash(ps[3..]) == ps[3];
    assert JoinDash(ps[2..]) == ps[2] + "-" + ps[3];
    assert JoinDash(ps[1..]) == ps[1] + "-" + (ps[2] + "-" + ps[3]);
    assert JoinDash(ps) == ps[0] + "-" + (ps[1] + "-" + (ps[2] + "-" + ps[3]));
    var k := CandidateKey(d);
    forall i | 0 <= i < 19
      ensures k[i] == if i % 5 == 4 then '-' else Chars()[d[i - i / 5]]
    {
      var q, r := i / 5, i % 5;
      assert i == 5 * q + r;
      if r < 4 {
        assert k[i] == ps[q][r];
        assert ps[q] == Part(d[4 * q .. 4 * q + 4]);
      }
    }
  }

  /** Every candidate key has the documented format. */
  lemma {:induction false} CandidateKeyWellFormed(d: seq<Draw>)
    requires |d| == DrawsPerKey
    ensures WellFormedKey(CandidateKey(d))
  {
    CandidateKeyLayout(d);
    forall i | 0 <= i < 19 && i % 5 != 4
      ensures IsKeyChar(CandidateKey(d)[i])
    {
      AlphabetAt(d[i - i / 5]);
    }
  }

  /** The draw that picks character `c`: the inverse of `Chars()[_]`. */
  function DrawOf(c: char): (d: Draw)
    requires IsKeyChar(c)
    ensures Chars()[d] == c
  {
    if 'A' <= c <= 'Z' then
      var d := c as int - 'A' as int;
      AlphabetAt(d);
      d
    else
      var d := 26 + c as int - '0' as int;
      AlphabetAt(d);
      d
  }

  /** The sixteen draws that would produce the well-formed key `k`. */
  function DrawsOfKey(k: string): (d: seq<Draw>)
    requires WellFormedKey(k)
    ensures |d| == DrawsPerKey
  {
    seq(16, j requires 0 <= j < 16 => DrawOf(k[j + j / 4]))
  }

  /** Distinct draws give distinct keys: the draws can be read back from the key. */
  lemma {:induction false} CandidateKeyDraws(d: seq<Draw>)
    requires |d| == DrawsPerKey
    ensures WellFormedKey(CandidateKey(d)) && DrawsOfKey(CandidateKey(d)) == d
  {
    CandidateKeyWellFormed(d);
    CandidateKeyLayout(d);
    var k := CandidateKey(d);
    forall j | 0 <= j < 16
      ensures DrawsOfKey(k)[j] == d[j]
    {
      var i := j + j / 4;
      assert i % 5 != 4 && i - i / 5 == j;
      AlphabetAt(d[j]);
    }
  }

  /** Every key of the documented format is the candidate of some draws. */
  lemma {:induction false} WellFormedKeyIsCandidate(k: string)
    requires WellFormedKey(k)
    ensures CandidateKey(DrawsOfKey(k)) == k
  {
    var d := DrawsOfKey(k);
    CandidateKeyLayout(d);
    forall i | 0 <= i < 19
      ensures CandidateKey(d)[i] == k[i]
    {
      if i % 5 != 4 {
        var j := i - i / 5;
        assert j + j / 4 == i;
      }
    }
  }

  // ---------------------------------------------------------------------------
  // The retry loop

  /** The returned key is the candidate the last pass consumed builds. */
  lemma {:induction false} FirstFreshKeyIsLastCandidate(draws: seq<Draw>, existing: set<string>)
    ensures var r := FirstFreshKey(draws, existing);
      r.Some? ==> r.value.key == CandidateKey(draws[r.value.used - DrawsPerKey .. r.value.used])
    decreases |draws|
  {
    if |draws| >= DrawsPerKey && CandidateKey(draws[..DrawsPerKey]) in existing {
      var rest := draws[DrawsPerKey..];
      FirstFreshKeyIsLastCandidate(rest, existing);
      if FirstFreshKey(rest, existing).Some? {
        var later := FirstFreshKey(rest, existing).value;
        assert rest[later.used - DrawsPerKey .. later.used] == draws[later.used .. later.used + DrawsPerKey];
      }
    }
  }

  /**
   * The returned key is well formed, and it is the first candidate not held
   * by an existing license: every earlier pass drew a key already in use.
   * When no key is returned, every full pass drew a key already in use.
   */
  lemma {:induction false} FirstFreshKeyIsFirst(draws: seq<Draw>, existing: set<string>)
    ensures var r := FirstFreshKey(draws, existing);
      (r.Some? ==> WellFormedKey(r.value.key)) &&
      forall b: nat :: (if r.Some? then DrawsPerKey * b + DrawsPerKey < r.value.used
                        else DrawsPerKey * b + DrawsPerKey <= |draws|) ==>
        CandidateKey(Block(draws, b)) in existing
    decreases |draws|
  {
    var r := FirstFreshKey(draws, existing);
    if |draws| >= DrawsPerKey && CandidateKey(draws[..DrawsPerKey]) in existing {
      var rest := draws[DrawsPerKey..];
      FirstFreshKeyIsFirst(rest, existing);
      forall b: nat | (if r.Some? then DrawsPerKey * b + DrawsPerKey < r.value.used
                       else DrawsPerKey * b + DrawsPerKey <= |draws|)
        ensures CandidateKey(Block(draws, b)) in existing
      {
        if b > 0 {
          assert Block(draws, b) == Block(rest, b - 1);
        } else {
          assert Block(draws, 0) == draws[..DrawsPerKey];
        }
      }
    }
    if r.Some? {
      FirstFreshKeyIsLastCandidate(draws, existing);
      CandidateKeyWellFormed(draws[r.value.used - DrawsPerKey .. r.value.used]);
    }
  }
}
