// internal/dependency/vault_common.go: how long to sleep before a secret is read again.

module Leasing {
  import opened Storing

  predicate Int64(x: int) {
    -0x8000_0000_0000_0000 <= x < 0x8000_0000_0000_0000
  }

  /** Go's int, int64 and time.Duration. */
  type Word = x: int | Int64(x)

  /** A field of a secret's data: a JSON number that is a 64-bit integer, one that is not, or
      something else altogether. */
  datatype Datum = Integer(n: Word) | OtherNumber | NotNumber

  datatype Auth = Auth(leaseDuration: Word, renewable: bool)

  datatype Secret = Secret(leaseId: string, leaseDuration: Word, renewable: bool, auth: Option<Auth>,
                           data: map<string, Datum>)

  type Random = r: real | 0.0 <= r < 1.0 witness 0.0

  const SECOND := 1_000_000_000

  /** 64-bit arithmetic wraps around. */
  function Wrap(x: int): (w: Word)
    ensures Int64(x) ==> w == x
  {
    (x + 0x8000_0000_0000_0000) % 0x1_0000_0000_0000_0000 - 0x8000_0000_0000_0000
  }

  /** A conversion from a real to an integer truncates toward zero. */
  function Truncate(x: real): int {
    if x >= 0.0 then x.Floor else -((-x).Floor)
  }

  predicate Renewable(s: Secret) {
    if s.auth.Some? then s.auth.value.renewable else s.renewable
  }

  // --- which field decides ---

  /** A secret without a lease that carries both fields. */
  predicate Unleased(s: Secret, tag: string, field: string) {
    s.leaseId == "" && tag in s.data && field in s.data
  }

  /** The type assertion on one of the fields panics. */
  predicate Malformed(s: Secret) {
    || (Unleased(s, "certificate", "expiration") && s.data["expiration"].NotNumber?)
    || (Unleased(s, "secret_id", "secret_id_ttl") && s.data["secret_id_ttl"].NotNumber?)
    || (Unleased(s, "rotation_period", "ttl") && s.data["ttl"].NotNumber?)
  }

  predicate Rotating(s: Secret) {
    Unleased(s, "rotation_period", "ttl") && s.data["ttl"].Integer? && s.data["ttl"].n > 0
  }

  predicate HasSecretIdTtl(s: Secret) {
    Unleased(s, "secret_id", "secret_id_ttl") && s.data["secret_id_ttl"].Integer? && s.data["secret_id_ttl"].n > 0
  }

  predicate Expiring(s: Secret) {
    Unleased(s, "certificate", "expiration") && s.data["expiration"].Integer?
  }

  /** The seconds to base the sleep on: the rotation's remaining time if there is one, else the
      secret ID's, else the certificate's, else the lease of the token or of the secret. */
  function Base(s: Secret, now: Word): Word {
    if Rotating(s) then Wrap(s.data["ttl"].n + 1)
    else if HasSecretIdTtl(s) then Wrap(s.data["secret_id_ttl"].n + 1)
    else if Expiring(s) then Wrap(s.data["expiration"].n - now)
    else if s.auth.Some? && s.auth.value.leaseDuration > 0 then s.auth.value.leaseDuration
    else s.leaseDuration
  }

  /** Which number of seconds decides. A TTL counts one second more; a token's positive lease goes
      before the secret's own; a secret with a lease ID is not looked into. */
  lemma Decides(s: Secret, now: Word, n: Word)
    requires 0 < n < 0x7FFF_FFFF_FFFF_FFFF
    ensures s.leaseId == "" && "rotation_period" in s.data && "ttl" in s.data && s.data["ttl"] == Integer(n) ==>
              Base(s, now) == n + 1
    ensures s.leaseId == "" && "rotation_period" !in s.data && "secret_id" in s.data &&
            "secret_id_ttl" in s.data && s.data["secret_id_ttl"] == Integer(n) ==>
              Base(s, now) == n + 1
    ensures s.leaseId == "" && "rotation_period" !in s.data && "secret_id" !in s.data && "certificate" in s.data &&
            "expiration" in s.data && now >= 0 && s.data["expiration"] == Integer(n) ==>
              Base(s, now) == n - now
    ensures s.leaseId != "" || s.data == map[] ==>
              && (s.auth.Some? && s.auth.value.leaseDuration == n ==> Base(s, now) == n)
              && (s.auth.None? || s.auth.value.leaseDuration <= 0 ==> Base(s, now) == s.leaseDuration)
  {
    assert Int64(now);
  }

  /** A TTL that is not positive counts for nothing. */
  lemma NoPositiveTtl(s: Secret, now: Word, field: string)
    requires field == "ttl" || field == "secret_id_ttl"
    requires field in s.data && s.data[field].Integer? && s.data[field].n <= 0
    ensures Base(s.(data := s.data - {field}), now) == Base(s, now)
  {
  }

  /** A token says itself whether it can be renewed, whatever the secret around it says. */
  lemma TokenDecidesRenewal(s: Secret, other: bool)
    ensures s.auth.Some? ==> Renewable(s.(renewable := other)) == Renewable(s) == s.auth.value.renewable
    ensures Renewable(s.(auth := None)) == s.renewable
  {
  }

  /** The pairs of fields that are looked into. */
  const LOOKUPS := [("certificate", "expiration"), ("secret_id", "secret_id_ttl"), ("rotation_period", "ttl")]

  /** A secret without a lease panics exactly if one of the three values is no JSON number. */
  lemma PanicsIff(s: Secret)
    ensures Malformed(s) <==>
            s.leaseId == "" &&
            exists i :: 0 <= i < 3 && LOOKUPS[i].0 in s.data && LOOKUPS[i].1 in s.data &&
              s.data[LOOKUPS[i].1] == NotNumber
  {
    var c, i, r := LOOKUPS[0], LOOKUPS[1], LOOKUPS[2];
    assert c == ("certificate", "expiration");
    assert i == ("secret_id", "secret_id_ttl");
    assert r == ("rotation_period", "ttl");
  }

  /** The share of the lease to sleep for. */
  function Share(s: Secret, jitter: bool, random: Random): real {
    if Renewable(s) then (random + 1.0) / 6.0
    else if !Rotating(s) && jitter then 0.85 + random * 0.1
    else 1.0
  }

  /** The lease in nanoseconds: time.Duration(base) * time.Second. */
  function Nanos(s: Secret, now: Word): Word {
    Wrap(Base(s, now) * SECOND)
  }

  /** The sleep in nanoseconds, before it is truncated to an integer. */
  function Scaled(s: Secret, now: Word, jitter: bool, random: Random): real {
    Nanos(s, now) as real * Share(s, jitter, random)
  }

  function Wait(s: Secret, now: Word, jitter: bool, random: Random): int {
    Truncate(Scaled(s, now, jitter, random))
  }

  lemma ThirdThenHalf(x: real, y: real)
    ensures x / 3.0 * y / 2.0 == x * (y / 6.0)
  {
    var t, u := x / 3.0, y / 6.0;
    assert x == 3.0 * t && y == 6.0 * u;
    assert t * (6.0 * u) == 6.0 * (t * u);
    assert (3.0 * t) * u == 3.0 * (t * u);
    assert x / 3.0 * y == t * (6.0 * u);
    assert x * (y / 6.0) == (3.0 * t) * u;
  }

  /** The first part of leaseCheckWait. */
  method ReadBase(s: Secret, now: Word) returns (panicked: bool, base: Word, rotatingSecret: bool)
    ensures panicked == Malformed(s)
    ensures !panicked ==> base == Base(s, now) && rotatingSecret == Rotating(s)
  {
    base, rotatingSecret := s.leaseDuration, false;
    if s.auth.Some? && s.auth.value.leaseDuration > 0 {
      base := s.auth.value.leaseDuration;
    }
    if "certificate" in s.data && s.leaseId == "" {
      if "expiration" in s.data {
        var exp := s.data["expiration"];
        if exp.NotNumber? {
          return true, base, false;
        }
        if exp.Integer? {
          base := Wrap(exp.n - now);
        }
      }
    }
    if "secret_id" in s.data && s.leaseId == "" {
      if "secret_id_ttl" in s.data {
        var ttl := s.data["secret_id_ttl"];
        if ttl.NotNumber? {
          return true, base, false;
        }
        if ttl.Integer? && ttl.n > 0 {
          base := Wrap(ttl.n + 1);
        }
      }
    }
    if "rotation_period" in s.data && s.leaseId == "" {
      if "ttl" in s.data {
        var ttl := s.data["ttl"];
        if ttl.NotNumber? {
          return true, base, false;
        }
        if ttl.Integer? && ttl.n > 0 {
          base := Wrap(ttl.n + 1);
          rotatingSecret := true;
        }
      }
    }
    panicked := false;
  }

  /** The last part of leaseCheckWait: how much of the lease to sleep for. */
  method Stagger(s: Secret, lease: real, rotatingSecret: bool, jitter: bool, random: Random) returns (sleep: real)
    requires rotatingSecret == Rotating(s)
    ensures sleep == lease * Share(s, jitter, random)
  {
    sleep := lease;
    if Renewable(s) {
      sleep := sleep / 3.0;
      sleep := sleep * (random + 1.0) / 2.0;
      ThirdThenHalf(lease, random + 1.0);
    } else if !rotatingSecret && jitter {
      sleep := sleep * (0.85 + random * 0.1);
    }
  }

  /** leaseCheckWait; None is a panic. */
  method LeaseCheckWait(s: Secret, now: Word, jitter: bool, random: Random) returns (r: Option<int>)
    ensures r == if Malformed(s) then None else Some(Wait(s, now, jitter, random))
  {
    var panicked, base, rotatingSecret := ReadBase(s, now);
    if panicked {
      return None;
    }
    ghost var lease, share := Nanos(s, now) as real, Share(s, jitter, random);
    assert Scaled(s, now, jitter, random) == lease * share;
    var sleep := Stagger(s, Wrap(base * SECOND) as real, rotatingSecret, jitter, random);
    assert sleep == lease * share;
    r := Some(Truncate(sleep));
  }

  // --- bounds ---

  /** `wait` lies between these shares of `lease`, up to truncation toward zero. */
  predicate Between(wait: real, lease: real, lo: real, hi: real) {
    if lease >= 0.0 then lease * lo - 1.0 < wait <= lease * hi
    else lease * hi <= wait < lease * lo + 1.0
  }

  lemma MonotoneProduct(a: real, x: real, y: real)
    requires a >= 0.0 && x <= y
    ensures a * x <= a * y
  {
  }

  lemma Opposite(x: real, y: real)
    ensures (-x) * y == -(x * y)
  {
  }

  lemma TruncateWithin(x: real, lo: real, hi: real)
    requires 0.0 <= lo <= x <= hi
    ensures lo - 1.0 < Truncate(x) as real <= hi
    ensures Truncate(-x) == -Truncate(x)
  {
    if x == 0.0 {
      assert (-x).Floor == 0;
    }
  }

  lemma PositiveBetween(lease: real, lo: real, share: real, hi: real)
    requires lease >= 0.0 && 0.0 <= lo <= share <= hi
    ensures lease * lo - 1.0 < Truncate(lease * share) as real <= lease * hi
    ensures Truncate(-(lease * share)) == -Truncate(lease * share)
  {
    MonotoneProduct(lease, 0.0, lo);
    MonotoneProduct(lease, lo, share);
    MonotoneProduct(lease, share, hi);
    TruncateWithin(lease * share, lease * lo, lease * hi);
  }

  lemma TruncateBetween(lease: real, lo: real, share: real, hi: real)
    requires 0.0 <= lo <= share <= hi
    ensures Between(Truncate(lease * share) as real, lease, lo, hi)
  {
    if lease >= 0.0 {
      PositiveBetween(lease, lo, share, hi);
    } else {
      PositiveBetween(-lease, lo, share, hi);
      Opposite(lease, lo);
      Opposite(lease, share);
      Opposite(lease, hi);
    }
  }

  lemma WaitBetween(s: Secret, now: Word, random: Random, lo: real, hi: real)
    requires 0.0 <= lo <= Share(s, true, random) <= hi
    ensures Between(Wait(s, now, true, random) as real, Nanos(s, now) as real, lo, hi)
  {
    var lease, share := Nanos(s, now) as real, Share(s, true, random);
    assert Scaled(s, now, true, random) == lease * share;
    TruncateBetween(lease, lo, share, hi);
  }

  lemma TruncateWhole(n: int)
    ensures Truncate(n as real) == n
  {
    assert (n as real).Floor == n && (-(n as real)).Floor == -n;
  }

  lemma WaitWhole(s: Secret, now: Word, random: Random)
    requires Share(s, true, random) == 1.0
    ensures Wait(s, now, true, random) == Nanos(s, now)
  {
    var lease, share := Nanos(s, now) as real, Share(s, true, random);
    assert Scaled(s, now, true, random) == lease * share;
    assert lease * share == lease;
    TruncateWhole(Nanos(s, now));
  }

  /** Up to truncation to a nanosecond, the sleep is a sixth to a third of a renewable lease, exactly
      a rotating secret's remaining time, and 85 to 95 percent of any other lease. The lease is
      what 64 bits make of it: the true one if that fits. */
  lemma WaitBounds(s: Secret, now: Word, random: Random)
    ensures var lease, wait := Nanos(s, now) as real, Wait(s, now, true, random) as real;
            if Renewable(s) then Between(wait, lease, 1.0 / 6.0, 1.0 / 3.0)
            else if Rotating(s) then wait == lease
            else Between(wait, lease, 0.85, 0.95)
    ensures Int64(Base(s, now) * SECOND) ==> Nanos(s, now) == Base(s, now) * SECOND
  {
    if Renewable(s) {
      WaitBetween(s, now, random, 1.0 / 6.0, 1.0 / 3.0);
    } else if Rotating(s) {
      WaitWhole(s, now, random);
    } else {
      WaitBetween(s, now, random, 0.85, 0.95);
    }
  }

  /** The random number spreads the share evenly over its range. */
  lemma SpreadsEvenly(s: Secret, random: Random)
    requires Renewable(s) || !Rotating(s)
    ensures var (lo, hi) := if Renewable(s) then (1.0 / 6.0, 1.0 / 3.0) else (0.85, 0.95);
      Share(s, true, random) == lo + random * (hi - lo)
  {
  }

  /** Without jitter a lease that cannot be renewed is slept for in full. */
  lemma NoJitter(s: Secret, now: Word, random: Random)
    requires !Renewable(s)
    ensures Wait(s, now, false, random) == Nanos(s, now)
  {
    var lease, share := Nanos(s, now) as real, Share(s, false, random);
    assert Scaled(s, now, false, random) == lease * share;
    assert lease * share == lease;
    TruncateWhole(Nanos(s, now));
  }

  // --- when the sleep is positive ---

  /** A second is a multiple of 512 nanoseconds, and so is what overflow takes away: a positive
      number of nanoseconds is too large for any share of it to be truncated to nothing. */
  lemma NanosGranular(s: Secret, now: Word)
    ensures Nanos(s, now) % 512 == 0
  {
    var b := Base(s, now);
    var turns := (b * SECOND + 0x8000_0000_0000_0000) / 0x1_0000_0000_0000_0000;
    MultipleOf512(b * 1_953_125 - turns * 0x80_0000_0000_0000);
  }

  lemma MultipleOf512(k: int)
    ensures (512 * k) % 512 == 0
  {
  }

  lemma SignOfWait(s: Secret, now: Word, random: Random)
    ensures Wait(s, now, true, random) > 0 <==> Nanos(s, now) > 0
  {
    var lease, share := Nanos(s, now) as real, Share(s, true, random);
    assert Scaled(s, now, true, random) == lease * share;
    assert 1.0 / 6.0 <= share <= 1.0;
    WaitBetween(s, now, random, 1.0 / 6.0, 1.0);
    NanosGranular(s, now);
    SignBetween(Wait(s, now, true, random), Nanos(s, now));
  }

  lemma SignBetween(wait: int, lease: int)
    requires Between(wait as real, lease as real, 1.0 / 6.0, 1.0) && lease % 512 == 0
    ensures wait > 0 <==> lease > 0
  {
    if lease > 0 {
      assert lease >= 512;
    } else if lease < 0 {
      assert lease <= -512;
    }
  }

  /** The longest whole lease that 64 bits of nanoseconds can hold, some 292 years. */
  const LONGEST := 9_223_372_036

  /** What decides the sleep is a positive number of seconds: with a positive lease to start from,
      anything but a certificate that has expired. */
  predicate Ahead(s: Secret, now: Word) {
    Rotating(s) || HasSecretIdTtl(s) || !Expiring(s) || Wrap(s.data["expiration"].n - now) > 0
  }

  /** A caller that starts from a positive lease is meant to get a positive sleep. Among the bases
      that fit it gets one unless an expired certificate decides; a base that does not fit is
      slept for exactly if what is left of it after the overflow is positive. */
  lemma SleepsIff(s: Secret, now: Word, random: Random)
    requires s.leaseDuration > 0
    ensures Wait(s, now, true, random) > 0 <==>
            if -LONGEST <= Base(s, now) <= LONGEST then Ahead(s, now)
            else 0 < (Base(s, now) * SECOND) % 0x1_0000_0000_0000_0000 < 0x8000_0000_0000_0000
  {
    SignOfWait(s, now, random);
    WrapPositive(Base(s, now) * SECOND);
  }

  lemma WrapPositive(x: int)
    ensures Wrap(x) > 0 <==> 0 < x % 0x1_0000_0000_0000_0000 < 0x8000_0000_0000_0000
  {
    var m := 0x1_0000_0000_0000_0000;
    var r, turns := x % m, x / m;
    assert x == turns * m + r;
    if r < 0x8000_0000_0000_0000 {
      assert (x + 0x8000_0000_0000_0000) / m == turns;
    } else {
      assert (x + 0x8000_0000_0000_0000) / m == turns + 1;
    }
  }

  /** So the longest leases fail in part: one second beyond the longest that fits is not slept for,
      while twice as long is slept for, but for less than a second. */
  lemma LongLeases(random: Random)
    ensures var s := Secret("", LONGEST + 1, false, None, map[]); Wait(s, 0, true, random) <= 0
    ensures var s := Secret("", 2 * LONGEST + 2, false, None, map[]); 0 < Wait(s, 0, true, random) < SECOND
  {
    SignOfWait(Secret("", LONGEST + 1, false, None, map[]), 0, random);
    var s := Secret("", 2 * LONGEST + 2, false, None, map[]);
    SignOfWait(s, 0, random);
    assert Nanos(s, 0) == 290_448_384;
    WaitBounds(s, 0, random);
  }
}
