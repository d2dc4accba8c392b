/** The fixed-window counter that throttles `/pair` attempts and code issuing in
    packages/messaging-gateway/src/pairing.ts, and the exact number of grants it allows. */
module PairingThrottle {
  import opened Wrappers

  const WINDOW_MS: int := 60_000
  /** A window is left only when more than WINDOW_MS have passed, so windows start this far apart. */
  const SPACING: int := WINDOW_MS + 1

  datatype Bucket = Bucket(windowStart: int, count: int)

  predicate Reopens(bucket: Option<Bucket>, now: int) {
    bucket.None? || now - bucket.value.windowStart > WINDOW_MS
  }

  /** One attempt: the bucket afterwards, and whether the attempt is granted. */
  function Admit(bucket: Option<Bucket>, now: int, rate: int): (Option<Bucket>, bool) {
    if Reopens(bucket, now) then (Some(Bucket(now, 1)), true)
    else if bucket.value.count >= rate then (bucket, false)
    else (Some(bucket.value.(count := bucket.value.count + 1)), true)
  }

  /** The attempt that opens a window is always granted, so a rate below one acts as one. */
  function Effective(rate: int): (r: int)
    ensures r >= 1
  {
    if rate < 1 then 1 else rate
  }

  function After(bucket: Option<Bucket>, times: seq<int>, rate: int): Option<Bucket>
    decreases |times|
  {
    if times == [] then bucket else After(Admit(bucket, times[0], rate).0, times[1..], rate)
  }

  /** How many of these attempts are granted at a time from `from` to `to`. */
  function Granted(bucket: Option<Bucket>, times: seq<int>, rate: int, from: int, to: int): nat
    decreases |times|
  {
    if times == [] then 0
    else
      (if Admit(bucket, times[0], rate).1 && from <= times[0] <= to then 1 else 0)
      + Granted(Admit(bucket, times[0], rate).0, times[1..], rate, from, to)
  }

  predicate Nondecreasing(times: seq<int>) { forall i, j | 0 <= i < j < |times| :: times[i] <= times[j] }

  /** What every bucket in use satisfies. */
  predicate Sound(bucket: Option<Bucket>, now: int, rate: int) {
    bucket.Some? ==> 1 <= bucket.value.count <= Effective(rate) && bucket.value.windowStart <= now
  }

  /** The most attempts any interval of this length can see granted. */
  function MaxGrants(length: nat, rate: int): int {
    if length % SPACING == 0 then Effective(rate) * (length / SPACING + 1)
    else Effective(rate) * (length / SPACING + 2) - 1
  }

  /* ---- The bound ---- */

  /** Windows that can still start at or after `next`, up to `to`. */
  function WindowsLeft(next: int, to: int): (n: int)
    ensures n >= 0
  {
    if next <= to then 1 + (to - next) / SPACING else 0
  }

  /** The most grants still to come up to `to`, seen at `now`. */
  function Budget(bucket: Option<Bucket>, now: int, to: int, rate: int): int {
    if Reopens(bucket, now) then Effective(rate) * WindowsLeft(now, to)
    else Effective(rate) - bucket.value.count + Effective(rate) * WindowsLeft(bucket.value.windowStart + SPACING, to)
  }

  lemma {:induction false} WindowsShrink(early: int, late: int, to: int)
    requires early <= late
    ensures WindowsLeft(late, to) <= WindowsLeft(early, to)
    ensures late >= early + SPACING && early <= to ==> WindowsLeft(late, to) + 1 <= WindowsLeft(early, to)
    ensures early <= to ==> WindowsLeft(early, to) == 1 + WindowsLeft(early + SPACING, to)
  {
  }

  lemma {:induction false} Scaled(r: int, m: int, n: int)
    requires r >= 1 && m <= n
    ensures r * m <= r * n
    ensures r * (m + 1) == r * m + r
  {
    assert r * (n - m) >= 0;
  }

  /** Waiting gives no budget back. */
  lemma {:induction false} BudgetShrinks(bucket: Option<Bucket>, now: int, later: int, to: int, rate: int)
    requires Sound(bucket, now, rate) && now <= later
    ensures Budget(bucket, later, to, rate) <= Budget(bucket, now, to, rate)
  {
    var r := Effective(rate);
    if Reopens(bucket, now) {
      WindowsShrink(now, later, to);
      Scaled(r, WindowsLeft(later, to), WindowsLeft(now, to));
    } else if Reopens(bucket, later) {
      WindowsShrink(bucket.value.windowStart + SPACING, later, to);
      Scaled(r, WindowsLeft(later, to), WindowsLeft(bucket.value.windowStart + SPACING, to));
    }
  }

  /** A granted attempt up to `to` uses at least one of it. */
  lemma {:induction false} AdmitSpends(bucket: Option<Bucket>, now: int, to: int, rate: int)
    requires Sound(bucket, now, rate) && now <= to
    ensures Sound(Admit(bucket, now, rate).0, now, rate)
    ensures Budget(bucket, now, to, rate) >=
            Budget(Admit(bucket, now, rate).0, now, to, rate) + (if Admit(bucket, now, rate).1 then 1 else 0)
  {
    if Reopens(bucket, now) {
      WindowsShrink(now, now, to);
      Scaled(Effective(rate), WindowsLeft(now + SPACING, to), WindowsLeft(now, to));
    }
  }

  lemma {:induction false} AdmitSound(bucket: Option<Bucket>, now: int, rate: int)
    requires Sound(bucket, now, rate)
    ensures Sound(Admit(bucket, now, rate).0, now, rate)
  {
  }

  lemma {:induction false} GrantedLate(bucket: Option<Bucket>, times: seq<int>, rate: int, from: int, to: int)
    requires Nondecreasing(times) && (times != [] ==> times[0] > to)
    ensures Granted(bucket, times, rate, from, to) == 0
    decreases |times|
  {
    if times != [] { GrantedLate(Admit(bucket, times[0], rate).0, times[1..], rate, from, to); }
  }

  /** Inside the interval the budget bounds what is still granted. */
  lemma {:induction false} GrantedInBudget(bucket: Option<Bucket>, times: seq<int>, rate: int, now: int, from: int, to: int)
    requires Nondecreasing(times) && (times != [] ==> now <= times[0]) && now <= to
    requires Sound(bucket, now, rate)
    ensures Granted(bucket, times, rate, from, to) <= Budget(bucket, now, to, rate)
    decreases |times|
  {
    if times == [] {
      Scaled(Effective(rate), 0, WindowsLeft(now, to));
      if bucket.Some? { Scaled(Effective(rate), 0, WindowsLeft(bucket.value.windowStart + SPACING, to)); }
    } else if times[0] > to {
      GrantedLate(bucket, times, rate, from, to);
      GrantedInBudget(bucket, [], rate, now, from, to);
    } else {
      BudgetShrinks(bucket, now, times[0], to, rate);
      AdmitSpends(bucket, times[0], to, rate);
      GrantedInBudget(Admit(bucket, times[0], rate).0, times[1..], rate, times[0], from, to);
    }
  }

  lemma {:induction false} BudgetAtStart(bucket: Option<Bucket>, from: int, length: nat, rate: int)
    requires Sound(bucket, from, rate)
    ensures Budget(bucket, from, from + length, rate) <= MaxGrants(length, rate)
  {
    var r, q := Effective(rate), length / SPACING;
    Scaled(r, q, q + 1);
    Scaled(r, q + 1, q + 2);
    if !Reopens(bucket, from) {
      var left := WindowsLeft(bucket.value.windowStart + SPACING, from + length);
      WindowsShrink(from + 1, bucket.value.windowStart + SPACING, from + length);
      assert WindowsLeft(from + 1, from + length) == if length % SPACING == 0 then q else q + 1;
      Scaled(r, left, WindowsLeft(from + 1, from + length));
    }
  }

  lemma {:induction false} GrantsFrom(bucket: Option<Bucket>, times: seq<int>, rate: int, now: int, from: int, length: nat)
    requires Nondecreasing(times) && (times != [] ==> now <= times[0]) && now <= from
    requires Sound(bucket, now, rate)
    ensures Granted(bucket, times, rate, from, from + length) <= MaxGrants(length, rate)
    decreases |times|
  {
    if times == [] || times[0] >= from {
      GrantedInBudget(bucket, times, rate, from, from, from + length);
      BudgetAtStart(bucket, from, length, rate);
    } else {
      AdmitSound(bucket, times[0], rate);
      GrantsFrom(Admit(bucket, times[0], rate).0, times[1..], rate, times[0], from, length);
    }
  }

  /** Over every run of attempts on one key, no interval of this length sees more than MaxGrants granted. */
  lemma {:induction false} GrantsAreBounded(times: seq<int>, rate: int, from: int, length: nat)
    requires Nondecreasing(times)
    ensures Granted(None, times, rate, from, from + length) <= MaxGrants(length, rate)
  {
    var now := if times != [] && times[0] < from then times[0] else from;
    GrantsFrom(None, times, rate, now, from, length);
  }

  /* ---- The bound is attained ---- */

  function Burst(at: int, n: nat): seq<int> { seq(n, _ => at) }

  /** A full burst at the start of each of n successive windows. */
  function Bursts(at: int, n: nat, rate: int): seq<int>
    decreases n
  {
    if n == 0 then [] else Burst(at, Effective(rate)) + Bursts(at + SPACING, n - 1, rate)
  }

  lemma {:induction false} GrantedAppend(bucket: Option<Bucket>, early: seq<int>, late: seq<int>, rate: int, from: int, to: int)
    ensures Granted(bucket, early + late, rate, from, to)
            == Granted(bucket, early, rate, from, to) + Granted(After(bucket, early, rate), late, rate, from, to)
    decreases |early|
  {
    if early == [] {
      assert early + late == late;
    } else {
      assert (early + late)[1..] == early[1..] + late;
      GrantedAppend(Admit(bucket, early[0], rate).0, early[1..], late, rate, from, to);
    }
  }

  /** Attempts at one moment inside an open window are granted while it has room. */
  lemma {:induction false} BurstGranted(bucket: Bucket, at: int, n: nat, rate: int, from: int, to: int)
    requires at - bucket.windowStart <= WINDOW_MS && from <= at <= to
    requires n > 0 ==> bucket.count + n <= rate
    ensures Granted(Some(bucket), Burst(at, n), rate, from, to) == n
    ensures After(Some(bucket), Burst(at, n), rate) == Some(bucket.(count := bucket.count + n))
    decreases n
  {
    if n > 0 {
      assert Burst(at, n)[1..] == Burst(at, n - 1);
      BurstGranted(bucket.(count := bucket.count + 1), at, n - 1, rate, from, to);
    }
  }

  lemma {:induction false} OpeningBurst(bucket: Option<Bucket>, at: int, rate: int, from: int, to: int)
    requires Reopens(bucket, at) && from <= at <= to
    ensures Granted(bucket, Burst(at, Effective(rate)), rate, from, to) == Effective(rate)
    ensures After(bucket, Burst(at, Effective(rate)), rate) == Some(Bucket(at, Effective(rate)))
  {
    var r := Effective(rate);
    assert Burst(at, r)[1..] == Burst(at, r - 1);
    BurstGranted(Bucket(at, 1), at, r - 1, rate, from, to);
  }

  lemma {:induction false} BurstsGranted(bucket: Option<Bucket>, at: int, n: nat, rate: int, from: int, to: int)
    requires Reopens(bucket, at) && from <= at && at + SPACING * (n - 1) <= to
    ensures Granted(bucket, Bursts(at, n, rate), rate, from, to) == Effective(rate) * n
    decreases n
  {
    if n > 0 {
      var first := Burst(at, Effective(rate));
      OpeningBurst(bucket, at, rate, from, to);
      GrantedAppend(bucket, first, Bursts(at + SPACING, n - 1, rate), rate, from, to);
      BurstsGranted(Some(Bucket(at, Effective(rate))), at + SPACING, n - 1, rate, from, to);
      Scaled(Effective(rate), n - 1, n);
    }
  }

  lemma {:induction false} BurstsOrdered(at: int, n: nat, rate: int)
    ensures Nondecreasing(Bursts(at, n, rate))
    ensures forall t | t in Bursts(at, n, rate) :: t >= at
    decreases n
  {
    if n > 0 {
      BurstsOrdered(at + SPACING, n - 1, rate);
      var rest := Bursts(at + SPACING, n - 1, rate);
      forall i | 0 <= i < |rest| ensures rest[i] >= at { assert rest[i] in rest; }
    }
  }

  /** One attempt a window's length before the interval, the rest of that window at its first
      millisecond, then full windows from the next millisecond on. */
  function Worst(rate: int, from: int, length: nat): seq<int> {
    if length % SPACING == 0 then Bursts(from, length / SPACING + 1, rate)
    else [from - WINDOW_MS] + (Burst(from, Effective(rate) - 1) + Bursts(from + 1, length / SPACING + 1, rate))
  }

  lemma {:induction false} WorstOrdered(rate: int, from: int, length: nat)
    ensures Nondecreasing(Worst(rate, from, length))
  {
    var n := length / SPACING + 1;
    BurstsOrdered(from, n, rate);
    BurstsOrdered(from + 1, n, rate);
    var rest := Bursts(from + 1, n, rate);
    forall i | 0 <= i < |rest| ensures rest[i] >= from + 1 { assert rest[i] in rest; }
  }

  lemma {:induction false} BurstsAfterOpen(rate: int, from: int, length: nat)
    requires length % SPACING != 0
    ensures var tail := Burst(from, Effective(rate) - 1) + Bursts(from + 1, length / SPACING + 1, rate);
            Granted(Some(Bucket(from - WINDOW_MS, 1)), tail, rate, from, from + length)
            == Effective(rate) - 1 + Effective(rate) * (length / SPACING + 1)
  {
    var r, to := Effective(rate), from + length;
    var late := Bursts(from + 1, length / SPACING + 1, rate);
    BurstGranted(Bucket(from - WINDOW_MS, 1), from, r - 1, rate, from, to);
    GrantedAppend(Some(Bucket(from - WINDOW_MS, 1)), Burst(from, r - 1), late, rate, from, to);
    BurstsGranted(Some(Bucket(from - WINDOW_MS, r)), from + 1, length / SPACING + 1, rate, from, to);
  }

  /** For every rate, interval and length some run of attempts is granted exactly MaxGrants. */
  lemma {:induction false} BoundIsAttained(rate: int, from: int, length: nat)
    ensures Nondecreasing(Worst(rate, from, length))
    ensures Granted(None, Worst(rate, from, length), rate, from, from + length) == MaxGrants(length, rate)
  {
    WorstOrdered(rate, from, length);
    if length % SPACING == 0 {
      BurstsGranted(None, from, length / SPACING + 1, rate, from, from + length);
    } else {
      BurstsAfterOpen(rate, from, length);
      Scaled(Effective(rate), length / SPACING + 1, length / SPACING + 2);
      var tail := Burst(from, Effective(rate) - 1) + Bursts(from + 1, length / SPACING + 1, rate);
      assert Worst(rate, from, length)[1..] == tail;
    }
  }

  /** Five a minute over the five minutes a code lives: 29 attempts at most, and 29 can happen. */
  lemma {:induction false} TwentyNineTriesPerCode(times: seq<int>, from: int)
    requires Nondecreasing(times)
    ensures Granted(None, times, 5, from, from + 300_000) <= 29
    ensures Granted(None, Worst(5, from, 300_000), 5, from, from + 300_000) == 29
  {
    GrantsAreBounded(times, 5, from, 300_000);
    BoundIsAttained(5, from, 300_000);
  }
}
