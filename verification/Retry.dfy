/** Retry policy: exponential backoff with full jitter under saturating arithmetic. */
module Retry {
  import opened Types
  import opened Words

  datatype RetryDecision = RetryAfter(delay: Duration) | Park

  function Min(a: int, b: int): int { if a <= b then a else b }

  // --- Policies accepted at enqueue.

  const MAX_SANE_DELAY: Duration := 60 * 60 * 24 * 30 * NANOS_PER_SEC
  const MAX_SANE_ATTEMPTS: U32 := 10_000

  datatype PolicyError = NoAttempts | TooManyAttempts | BaseExceedsMax | DelayTooLong

  function ValidatePolicy(p: RetryPolicy): Option<PolicyError> {
    if p.maxAttempts == 0 then Some(NoAttempts)
    else if p.maxAttempts > MAX_SANE_ATTEMPTS then Some(TooManyAttempts)
    else if p.baseDelay > p.maxDelay then Some(BaseExceedsMax)
    else if p.maxDelay > MAX_SANE_DELAY then Some(DelayTooLong)
    else None
  }

  predicate Sane(p: RetryPolicy) { ValidatePolicy(p).None? }

  // --- The decision.

  function SatMul(d: Duration, k: nat): Duration { Min(d * k, DURATION_MAX) }

  function Millis(d: nat): nat { d / NANOS_PER_MILLI }

  /** Inclusive upper end of the jitter interval, in milliseconds. */
  function Ceiling(p: RetryPolicy, n: U32): U64 {
    var exp := Min(if n == 0 then 0 else n - 1, 31);
    var uncapped := SatMul(p.baseDelay, Pow2(exp));
    var capped := Min(uncapped, p.maxDelay);
    Min(Min(Millis(capped), WORD - 1), WORD - 2)
  }

  const GAMMA: U64 := 0x9E37_79B9_7F4A_7C15
  const MIX_A: U64 := 0xBF58_476D_1CE4_E5B9
  const MIX_B: U64 := 0x94D0_49BB_1331_11EB

  function SplitMix64(x: U64): U64 { Mixer(x, 30, 27, 31) }

  /** The mixer with its three shift amounts left open. */
  function Mixer(x: U64, a: nat, b: nat, c: nat): U64
    requires 22 <= a && 22 <= b && 22 <= c
  {
    var z := AddWrap(x, GAMMA);
    var z := Stage(z, a, MIX_A);
    var z := Stage(z, b, MIX_B);
    XorShiftInverse(z, c);
    XorShift(z, c)
  }

  function Reduce(word: U64, millis: nat): (r: nat)
    ensures r <= millis
  {
    if millis == 0 then 0 else word % (millis + 1)
  }

  function Jitter(p: RetryPolicy, n: U32, seed: U64): (j: U64)
    ensures j <= Ceiling(p, n)
  {
    WordXor(seed, n);
    Reduce(SplitMix64(Xor(seed, n)), Ceiling(p, n))
  }

  function Decide(p: RetryPolicy, n: U32, seed: U64): RetryDecision {
    if n >= p.maxAttempts then Park
    else RetryAfter(Jitter(p, n, seed) * NANOS_PER_MILLI)
  }

  // --- Backoff bounds.

  lemma {:induction false} Pow2Monotone(a: nat, b: nat)
    requires a <= b
    ensures Pow2(a) <= Pow2(b)
    decreases b
  {
    if a < b { Pow2Monotone(a, b - 1); }
  }

  lemma MulMonotone(k: nat, a: nat, b: nat)
    requires a <= b
    ensures k * a <= k * b
  {
  }

  /** No returned delay exceeds base * 2^(n-1) or the cap, whatever saturates on the way. */
  lemma {:induction false} DelayBound(p: RetryPolicy, n: U32, seed: U64)
    requires 1 <= n
    ensures Decide(p, n, seed).Park? <==> n >= p.maxAttempts
    ensures Decide(p, n, seed).RetryAfter? ==>
              Decide(p, n, seed).delay <= Min(p.baseDelay * Pow2(n - 1), p.maxDelay)
  {
    var exp := Min(n - 1, 31);
    Pow2Monotone(exp, n - 1);
    MulMonotone(p.baseDelay, Pow2(exp), Pow2(n - 1));
  }

  lemma CeilingMonotone(p: RetryPolicy, n: U32, m: U32)
    requires n <= m
    ensures Ceiling(p, n) <= Ceiling(p, m)
  {
    var a, b := Min(if n == 0 then 0 else n - 1, 31), Min(if m == 0 then 0 else m - 1, 31);
    Pow2Monotone(a, b);
    CappedMonotone(p, Pow2(a), Pow2(b));
  }

  lemma CappedMonotone(p: RetryPolicy, x: nat, y: nat)
    requires x <= y
    ensures Millis(Min(SatMul(p.baseDelay, x), p.maxDelay)) <= Millis(Min(SatMul(p.baseDelay, y), p.maxDelay))
  {
    MulMonotone(p.baseDelay, x, y);
    DivMonotone(Min(SatMul(p.baseDelay, x), p.maxDelay), Min(SatMul(p.baseDelay, y), p.maxDelay));
  }

  lemma DivMonotone(a: nat, b: nat)
    requires a <= b
    ensures Millis(a) <= Millis(b)
  {
  }

  lemma Pow2At31()
    ensures Pow2(31) == 0x8000_0000
  {
    assert Pow2(8) == 0x100;
    assert Pow2(16) == 0x1_0000;
    assert Pow2(24) == 0x100_0000;
  }

  /** What the documentation promises as the interval's end, in whole milliseconds. */
  function PromisedCeiling(p: RetryPolicy, n: U32): nat
    requires 1 <= n
  {
    Millis(Min(p.baseDelay * Pow2(n - 1), p.maxDelay))
  }

  /**
   * For an accepted policy the interval ends exactly where documented, except that past attempt
   * 32 the exponent clamp falls short when even base * 2^31 has not reached the cap.
   */
  lemma CeilingExact(p: RetryPolicy, n: U32)
    requires Sane(p) && 1 <= n
    ensures Ceiling(p, n) == PromisedCeiling(p, n)
            <==> n <= 32 || p.baseDelay == 0 || Millis(p.baseDelay * Pow2(31)) >= Millis(p.maxDelay)
  {
    CeilingUnsaturated(p, n);
    if n > 32 {
      Pow2At31();
      Pow2Monotone(32, n - 1);
      MulMonotone(p.baseDelay, 2 * Pow2(31), Pow2(n - 1));
    }
  }

  /** An accepted policy saturates nowhere before the cap. */
  lemma CeilingUnsaturated(p: RetryPolicy, n: U32)
    requires Sane(p) && 1 <= n
    ensures Ceiling(p, n) == Millis(Min(p.baseDelay * Pow2(Min(n - 1, 31)), p.maxDelay))
  {
    Pow2At31();
    Pow2Monotone(Min(n - 1, 31), 31);
    MulMonotone(p.baseDelay, Pow2(Min(n - 1, 31)), Pow2(31));
  }

  /** Bases of zero or at least two milliseconds never meet the clamp. */
  lemma CeilingExactForUsualBases(p: RetryPolicy, n: U32)
    requires Sane(p) && 1 <= n
    requires p.baseDelay == 0 || p.baseDelay >= 2 * NANOS_PER_MILLI
    ensures Ceiling(p, n) == PromisedCeiling(p, n)
  {
    Pow2At31();
    if p.baseDelay != 0 {
      MulMonotone(Pow2(31), 2 * NANOS_PER_MILLI, p.baseDelay);
    }
    CeilingExact(p, n);
  }

  /** A one-millisecond base with the longest accepted cap does fall short at attempt 33. */
  lemma CeilingShortfall()
    ensures var p := RetryPolicy(100, NANOS_PER_MILLI, MAX_SANE_DELAY);
            Sane(p) && Ceiling(p, 33) < PromisedCeiling(p, 33)
  {
    Pow2At31();
    var p := RetryPolicy(100, NANOS_PER_MILLI, MAX_SANE_DELAY);
    CeilingExact(p, 33);
    assert Pow2(32) == 0x1_0000_0000;
  }

  /** Delays of an accepted policy are representable as time deltas. */
  lemma SaneDelay(p: RetryPolicy, n: U32, seed: U64)
    requires Sane(p) && Decide(p, n, seed).RetryAfter?
    ensures Decide(p, n, seed).delay <= MAX_SANE_DELAY && IsDelta(Decide(p, n, seed).delay)
  {
  }

  // --- Full jitter: the mixer is a bijection, so delays are as uniform as 2^64 allows.

  const UNMIX_A: U64 := 0x96DE_1B17_3F11_9089
  const UNMIX_B: U64 := 0x3196_42B2_D24D_8EC3
  const WRAPS_A: nat := 8_125_545_580_553_827_436
  const WRAPS_B: nat := 2_077_064_247_507_883_091

  function UnSplitMix64(y: U64): U64 { UnMixer(y, 30, 27, 31) }

  function UnMixer(y: U64, a: nat, b: nat, c: nat): U64
    requires 22 <= a && 22 <= b && 22 <= c
  {
    XorShiftInverse(y, c);
    var z := UnXorShift(y, c);
    StageInverse(z, b, MIX_B, UNMIX_B, WRAPS_B);
    var z := UnStage(z, b, UNMIX_B);
    StageInverse(z, a, MIX_A, UNMIX_A, WRAPS_A);
    AddWrap(UnStage(z, a, UNMIX_A), WORD - GAMMA)
  }

  /** The mixer has a two-sided inverse. */
  lemma SplitMixBijective(x: U64)
    ensures UnSplitMix64(SplitMix64(x)) == x
    ensures SplitMix64(UnSplitMix64(x)) == x
  {
    Forward(x, 30, 27, 31);
    Backward(x, 30, 27, 31);
  }

  lemma Forward(x: U64, a: nat, b: nat, c: nat)
    requires 22 <= a && 22 <= b && 22 <= c
    ensures UnMixer(Mixer(x, a, b, c), a, b, c) == x
  {
    var z0 := AddWrap(x, GAMMA);
    var z1 := Stage(z0, a, MIX_A);
    var z2 := Stage(z1, b, MIX_B);
    assert UnXorShift(Mixer(x, a, b, c), c) == z2 by { XorShiftInverse(z2, c); }
    assert UnStage(z2, b, UNMIX_B) == z1 by { StageInverse(z1, b, MIX_B, UNMIX_B, WRAPS_B); }
    assert UnStage(z1, a, UNMIX_A) == z0 by { StageInverse(z0, a, MIX_A, UNMIX_A, WRAPS_A); }
    assert AddWrap(z0, WORD - GAMMA) == x by { AddWrapInverse(x, GAMMA); }
  }

  lemma Backward(y: U64, a: nat, b: nat, c: nat)
    requires 22 <= a && 22 <= b && 22 <= c
    ensures Mixer(UnMixer(y, a, b, c), a, b, c) == y
  {
    XorShiftInverse(y, c);
    var z2 := UnXorShift(y, c);
    StageInverse(z2, b, MIX_B, UNMIX_B, WRAPS_B);
    var z1 := UnStage(z2, b, UNMIX_B);
    StageInverse(z1, a, MIX_A, UNMIX_A, WRAPS_A);
    var z0 := UnStage(z1, a, UNMIX_A);
    assert AddWrap(UnMixer(y, a, b, c), GAMMA) == z0 by { AddWrapInverse(z0, GAMMA); }
  }

  /** Two (seed, attempt) pairs meet before the modulus exactly when their xors are equal. */
  lemma {:induction false} JitterCollision(s: U64, n: U32, t: U64, m: U32)
    ensures Xor(s, n) < WORD && Xor(t, m) < WORD
    ensures SplitMix64(Xor(s, n)) == SplitMix64(Xor(t, m)) <==> Xor(s, n) == Xor(t, m)
  {
    WordXor(s, n);
    WordXor(t, m);
    SplitMixBijective(Xor(s, n));
    SplitMixBijective(Xor(t, m));
  }

  ghost function SeedsFor(p: RetryPolicy, n: U32, d: nat): set<U64> {
    set s: U64 | s < WORD && Jitter(p, n, s) == d
  }

  ghost function Residues(limit: nat, m: nat, d: nat): set<nat>
    requires m > 0
  {
    set y: nat | y < limit && HasResidue(y, m, d)
  }

  predicate HasResidue(y: nat, m: nat, d: nat)
    requires m > 0
  {
    y % m == d
  }

  function ResidueTally(limit: nat, m: nat, d: nat): nat
    requires m > 0
  {
    limit / m + if d < limit % m then 1 else 0
  }

  lemma {:induction false} ResidueCount(limit: nat, m: nat, d: nat)
    requires d < m
    ensures |Residues(limit, m, d)| == ResidueTally(limit, m, d)
    decreases limit
  {
    if limit == 0 {
      assert Residues(0, m, d) == {};
    } else {
      var y := limit - 1;
      ResidueCount(y, m, d);
      assert Residues(limit, m, d) == if HasResidue(y, m, d) then Residues(y, m, d) + {y} else Residues(y, m, d);
      TallyStep(y, m, d);
    }
  }

  lemma TallyStep(y: nat, m: nat, d: nat)
    requires d < m
    ensures ResidueTally(y + 1, m, d) == ResidueTally(y, m, d) + if HasResidue(y, m, d) then 1 else 0
  {
    var q, r := y / m, y % m;
    if r == m - 1 {
      DivModUnique(y + 1, m, q + 1, 0);
    } else {
      DivModUnique(y + 1, m, q, r + 1);
    }
  }

  /** A right shift divides by a power of two. */
  lemma {:induction false} ShrDivides(a: nat, k: nat)
    ensures Shr(a, k) == a / Pow2(k)
    decreases k
  {
    if k > 0 {
      ShrDivides(a / 2, k - 1);
      HalvedTwice(a, Pow2(k - 1));
    }
  }

  lemma DivMod(a: nat, m: nat)
    requires m > 0
    ensures a == a / m * m + a % m && a % m < m
  {
  }

  lemma HalvedTwice(a: nat, m: nat)
    requires m > 0
    ensures a / (2 * m) == a / 2 / m
  {
    DivMod(a / 2, m);
    HalfOfQuotient(a, m, a / 2 / m, a / 2 % m);
  }

  lemma HalfOfQuotient(a: nat, m: nat, q: nat, r: nat)
    requires m > 0 && a / 2 == q * m + r && r < m
    ensures a / (2 * m) == q
  {
    Doubled(q, m);
    DivModUnique(a, 2 * m, q, 2 * r + a % 2);
  }

  lemma Doubled(q: nat, m: nat)
    ensures q * (2 * m) == 2 * (q * m)
  {
  }

  lemma DivModUnique(y: nat, m: nat, q: nat, r: nat)
    requires m > 0 && r < m && y == q * m + r
    ensures y / m == q && y % m == r
  {
    SmallMultiple(y / m - q, m, r - y % m);
  }

  lemma SmallMultiple(d: int, m: int, e: int)
    requires d * m == e && -m < e < m
    ensures d == 0
  {
  }

  lemma {:induction false} InjectionCard(a: set<nat>, b: set<nat>, f: nat -> nat)
    requires forall x :: x in a ==> f(x) in b
    requires forall x, y :: x in a && y in a && f(x) == f(y) ==> x == y
    ensures |a| <= |b|
    decreases |a|
  {
    if a != {} {
      var x :| x in a;
      InjectionCard(a - {x}, b - {f(x)}, f);
    }
  }

  /** The seed of which `y` is the mixed word, for attempt n. */
  function SeedOf(y: nat, n: U32): nat { if y < WORD then Xor(UnSplitMix64(y), n) else 0 }

  function MixedOf(s: nat, n: U32): nat {
    if s < WORD then WordXor(s, n); SplitMix64(Xor(s, n)) else 0
  }

  lemma SeedMixed(w: U64, n: U32)
    ensures SeedOf(w, n) < WORD && MixedOf(w, n) < WORD
    ensures MixedOf(SeedOf(w, n), n) == w && SeedOf(MixedOf(w, n), n) == w
  {
    WordXor(w, n);
    WordXor(UnSplitMix64(w), n);
    SplitMixBijective(w);
    SplitMixBijective(Xor(w, n));
    XorCancel(w, n);
    XorCancel(UnSplitMix64(w), n);
  }

  /** Mixing carries the seeds that give delay d to the words of that residue, one to one, and back. */
  lemma SeedsAndWords(p: RetryPolicy, n: U32, d: nat, w: U64)
    requires d <= Ceiling(p, n)
    ensures w in SeedsFor(p, n, d) <==> MixedOf(w, n) in Residues(WORD, Ceiling(p, n) + 1, d)
    ensures w in Residues(WORD, Ceiling(p, n) + 1, d) <==> SeedOf(w, n) in SeedsFor(p, n, d)
  {
    JitterResidue(p, n, d, w);
    SeedMixed(w, n);
    JitterResidue(p, n, d, SeedOf(w, n));
  }

  lemma FewerSeeds(p: RetryPolicy, n: U32, d: nat)
    requires d <= Ceiling(p, n)
    ensures |SeedsFor(p, n, d)| <= |Residues(WORD, Ceiling(p, n) + 1, d)|
  {
    var seeds, words := SeedsFor(p, n, d), Residues(WORD, Ceiling(p, n) + 1, d);
    forall x | x in seeds ensures MixedOf(x, n) in words { SeedsAndWords(p, n, d, x); }
    forall x, y | x in seeds && y in seeds && MixedOf(x, n) == MixedOf(y, n) ensures x == y {
      SeedMixed(x, n);
      SeedMixed(y, n);
    }
    InjectionCard(seeds, words, s => MixedOf(s, n));
  }

  lemma FewerWords(p: RetryPolicy, n: U32, d: nat)
    requires d <= Ceiling(p, n)
    ensures |Residues(WORD, Ceiling(p, n) + 1, d)| <= |SeedsFor(p, n, d)|
  {
    var seeds, words := SeedsFor(p, n, d), Residues(WORD, Ceiling(p, n) + 1, d);
    forall y | y in words ensures SeedOf(y, n) in seeds { SeedsAndWords(p, n, d, y); }
    forall x, y | x in words && y in words && SeedOf(x, n) == SeedOf(y, n) ensures x == y {
      SeedMixed(x, n);
      SeedMixed(y, n);
    }
    InjectionCard(words, seeds, y => SeedOf(y, n));
  }

  /** How many of the 2^64 seeds give delay d. */
  lemma JitterUniform(p: RetryPolicy, n: U32, d: nat)
    requires d <= Ceiling(p, n)
    ensures |SeedsFor(p, n, d)| == ResidueTally(WORD, Ceiling(p, n) + 1, d)
  {
    ResidueCount(WORD, Ceiling(p, n) + 1, d);
    FewerSeeds(p, n, d);
    FewerWords(p, n, d);
  }

  /** Every delay of the interval is drawn from some seed, the upper end included. */
  lemma JitterReaches(p: RetryPolicy, n: U32, d: nat) returns (seed: U64)
    requires d <= Ceiling(p, n)
    ensures Jitter(p, n, seed) == d
  {
    SeedMixed(d, n);
    seed := SeedOf(d, n);
    JitterResidue(p, n, d, seed);
    OwnResidue(d, Ceiling(p, n) + 1);
  }

  lemma OwnResidue(d: nat, m: nat)
    requires d < m
    ensures HasResidue(d, m, d)
  {
    DivModUnique(d, m, 0, d);
  }

  /** Any two delays of the interval are given by equally many seeds, up to one. */
  lemma JitterFair(p: RetryPolicy, n: U32, d: nat, e: nat)
    requires d <= Ceiling(p, n) && e <= Ceiling(p, n)
    ensures -1 <= |SeedsFor(p, n, d)| - |SeedsFor(p, n, e)| <= 1
  {
    JitterUniform(p, n, d);
    JitterUniform(p, n, e);
  }

  lemma JitterResidue(p: RetryPolicy, n: U32, d: nat, s: U64)
    ensures Jitter(p, n, s) == d <==> HasResidue(MixedOf(s, n), Ceiling(p, n) + 1, d)
  {
    ReduceResidue(MixedOf(s, n), Ceiling(p, n), d);
  }

  lemma ReduceResidue(word: U64, millis: nat, d: nat)
    ensures Reduce(word, millis) == d <==> HasResidue(word, millis + 1, d)
  {
  }
}
