/** What the attempts of one transaction look like, and what follows from it. */
module Attempts {
  import opened Domain
  import opened Fees
  import opened Tables

  /** internal/pipeline/stuck.go: at most five replacements follow the first attempt. */
  const MAX_GAS_BUMPS: nat := 5

  /** Numbered 1..n with n <= 6, one payload and one nonce, each fee bumped from the one before. */
  ghost predicate Chain(t: Transaction, s: seq<Attempt>) {
    && |s| <= MAX_GAS_BUMPS + 1
    && (s != [] ==> ValidFees(s[0].raw.gas))
    && forall i :: 0 <= i < |s| ==>
         && s[i].number == i + 1
         && s[i].raw == t.Sign(s[0].raw.nonce, Bumped(s[0].raw.gas, i))
  }

  function Replacement(t: Transaction, nonce: nat, s: seq<Attempt>, now: nat): Attempt
    requires s != []
  {
    Attempt(|s| + 1, t.Sign(nonce, BumpGas(s[|s| - 1].raw.gas, |s|)), Broadcast, now)
  }

  function FirstAttempt(t: Transaction, nonce: nat, gas: GasParams, now: nat): Attempt {
    Attempt(1, t.Sign(nonce, gas), Broadcast, now)
  }

  /** The same rows for everything but the attempts' own status. */
  ghost predicate SameRaws(s: seq<Attempt>, r: seq<Attempt>) {
    |s| == |r| && forall i :: 0 <= i < |s| ==> r[i].number == s[i].number && r[i].raw == s[i].raw
  }

  ghost predicate HasHash(s: seq<Attempt>, h: TxHash) {
    exists i :: 0 <= i < |s| && s[i].Hash() == h
  }

  predicate FirstFeeAtLeast(s: seq<Attempt>, fee: int) {
    s != [] && ValidFees(s[0].raw.gas) && fee <= Fee(s[0].raw.gas)
  }

  lemma ChainIsOrdered(t: Transaction, s: seq<Attempt>)
    requires Chain(t, s)
    ensures Ordered(s) && !HasNumber(s, |s| + 1)
    ensures HasNumber(s, 1) <==> s != []
  {
    if s != [] {
      assert s[0].number == 1;
    }
  }

  lemma FirstStarts(t: Transaction, nonce: nat, gas: GasParams, now: nat)
    requires ValidFees(gas)
    ensures Chain(t, [FirstAttempt(t, nonce, gas, now)])
  {
  }

  lemma ReplacementExtends(t: Transaction, s: seq<Attempt>, now: nat)
    requires Chain(t, s) && 1 <= |s| <= MAX_GAS_BUMPS
    ensures var a := Replacement(t, s[0].raw.nonce, s, now);
            InsertAttempt(s, a) == s + [a] && Chain(t, s + [a])
  {
    var a := Replacement(t, s[0].raw.nonce, s, now);
    assert forall i :: 0 <= i < |s| ==> s[i].number == i + 1;
    InsertAtEnd(s, a);
    ReplacementIsNext(t, s, a, now);
  }

  lemma ReplacementIsNext(t: Transaction, s: seq<Attempt>, a: Attempt, now: nat)
    requires Chain(t, s) && 1 <= |s| <= MAX_GAS_BUMPS && a == Replacement(t, s[0].raw.nonce, s, now)
    ensures Chain(t, s + [a])
  {
    assert a.raw == t.Sign(s[0].raw.nonce, Bumped(s[0].raw.gas, |s|));
  }

  lemma SameRawsKeepChain(t: Transaction, s: seq<Attempt>, r: seq<Attempt>)
    requires Chain(t, s) && SameRaws(s, r)
    ensures Chain(t, r)
  {
  }

  /** Every attempt that was ever stored is acceptable to a node, none costs more than the floored
      product of the bumps allows, and so none costs more than about 6.07 times the first. */
  lemma StoredFees(t: Transaction, s: seq<Attempt>, i: nat)
    requires Chain(t, s) && i < |s| && 0 <= Fee(s[0].raw.gas)
    ensures ValidFees(s[i].raw.gas)
    ensures Fee(s[0].raw.gas) <= Fee(s[i].raw.gas)
    ensures Fee(s[i].raw.gas) * 10_000_000_000 <= Fee(s[0].raw.gas) * (115 * 130 * 145 * 160 * 175)
  {
    var g := s[0].raw.gas;
    BumpedIsValid(g, i);
    FiveBumpsBound(g);
    BumpedIsMonotone(g, i, 5);
  }

  lemma {:induction false} BumpedIsMonotone(g: GasParams, m: nat, n: nat)
    requires ValidFees(g) && 0 <= Fee(g) && m <= n
    ensures ValidFees(Bumped(g, m)) && ValidFees(Bumped(g, n))
    ensures Fee(Bumped(g, m)) <= Fee(Bumped(g, n))
    decreases n - m
  {
    BumpedIsValid(g, m);
    BumpedIsValid(g, n);
    if m < n {
      assert Bumped(g, m + 1) == BumpGas(Bumped(g, m), m + 1);
      BumpIsValid(Bumped(g, m), m + 1);
      BumpedIsMonotone(g, m + 1, n);
    }
  }

  ghost predicate DistinctHashes(s: seq<Attempt>) {
    forall i, j :: 0 <= i < j < |s| ==> s[i].Hash() != s[j].Hash()
  }

  /** A replacement has a hash of its own if and only if the first fee is at least 7: below that the
      first bump's floor is 0 and attempt 2 is byte for byte attempt 1. */
  lemma DistinctIff(t: Transaction, s: seq<Attempt>)
    requires Chain(t, s) && 2 <= |s|
    requires 0 <= Fee(s[0].raw.gas) && (s[0].raw.gas.txType == 2 ==> 0 <= s[0].raw.gas.tip.value)
    ensures DistinctHashes(s) <==> 7 <= Fee(s[0].raw.gas)
  {
    var g := s[0].raw.gas;
    if 7 <= Fee(g) {
      forall i, j | 0 <= i < j < |s| ensures s[i].Hash() != s[j].Hash() {
        StrictlyDearer(g, i, j);
      }
    } else {
      FirstBumpChangesIff(g);
      assert Bumped(g, 0) == g && Bumped(g, 1) == BumpGas(g, 1);
      assert s[0].Hash() == s[1].Hash();
    }
  }

  /** Attempt i (from 0) is one that nodes take in place of the attempt before it. */
  ghost predicate TakesOver(s: seq<Attempt>, i: nat)
    requires 0 < i < |s|
  {
    Replaces(s[i - 1].raw.gas, s[i].raw.gas)
  }

  /** Every stored replacement is one that nodes take if and only if the first tip is at least 7. */
  lemma StoredReplacementsIff(t: Transaction, s: seq<Attempt>)
    requires Chain(t, s) && 2 <= |s|
    ensures (forall i :: 0 < i < |s| ==> TakesOver(s, i)) <==> 7 <= Tip(s[0].raw.gas)
  {
    var g := s[0].raw.gas;
    AllBumpsReplaceIff(g, |s| - 1);
    forall i | 0 < i < |s| ensures TakesOver(s, i) <==> NthReplaces(g, i) {
    }
  }

  /** All stored attempts stay under a ceiling if and only if the first does and, when there are
      replacements, the last but one leaves room for the last bump. */
  lemma StoredUnderCeilingIff(t: Transaction, s: seq<Attempt>, cap: int)
    requires Chain(t, s) && s != [] && 0 <= Fee(s[0].raw.gas)
    ensures forall i :: 0 <= i < |s| ==> ValidFees(s[i].raw.gas)
    ensures (forall i :: 0 <= i < |s| ==> Fee(s[i].raw.gas) <= cap) <==>
              if |s| == 1 then Fee(s[0].raw.gas) <= cap
              else Fee(s[|s| - 2].raw.gas) * (100 + BumpPercent(|s| - 1)) < 100 * (cap + 1)
  {
    var (g, last) := (s[0].raw.gas, |s| - 1);
    BumpedIsValid(g, last);
    forall i | 0 <= i < |s| ensures ValidFees(s[i].raw.gas) && Fee(s[i].raw.gas) <= Fee(s[last].raw.gas) {
      BumpedIsMonotone(g, i, last);
    }
    if last > 0 {
      BumpStaysUnderIff(s[last - 1].raw.gas, last, cap);
      assert s[last].raw.gas == BumpGas(s[last - 1].raw.gas, last);
    }
  }

  /** A row whose first attempt sits at a ceiling of 7 or more has its first replacement above it. */
  lemma ReplacementPassesTheCeiling(t: Transaction, s: seq<Attempt>, cap: int)
    requires Chain(t, s) && 2 <= |s| && Fee(s[0].raw.gas) == cap && 7 <= cap
    ensures ValidFees(s[1].raw.gas) && cap < Fee(s[1].raw.gas)
  {
    BumpStaysUnderIff(s[0].raw.gas, 1, cap);
    assert Bumped(s[0].raw.gas, 0) == s[0].raw.gas && BumpPercent(1) == 15;
    assert s[1].raw.gas == BumpGas(s[0].raw.gas, 1);
  }

  // ---- what confirmation does to them ----

  /** markAttemptConfirmed: the mined attempt is confirmed, the others that were out are replaced. */
  function ConfirmOne(a: Attempt, h: TxHash): Attempt {
    if a.Hash() == h then a.(status := AttemptConfirmed)
    else if a.status == Broadcast then a.(status := Replaced)
    else a
  }

  function ConfirmAttempts(s: seq<Attempt>, h: TxHash): (r: seq<Attempt>)
    ensures |r| == |s|
    ensures forall i :: 0 <= i < |s| ==> r[i] == ConfirmOne(s[i], h)
  {
    seq(|s|, i requires 0 <= i < |s| => ConfirmOne(s[i], h))
  }
}
