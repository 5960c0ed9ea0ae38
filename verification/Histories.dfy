/** Properties of whole lives of a transaction: how deep a confirmation is, what it confirms, and
    what the audit log says about it. */
module Histories {
  import opened Domain
  import opened Fees
  import opened Tables
  import opened Lifecycle

  // ---- inclusions ----

  /** The moves that write INCLUDED: the first inclusion and a re-inclusion in another block. */
  ghost predicate Includes(k: int, e: Entity, m: Move)
    requires CanMove(e, m)
  {
    || (m.Poll? && k > 0 && m.receipt.status == 1 && TransferVerified(m.receipt, e.tx))
    || (m.Recheck? && k != 0 && e.tx.blockNumber.Some? && DeepEnough(k, m.head, e.tx.blockNumber.value)
        && m.seen.Some? && e.tx.blockHash != Some(m.seen.value.blockHash))
  }

  /** The index of the last inclusion among the first i moves. */
  ghost function LastInclusion(k: int, es: seq<Entity>, ms: seq<Move>, i: nat): (j: Option<nat>)
    requires Life(k, es, ms) && i <= |ms|
    ensures j.Some? ==> j.value < i && Includes(k, es[j.value], ms[j.value])
  {
    if i == 0 then None
    else if Includes(k, es[i - 1], ms[i - 1]) then Some(i - 1)
    else LastInclusion(k, es, ms, i - 1)
  }

  function ReceiptIn(m: Move): Receipt
    requires m.Poll? || (m.Recheck? && m.seen.Some?)
  {
    if m.Poll? then m.receipt else m.seen.value
  }

  predicate CarriesInclusion(t: Transaction, r: Receipt, hash: Option<TxHash>) {
    t.blockNumber == Some(r.blockNumber) && t.blockHash == Some(r.blockHash) && t.finalHash == hash
  }

  /** While a row is INCLUDED its block columns and its hash are those of its last inclusion. */
  lemma {:induction false} IncludedRemembers(k: int, es: seq<Entity>, ms: seq<Move>, i: nat)
    requires Life(k, es, ms) && i <= |ms| && es[i].tx.status == Included
    ensures LastInclusion(k, es, ms, i).Some?
    ensures var j := LastInclusion(k, es, ms, i).value;
            CarriesInclusion(es[i].tx, ReceiptIn(ms[j]), es[j].tx.finalHash)
  {
    assert i > 0;
    assert CanMove(es[i - 1], ms[i - 1]) && es[i] == Act(k, es[i - 1], ms[i - 1]);
    if !Includes(k, es[i - 1], ms[i - 1]) {
      assert es[i - 1].tx.status == Included;
      IncludedRemembers(k, es, ms, i - 1);
    }
  }

  /** What the uint64 depth test really accepts: enough depth, or a head behind the block. */
  lemma DeepEnoughIff(k: int, head: Uint64, block: Uint64)
    requires 0 <= k < TWO_64
    ensures DeepEnough(k, head, block) <==>
              (head >= block && head - block >= k) || (head < block && head + TWO_64 - block >= k)
  {
    if head < block {
      assert (head - block) % TWO_64 == head + TWO_64 - block;
    }
  }

  /** A row becomes CONFIRMED only on a receipt from the block of its last inclusion, and, if the
      head is not behind that block, with at least k blocks on top of it. */
  lemma ConfirmationDepth(k: int, es: seq<Entity>, ms: seq<Move>, i: nat)
    requires Life(k, es, ms) && i < |ms| && 0 < k < TWO_64
    requires es[i].tx.status != Confirmed && es[i + 1].tx.status == Confirmed
    ensures ms[i].Recheck? && ms[i].seen.Some? && LastInclusion(k, es, ms, i).Some?
    ensures var r := ReceiptIn(ms[LastInclusion(k, es, ms, i).value]);
            && ms[i].seen.value.blockHash == r.blockHash
            && (ms[i].head >= r.blockNumber ==> ms[i].head - r.blockNumber >= k)
  {
    assert CanMove(es[i], ms[i]) && es[i + 1] == Act(k, es[i], ms[i]);
    IncludedRemembers(k, es, ms, i);
    DeepEnoughIff(k, ms[i].head, es[i].tx.blockNumber.value);
  }

  /** Without the hypothesis on the head the subtraction wraps: one block behind is "deep enough". */
  lemma HeadBehindBlockWraps()
    ensures DeepEnough(12, 9, 10)
  {
    DeepEnoughIff(12, 9, 10);
  }

  // ---- what CONFIRMED means ----

  /** Receipts do not depend on when they are read: one per transaction hash and block hash. */
  ghost predicate FixedReceipts(es: seq<Entity>, ms: seq<Move>, chain: (TxHash, nat) -> Receipt) {
    |es| == |ms| + 1
    && forall i :: 0 <= i < |ms| ==>
         && (ms[i].Poll? ==>
               && es[i].tx.finalHash.Some?
               && ms[i].receipt == chain(es[i].tx.finalHash.value, ms[i].receipt.blockHash))
         && (ms[i].Recheck? && ms[i].seen.Some? ==>
               && es[i].tx.finalHash.Some?
               && ms[i].seen.value == chain(es[i].tx.finalHash.value, ms[i].seen.value.blockHash))
  }

  /** The transfer happened: mined successfully and, for a token, with its Transfer event. */
  ghost predicate Succeeded(r: Receipt, t: Transaction) {
    r.status == 1 && TransferVerified(r, t)
  }

  lemma {:induction false} FixedInAll(ts: seq<Transaction>, i: nat, j: nat)
    requires forall n :: 0 < n < |ts| ==> SameTransfer(ts[n - 1], ts[n])
    requires i <= j < |ts|
    ensures SameTransfer(ts[i], ts[j])
    decreases j
  {
    if i < j {
      FixedInAll(ts, i, j - 1);
      assert SameTransfer(ts[j - 1], ts[j]);
    }
  }

  lemma TransferIsFixed(k: int, es: seq<Entity>, ms: seq<Move>, i: nat, j: nat)
    requires Life(k, es, ms) && i <= j <= |ms|
    ensures SameTransfer(es[i].tx, es[j].tx)
  {
    var ts := seq(|es|, n requires 0 <= n < |es| => es[n].tx);
    forall n | 0 < n < |ts| ensures SameTransfer(ts[n - 1], ts[n]) {
      TransferStays(k, es, ms, n - 1);
    }
    FixedInAll(ts, i, j);
  }

  predicate SameTransfer(t: Transaction, t': Transaction) {
    && t'.tokenContract == t.tokenContract && t'.pair == t.pair && t'.recipient == t.recipient
    && t'.to == t.to && t'.value == t.value && t'.data == t.data
  }

  lemma TransferStays(k: int, es: seq<Entity>, ms: seq<Move>, j: nat)
    requires Life(k, es, ms) && j < |ms|
    ensures SameTransfer(es[j].tx, es[j + 1].tx)
  {
    assert CanMove(es[j], ms[j]) && es[j + 1] == Act(k, es[j], ms[j]);
  }

  ghost function MinedReceipt(t: Transaction, chain: (TxHash, nat) -> Receipt): Receipt
    requires t.finalHash.Some? && t.blockHash.Some?
  {
    chain(t.finalHash.value, t.blockHash.value)
  }

  /** The step that confirms an INCLUDED row writes the receipt of the row's last inclusion again. */
  lemma RecheckConfirmsTheInclusion(
      k: int, es: seq<Entity>, ms: seq<Move>, chain: (TxHash, nat) -> Receipt, i: nat)
    requires Life(k, es, ms) && FixedReceipts(es, ms, chain) && i < |ms|
    requires es[i].tx.status == Included && es[i + 1].tx.status == Confirmed
    ensures es[i + 1].tx.finalHash.Some? && es[i + 1].tx.blockHash.Some?
    ensures LastInclusion(k, es, ms, i).Some?
    ensures LastInclusion(k, es, ms, i + 1) == LastInclusion(k, es, ms, i)
    ensures var r := ReceiptIn(ms[LastInclusion(k, es, ms, i).value]);
            && MinedReceipt(es[i + 1].tx, chain) == r
            && es[i + 1].tx.receiptStatus == Some(r.status % 256)
  {
    assert CanMove(es[i], ms[i]) && es[i + 1] == Act(k, es[i], ms[i]);
    IncludedRemembers(k, es, ms, i);
    var j := LastInclusion(k, es, ms, i).value;
    assert CanMove(es[j], ms[j]);
    assert !Includes(k, es[i], ms[i]);
    assert ms[i].seen.value == chain(es[i].tx.finalHash.value, ms[i].seen.value.blockHash);
  }

  /** The first inclusion of a row is checked. */
  lemma FirstInclusionSucceeded(k: int, es: seq<Entity>, ms: seq<Move>, i: nat, j: nat)
    requires Life(k, es, ms) && i <= |ms| && LastInclusion(k, es, ms, i) == Some(j) && ms[j].Poll?
    ensures Succeeded(ms[j].receipt, es[i].tx)
  {
    TransferIsFixed(k, es, ms, j, i);
  }

  /** A CONFIRMED row records the receipt of its last inclusion. Its transfer succeeded if and only
      if that inclusion came from SUBMITTED, where the receipt is checked, or was a re-inclusion
      whose receipt had succeeded too; with no confirmation depth it always succeeded. */
  lemma {:induction false} ConfirmedSucceededIff(
      k: int, es: seq<Entity>, ms: seq<Move>, chain: (TxHash, nat) -> Receipt, i: nat)
    requires Life(k, es, ms) && FixedReceipts(es, ms, chain)
    requires i <= |ms| && es[i].tx.status == Confirmed
    ensures es[i].tx.finalHash.Some? && es[i].tx.blockHash.Some?
    ensures es[i].tx.receiptStatus == Some(MinedReceipt(es[i].tx, chain).status % 256)
    ensures LastInclusion(k, es, ms, i).Some? <==> k > 0
    ensures k > 0 ==> MinedReceipt(es[i].tx, chain) == ReceiptIn(ms[LastInclusion(k, es, ms, i).value])
    ensures Succeeded(MinedReceipt(es[i].tx, chain), es[i].tx) <==>
              || k <= 0
              || ms[LastInclusion(k, es, ms, i).value].Poll?
              || Succeeded(ms[LastInclusion(k, es, ms, i).value].seen.value, es[i].tx)
  {
    assert i > 0;
    var (e, m) := (es[i - 1], ms[i - 1]);
    assert CanMove(e, m) && es[i] == Act(k, e, m);
    if e.tx.status == Confirmed {
      ConfirmedSucceededIff(k, es, ms, chain, i - 1);
    } else if m.Recheck? {
      if k <= 0 { FirstConfirmationIsDirect(k, es, ms, i - 1); }
      RecheckConfirmsTheInclusion(k, es, ms, chain, i - 1);
      var j := LastInclusion(k, es, ms, i).value;
      if ms[j].Poll? { FirstInclusionSucceeded(k, es, ms, i, j); }
    } else {
      FirstConfirmationIsDirect(k, es, ms, i);
      assert m.receipt == chain(e.tx.finalHash.value, m.receipt.blockHash);
    }
  }

  /** Without a confirmation depth nothing is ever INCLUDED. */
  lemma {:induction false} FirstConfirmationIsDirect(k: int, es: seq<Entity>, ms: seq<Move>, i: nat)
    requires Life(k, es, ms) && i <= |ms| && k <= 0
    ensures LastInclusion(k, es, ms, i).None? && es[i].tx.status != Included
  {
    if i > 0 {
      FirstConfirmationIsDirect(k, es, ms, i - 1);
      assert CanMove(es[i - 1], ms[i - 1]) && es[i] == Act(k, es[i - 1], ms[i - 1]);
    }
  }

  /** The re-inclusion branch does not look at the receipt's status: a native transfer that reverted
      in the block it was reorganised into ends CONFIRMED. */
  lemma ReinclusionIsNotChecked(e: Entity, gas: GasParams) returns (es: seq<Entity>, ms: seq<Move>)
    requires Created(e) && e.tx.tokenContract.None? && ValidFees(gas)
    ensures Life(12, es, ms) && es[0] == e
    ensures es[|ms|].tx.status == Confirmed && es[|ms|].tx.receiptStatus == Some(0)
  {
    var ok := Receipt(100, 1, 21000, 1, []);
    var bad := Receipt(101, 2, 21000, 0, []);
    var e3, es1, ms1 := IsSubmitted(12, e, gas);
    var e4 := Act(12, e3, Poll(ok));
    assert DeepEnough(12, 120, 100) && DeepEnough(12, 140, 101);
    var e5 := Act(12, e4, Recheck(120, Some(bad)));
    var e6 := Act(12, e5, Recheck(140, Some(bad)));
    es, ms := es1 + [e4, e5, e6], ms1 + [Poll(ok), Recheck(120, Some(bad)), Recheck(140, Some(bad))];
  }

  lemma IsSubmitted(k: int, e: Entity, gas: GasParams) returns (e': Entity, es: seq<Entity>, ms: seq<Move>)
    requires Created(e) && ValidFees(gas)
    ensures Life(k, es, ms) && |ms| == 3 && es[0] == e && es[3] == e'
    ensures e'.tx.status == Submitted && e'.tx.finalHash.Some? && e'.tx.tokenContract == e.tx.tokenContract
  {
    var e1 := Act(k, e, Claim);
    var e2 := Act(k, e1, Assign(0));
    e' := Act(k, e2, Process(gas, true, 0, 0));
    es, ms := [e, e1, e2, e'], [Claim, Assign(0), Process(gas, true, 0, 0)];
  }

  // ---- the audit log ----

  /** The entries chain, from the creation entry on. */
  ghost predicate IsPath(log: seq<LogEntry>) {
    && log != [] && log[0].from == None && log[0].to == Queued
    && forall i :: 0 < i < |log| ==> log[i].from == Some(log[i - 1].to)
  }

  /** The log tells the row's whole history and ends where the row is. */
  ghost predicate Audited(e: Entity) {
    IsPath(e.log) && e.log[|e.log| - 1].to == e.tx.status
  }

  /** A restart found the row PENDING and put it back in the queue. */
  ghost predicate ResetBefore(es: seq<Entity>, ms: seq<Move>, i: nat)
    requires |es| == |ms| + 1 && i <= |ms|
  {
    exists j :: 0 <= j < i && ms[j].Restart? && es[j].tx.status == Pending
  }

  /** Once a reset went unlogged the gap is about to show or shows already. */
  ghost predicate Gap(e: Entity) {
    || !IsPath(e.log)
    || (e.tx.status == Queued && e.log[|e.log| - 1].to == Pending)
  }

  lemma LogGrows(k: int, e: Entity, m: Move)
    requires CanMove(e, m)
    ensures var l := Act(k, e, m).log;
            l == e.log || (l == e.log + [l[|e.log|]] && |l| == |e.log| + 1)
  {
  }

  lemma PrefixOfPath(log: seq<LogEntry>, x: LogEntry)
    requires log != [] && IsPath(log + [x])
    ensures IsPath(log) && x.from == Some(log[|log| - 1].to)
  {
    var l := log + [x];
    assert l[|log|] == x && l[|log| - 1] == log[|log| - 1];
    assert l[0] == log[0];
    forall i | 0 < i < |log| ensures log[i].from == Some(log[i - 1].to) {
      assert l[i] == log[i] && l[i - 1] == log[i - 1];
    }
  }

  lemma GapStays(k: int, e: Entity, m: Move)
    requires CanMove(e, m) && e.log != [] && Gap(e)
    ensures Gap(Act(k, e, m))
  {
    var e' := Act(k, e, m);
    LogGrows(k, e, m);
    if IsPath(e'.log) && e'.log != e.log {
      PrefixOfPath(e.log, e'.log[|e.log|]);
    }
  }

  lemma PathExtends(k: int, e: Entity, m: Move)
    requires CanMove(e, m) && Audited(e) && !(m.Restart? && e.tx.status == Pending)
    ensures Audited(Act(k, e, m))
  {
  }

  /** With every update and its log entry written together, a transaction's audit log is a path from
      QUEUED to its current status if and only if no restart ever found it PENDING: the reset is the
      one status change that nobody logs. */
  lemma {:induction false} AuditIsAPathIff(k: int, es: seq<Entity>, ms: seq<Move>, i: nat)
    requires Life(k, es, ms) && i <= |ms|
    ensures es[i].log != []
    ensures Audited(es[i]) <==> !ResetBefore(es, ms, i)
    ensures ResetBefore(es, ms, i) ==> Gap(es[i])
  {
    if i > 0 {
      AuditIsAPathIff(k, es, ms, i - 1);
      var (e, m) := (es[i - 1], ms[i - 1]);
      assert CanMove(e, m) && es[i] == Act(k, e, m);
      LogGrows(k, e, m);
      if ResetBefore(es, ms, i - 1) {
        GapStays(k, e, m);
      } else if m.Restart? && e.tx.status == Pending {
        assert ResetBefore(es, ms, i);
      } else {
        PathExtends(k, e, m);
      }
    }
  }
}
