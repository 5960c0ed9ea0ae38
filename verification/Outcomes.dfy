/** What each step of a transaction's life writes, stated in the columns of its row, its attempts and
    its audit entries. Each outcome below leaves one state only. */
module Outcomes {
  import opened Domain
  import opened Fees
  import opened Tables
  import opened Attempts
  import opened Lifecycle
  import opened Histories
  import opened Passes
  import opened Repository

  // ---- columns ----

  /** Only the status and the columns of the receipt may differ. */
  predicate SameButReceipt(t: Transaction, t': Transaction) {
    t' == t.(status := t'.status, blockNumber := t'.blockNumber, blockHash := t'.blockHash,
             gasUsed := t'.gasUsed, receiptStatus := t'.receiptStatus)
  }

  /** The row shows this receipt; its status went through Go's uint8. */
  predicate Shows(t: Transaction, r: Receipt) {
    && t.blockNumber == Some(r.blockNumber) && t.blockHash == Some(r.blockHash)
    && t.gasUsed == Some(r.gasUsed) && t.receiptStatus == Some(r.status % 256)
  }

  predicate ShowsNone(t: Transaction) {
    t.blockNumber.None? && t.blockHash.None? && t.gasUsed.None? && t.receiptStatus.None?
  }

  /** One audit entry more: from a status to the one the row has now. */
  predicate OneEntry(e: Entity, e': Entity, from: TxStatus, actor: Actor) {
    e'.log == e.log + [LogEntry(Some(from), e'.tx.status, actor)]
  }

  /** The attempt with the mined hash is confirmed, the others that were out are replaced. */
  predicate Settled(s: seq<Attempt>, s': seq<Attempt>, mined: TxHash) {
    |s'| == |s| && forall i :: 0 <= i < |s| ==>
      && s'[i].number == s[i].number && s'[i].raw == s[i].raw && s'[i].createdAt == s[i].createdAt
      && s'[i].status == if s[i].Hash() == mined then AttemptConfirmed
                         else if s[i].status == Broadcast then Replaced else s[i].status
  }

  predicate AttemptsAfter(e: Entity, e': Entity) {
    if e'.tx.status == Confirmed
    then e.tx.finalHash.Some? && Settled(e.attempts, e'.attempts, e.tx.finalHash.value)
    else e'.attempts == e.attempts
  }

  // ---- the receipt poller ----

  /** A SUBMITTED row whose receipt was found: REVERTED if and only if the transfer did not succeed,
      otherwise INCLUDED if and only if a depth is asked for, and CONFIRMED if not. */
  ghost predicate PolledTo(k: int, e: Entity, r: Receipt, e': Entity) {
    && (e'.tx.status == Reverted <==> !Succeeded(r, e.tx))
    && (e'.tx.status == Included <==> Succeeded(r, e.tx) && k > 0)
    && (e'.tx.status == Confirmed <==> Succeeded(r, e.tx) && k <= 0)
    && SameButReceipt(e.tx, e'.tx) && Shows(e'.tx, r) && AttemptsAfter(e, e')
    && OneEntry(e, e', Submitted, PollerOf(e.tx.pair.chainId))
  }

  /** An INCLUDED row looked at again. Not deep enough (DeepEnoughIff), it stays as it is. Otherwise it
      is SUBMITTED with no receipt columns if and only if its receipt is gone, CONFIRMED if and only if
      the receipt is of the recorded block, and INCLUDED in the receipt's block if it is of another. */
  predicate RecheckedTo(k: int, head: Uint64, e: Entity, seen: Option<Receipt>, e': Entity) {
    if !IsReady(k, head, e.tx) then e' == e else
    && (e'.tx.status == Submitted <==> seen.None?)
    && (e'.tx.status == Confirmed <==> seen.Some? && e.tx.blockHash == Some(seen.value.blockHash))
    && (e'.tx.status == Included <==> seen.Some? && e.tx.blockHash != Some(seen.value.blockHash))
    && SameButReceipt(e.tx, e'.tx) && AttemptsAfter(e, e')
    && (if seen.None? then ShowsNone(e'.tx) else Shows(e'.tx, seen.value))
    && OneEntry(e, e', Included, PollerOf(e.tx.pair.chainId))
  }

  lemma PollOutcome(k: int, es: seq<Entity>, ms: seq<Move>, i: nat)
    requires Life(k, es, ms) && i < |ms| && ms[i].Poll?
    ensures es[i].tx.status == Submitted && PolledTo(k, es[i], ms[i].receipt, es[i + 1])
  {
    assert CanMove(es[i], ms[i]) && es[i + 1] == Act(k, es[i], ms[i]);
  }

  lemma RecheckOutcome(k: int, es: seq<Entity>, ms: seq<Move>, i: nat)
    requires Life(k, es, ms) && i < |ms| && ms[i].Recheck?
    ensures es[i].tx.status == Included && RecheckedTo(k, ms[i].head, es[i], ms[i].seen, es[i + 1])
  {
    assert CanMove(es[i], ms[i]) && es[i + 1] == Act(k, es[i], ms[i]);
  }

  lemma SettledIsOne(s: seq<Attempt>, a: seq<Attempt>, b: seq<Attempt>, mined: TxHash)
    requires Settled(s, a, mined) && Settled(s, b, mined)
    ensures a == b
  {
    assert forall i :: 0 <= i < |s| ==> a[i] == b[i];
  }

  /** The outcomes say everything: each leaves one state. */
  lemma OutcomesAreOne(k: int, head: Uint64, e: Entity, r: Receipt, seen: Option<Receipt>, a: Entity, b: Entity)
    requires || (PolledTo(k, e, r, a) && PolledTo(k, e, r, b))
             || (RecheckedTo(k, head, e, seen, a) && RecheckedTo(k, head, e, seen, b))
    ensures a == b
  {
    if a.tx.status == Confirmed && a.attempts != b.attempts {
      SettledIsOne(e.attempts, a.attempts, b.attempts, e.tx.finalHash.value);
    }
  }

  // ---- a whole pass ----

  /** Every SUBMITTED row of the chain with a receipt has its outcome, every other row is untouched. */
  ghost predicate AllPolled(k: int, receipts: map<TxHash, Receipt>, chainId: nat, db: Db, d: Db) {
    && d.txs.Keys == db.txs.Keys && d.cursors == db.cursors
    && forall id :: id in db.txs ==>
         var t := db.txs[id];
         if t.status == Submitted && t.pair.chainId == chainId && t.finalHash.Some? && t.finalHash.value in receipts
         then PolledTo(k, db.EntityOf(id), receipts[t.finalHash.value], d.EntityOf(id))
         else d.EntityOf(id) == db.EntityOf(id)
  }

  /** Every INCLUDED row of the chain has its outcome, every other row is untouched. */
  ghost predicate AllRechecked(k: int, receipts: map<TxHash, Receipt>, head: Uint64, chainId: nat, db: Db, d: Db) {
    && d.txs.Keys == db.txs.Keys && d.cursors == db.cursors
    && forall id :: id in db.txs ==>
         var t := db.txs[id];
         if t.status == Included && t.pair.chainId == chainId
         then RecheckedTo(k, head, db.EntityOf(id), FindReceipt(receipts, t), d.EntityOf(id))
         else d.EntityOf(id) == db.EntityOf(id)
  }

  lemma EffectPolls(p: Pass, e: Entity, r: Receipt)
    requires p.SubmittedPass? && p.Lookup(e.tx) == Some(r)
    ensures PolledTo(p.k, e, r, p.Effect(e))
  {
  }

  lemma EffectRechecks(p: Pass, e: Entity)
    requires p.IncludedPass?
    ensures RecheckedTo(p.k, p.head, e, p.Lookup(e.tx), p.Effect(e))
  {
  }

  lemma PassPolls(p: Pass, chainId: nat, db: Db, d: Db)
    requires p.SubmittedPass? && p.Handled(chainId, db, d)
    ensures AllPolled(p.k, p.receipts, chainId, db, d)
  {
    forall id | id in db.txs && db.Matches(id, Submitted, chainId, None) && p.Lookup(db.txs[id]).Some?
      ensures PolledTo(p.k, db.EntityOf(id), p.Lookup(db.txs[id]).value, d.EntityOf(id))
    {
      EffectPolls(p, db.EntityOf(id), p.Lookup(db.txs[id]).value);
    }
  }

  lemma PassRechecks(p: Pass, chainId: nat, db: Db, d: Db)
    requires p.IncludedPass? && p.Handled(chainId, db, d)
    ensures AllRechecked(p.k, p.receipts, p.head, chainId, db, d)
  {
    forall id | id in db.txs && db.Matches(id, Included, chainId, None)
      ensures RecheckedTo(p.k, p.head, db.EntityOf(id), p.Lookup(db.txs[id]), d.EntityOf(id))
    {
      EffectRechecks(p, db.EntityOf(id));
    }
  }

  /** The result of a scan of the SUBMITTED rows up to the cursor: rows outside the pass keep everything;
      if nothing failed the rows up to the cursor are handled, and if it is `done` all have their
      outcome. */
  ghost predicate SubmittedScan(p: Pass, chainId: nat, db: Db, d: Db, cursor: Option<TxId>, done: bool,
                                clean: bool)
  {
    && p.LeavesOthersAlone(chainId, db, d)
    && (clean ==> p.HandledUpTo(chainId, db, d, cursor))
    && (clean && done ==> p.Handled(chainId, db, d) && AllPolled(p.k, p.receipts, chainId, db, d))
  }

  lemma SubmittedResult(p: Pass, chainId: nat, db: Db, d: Db, cursor: Option<TxId>, done: bool, clean: bool)
    requires p.SubmittedPass? && SubmittedSoFar(p, chainId, db, d, cursor, done, clean)
    ensures SubmittedScan(p, chainId, db, d, cursor, done, clean)
  {
    if clean && done { PassPolls(p, chainId, db, d); }
  }

  /** The result of a scan of the INCLUDED rows up to the cursor, whole if `done`: what it handled, and
      what it sent. */
  ghost predicate IncludedScan(p: Pass, chainId: nat, db: Db, d: Db, sent: set<Delivery>, sentNow: set<Delivery>,
                               cursor: Option<TxId>, done: bool, clean: bool)
  {
    && p.IncludedPass? && p.LeavesOthersAlone(chainId, db, d)
    && (clean ==> p.HandledUpTo(chainId, db, d, cursor))
    && (clean && done ==> p.Handled(chainId, db, d) && AllRechecked(p.k, p.receipts, p.head, chainId, db, d))
    && ScanSent(p, chainId, db, sent, sentNow, cursor, clean)
    && (done ==> p.k == 0 || Covers(cursor, Included, chainId, db))
  }

  lemma NothingScanned(p: Pass, chainId: nat, db: Db, sent: set<Delivery>, clean: bool)
    requires p.IncludedPass?
    ensures IncludedScan(p, chainId, db, db, sent, sent, None, false, clean)
  {
  }

  /** Without a confirmation depth the pass does nothing. */
  lemma NoDepthNoScan(p: Pass, chainId: nat, db: Db, sent: set<Delivery>, clean: bool)
    requires p.IncludedPass? && p.k == 0
    ensures IncludedScan(p, chainId, db, db, sent, sent, None, true, clean)
  {
  }

  lemma ScanResult(p: Pass, chainId: nat, db: Db, d: Db, sent: set<Delivery>, sentNow: set<Delivery>,
                   cursor: Option<TxId>, done: bool, clean: bool)
    requires IncludedSoFar(p, chainId, db, d, sent, sentNow, cursor, done, clean)
    ensures IncludedScan(p, chainId, db, d, sent, sentNow, cursor, done, clean)
  {
    if clean && done { PassRechecks(p, chainId, db, d); }
  }

  // ---- pipeline and detector ----

  /** Only what a submission or a failure writes may differ. */
  predicate SameButSubmission(t: Transaction, t': Transaction) {
    t' == t.(status := t'.status, finalHash := t'.finalHash, submittedAt := t'.submittedAt, errorCode := t'.errorCode)
  }

  /** FAILED with this code and an audit entry; hash and time of submission stay. */
  predicate FailedWith(e: Entity, e': Entity, from: TxStatus, code: ErrorCode, actor: Actor) {
    && SameButSubmission(e.tx, e'.tx) && OneEntry(e, e', from, actor)
    && e'.tx.status == Failed && e'.tx.errorCode == Some(code)
    && e'.tx.finalHash == e.tx.finalHash && e'.tx.submittedAt == e.tx.submittedAt
  }

  /** SUBMITTED at this time, with the hash of the last attempt and an audit entry. */
  predicate SubmittedWith(e: Entity, e': Entity, from: TxStatus, now: nat, actor: Actor) {
    && SameButSubmission(e.tx, e'.tx) && OneEntry(e, e', from, actor)
    && e'.tx.status == Submitted && e'.tx.errorCode == e.tx.errorCode && e'.tx.submittedAt == Some(now)
    && e'.attempts != [] && e'.tx.finalHash == Some(e'.attempts[|e'.attempts| - 1].Hash())
  }

  /** One attempt more, the next number, with the row's nonce and payload and this price. */
  predicate NewAttempt(e: Entity, e': Entity, gas: GasParams, now: nat) {
    && |e'.attempts| == |e.attempts| + 1 && e'.attempts[..|e.attempts|] == e.attempts
    && var a := e'.attempts[|e.attempts|];
       && a.number == |e'.attempts| && a.status == Broadcast && a.createdAt == now
       && a.raw.pair == e.tx.pair && Some(a.raw.nonce) == e.tx.nonce && a.raw.gas == gas
       && a.raw.to == e.tx.to && a.raw.value == e.tx.value && a.raw.data == e.tx.data
  }

  /** A row without attempts gets its first one, then it is SUBMITTED if and only if the node took it,
      else FAILED; a row that has an attempt is let go. */
  lemma ProcessOutcome(k: int, es: seq<Entity>, ms: seq<Move>, i: nat)
    requires Life(k, es, ms) && i < |ms| && ms[i].Process?
    ensures var (e, e', m) := (es[i], es[i + 1], ms[i]);
            && e.tx.status == Pending
            && if e.attempts != [] then e' == e
               else && NewAttempt(e, e', m.gas, m.now)
                    && if m.sent then SubmittedWith(e, e', Pending, m.later, PipelineOf(e.tx.pair))
                       else FailedWith(e, e', Pending, BroadcastFailed, PipelineOf(e.tx.pair))
  {
    assert CanMove(es[i], ms[i]) && es[i + 1] == Act(k, es[i], ms[i]);
    LifeIsSound(k, es, ms, i);
    ChainIsOrdered(es[i].tx, es[i].attempts);
  }

  /** A replacement: the bumped price of the last attempt. The row changes if and only if the node
      took it, and then it carries the new hash and time. */
  lemma BumpOutcome(k: int, es: seq<Entity>, ms: seq<Move>, i: nat)
    requires Life(k, es, ms) && i < |ms| && ms[i].Bump?
    ensures var (e, e', m) := (es[i], es[i + 1], ms[i]);
            && e.tx.status == Submitted && 1 <= |e.attempts| <= 5
            && NewAttempt(e, e', BumpGas(e.attempts[|e.attempts| - 1].raw.gas, |e.attempts|), m.now)
            && if m.sent then SubmittedWith(e, e', Submitted, m.later, StuckDetector)
               else e'.tx == e.tx && e'.log == e.log
  {
    assert CanMove(es[i], ms[i]) && es[i + 1] == Act(k, es[i], ms[i]);
    LifeIsSound(k, es, ms, i);
    ChainIsOrdered(es[i].tx, es[i].attempts);
    ReplacementExtends(es[i].tx, es[i].attempts, ms[i].now);
  }

  /** Refused before an attempt exists, or given up with six attempts out: FAILED, attempts as they
      were. */
  lemma FailureOutcome(k: int, es: seq<Entity>, ms: seq<Move>, i: nat)
    requires Life(k, es, ms) && i < |ms| && (ms[i].Refuse? || ms[i].GiveUp?)
    ensures var (e, e', m) := (es[i], es[i + 1], ms[i]);
            && e'.attempts == e.attempts
            && if m.Refuse? then FailedWith(e, e', Pending, m.code, PipelineOf(e.tx.pair))
               else |e.attempts| == 6 && FailedWith(e, e', Submitted, MaxRetriesExceeded, StuckDetector)
  {
    assert CanMove(es[i], ms[i]) && es[i + 1] == Act(k, es[i], ms[i]);
    LifeIsSound(k, es, ms, i);
  }
}
