/** The life of one transaction when a worker's read, decision and write on a row are one step.

    The decision functions are the ones the receipt poller's methods are proved against in the
    module ReceiptPolling. */
module Lifecycle {
  import opened Domain
  import opened Fees
  import opened Tables
  import opened Attempts

  // ---- decisions of the receipt poller (internal/pipeline/receipt.go) ----

  /** keccak256("Transfer(address,address,uint256)"). */
  const TRANSFER_EVENT: nat := 0xddf252ad1be2c89b69c2b068fc378daa952ba7f163c4a11628f55a4df523b3ef

  predicate IsTransferLog(l: EventLog, contract: Address, sender: Address, recipient: Address) {
    && l.address == contract && |l.topics| >= 3
    && l.topics[0] == TRANSFER_EVENT && l.topics[1] == sender && l.topics[2] == recipient
  }

  /** A native transfer needs no log; a token transfer needs one Transfer event of its own. */
  ghost predicate TransferVerified(r: Receipt, t: Transaction) {
    t.tokenContract.Some? ==>
      exists i :: 0 <= i < |r.logs| &&
        IsTransferLog(r.logs[i], t.tokenContract.value, t.pair.sender, t.recipient)
  }

  function Uint64Of(n: int): Uint64 {
    n % TWO_64
  }

  /** Go's uint64 subtraction, which wraps when the head is behind the block. */
  function Depth(head: Uint64, block: Uint64): Uint64 {
    Uint64Of(head - block)
  }

  predicate DeepEnough(k: int, head: Uint64, block: Uint64) {
    Depth(head, block) >= Uint64Of(k)
  }

  function Logged(e: Entity, from: TxStatus, to: TxStatus, actor: Actor): seq<LogEntry> {
    e.log + [LogEntry(Some(from), to, actor)]
  }

  /** pollSubmitted on a row whose receipt was found. */
  ghost function AfterReceipt(k: int, e: Entity, r: Receipt): Entity
    requires e.tx.finalHash.Some?
  {
    var h := e.tx.finalHash.value;
    var poller := PollerOf(e.tx.pair.chainId);
    if !(r.status == 1 && TransferVerified(r, e.tx)) then
      Entity(SetReceipt(e.tx, Reverted, h, r), e.attempts, Logged(e, Submitted, Reverted, poller))
    else if k > 0 then
      Entity(SetReceipt(e.tx, Included, h, r), e.attempts, Logged(e, Submitted, Included, poller))
    else
      Entity(SetReceipt(e.tx, Confirmed, h, r), ConfirmAttempts(e.attempts, h),
             Logged(e, Submitted, Confirmed, poller))
  }

  /** pollIncluded on one row, given the head and the receipt of the row's hash, if any. */
  function AfterRecheck(k: int, head: Uint64, e: Entity, receipt: Option<Receipt>): Entity
    requires receipt.Some? ==> e.tx.finalHash.Some?
  {
    var poller := PollerOf(e.tx.pair.chainId);
    if k == 0 || e.tx.blockNumber.None? || !DeepEnough(k, head, e.tx.blockNumber.value) then e
    else if receipt.None? then
      Entity(ClearReceipt(e.tx), e.attempts, Logged(e, Included, Submitted, poller))
    else
      var (r, h) := (receipt.value, e.tx.finalHash.value);
      if e.tx.blockHash == Some(r.blockHash) then
        Entity(SetReceipt(e.tx, Confirmed, h, r), ConfirmAttempts(e.attempts, h),
               Logged(e, Included, Confirmed, poller))
      else
        Entity(SetReceipt(e.tx, Included, h, r), e.attempts, Logged(e, Included, Included, poller))
  }

  // ---- steps ----

  datatype Move =
    | Claim                                              // the pipeline takes the row
    | Assign(nonce: nat)
    | Refuse(code: ErrorCode)                            // failTx before an attempt exists
    | Store(gas: GasParams, now: nat)                    // attempt 1 stored, then the process dies
    | Process(gas: GasParams, sent: bool, now: nat, later: nat)  // attempt 1, then SUBMITTED or FAILED
    | Poll(receipt: Receipt)                             // pollSubmitted found the receipt
    | Recheck(head: Uint64, seen: Option<Receipt>)       // pollIncluded looked again
    | GiveUp                                             // the detector is out of bumps
    | Bump(sent: bool, now: nat, later: nat)             // the detector replaces the attempt
    | Restart                                            // crash recovery resets PENDING rows

  predicate CanMove(e: Entity, m: Move) {
    match m
    case Claim => e.tx.status == Queued
    case Assign(_) => e.tx.status == Pending
    case Refuse(_) => e.tx.status == Pending
    case Store(gas, _) => e.tx.status == Pending && e.tx.nonce.Some? && ValidFees(gas)
    case Process(gas, _, _, _) => e.tx.status == Pending && e.tx.nonce.Some? && ValidFees(gas)
    case Poll(_) => e.tx.status == Submitted && e.tx.finalHash.Some?
    case Recheck(_, r) => e.tx.status == Included && (r.Some? ==> e.tx.finalHash.Some?)
    case GiveUp => e.tx.status == Submitted && |e.attempts| > MAX_GAS_BUMPS
    case Bump(_, _, _) =>
      e.tx.status == Submitted && e.tx.nonce.Some? && 1 <= |e.attempts| <= MAX_GAS_BUMPS
    case Restart => true
  }

  function Stored(e: Entity, a: Attempt): Entity {
    if HasNumber(e.attempts, a.number) then e else e.(attempts := InsertAttempt(e.attempts, a))
  }

  function Failing(e: Entity, from: TxStatus, code: ErrorCode, actor: Actor): Entity {
    e.(tx := SetFailed(e.tx, code), log := Logged(e, from, Failed, actor))
  }

  function Submitting(e: Entity, from: TxStatus, h: TxHash, now: nat, actor: Actor): Entity {
    e.(tx := SetSubmitted(e.tx, h, now), log := Logged(e, from, Submitted, actor))
  }

  ghost function Act(k: int, e: Entity, m: Move): Entity
    requires CanMove(e, m)
  {
    var pipeline := PipelineOf(e.tx.pair);
    match m
    case Claim =>
      e.(tx := e.tx.(status := Pending), log := Logged(e, Queued, Pending, pipeline))
    case Assign(n) => e.(tx := e.tx.(nonce := Some(n)))
    case Refuse(code) => Failing(e, Pending, code, pipeline)
    case Store(gas, now) => Stored(e, FirstAttempt(e.tx, e.tx.nonce.value, gas, now))
    case Process(gas, sent, now, later) =>
      var a := FirstAttempt(e.tx, e.tx.nonce.value, gas, now);
      if HasNumber(e.attempts, 1) then e
      else if sent then Submitting(Stored(e, a), Pending, a.Hash(), later, pipeline)
      else Failing(Stored(e, a), Pending, BroadcastFailed, pipeline)
    case Poll(r) => AfterReceipt(k, e, r)
    case Recheck(head, r) => AfterRecheck(k, head, e, r)
    case GiveUp => Failing(e, Submitted, MaxRetriesExceeded, StuckDetector)
    case Bump(sent, now, later) =>
      var a := Replacement(e.tx, e.tx.nonce.value, e.attempts, now);
      if HasNumber(e.attempts, a.number) then e
      else if sent then Submitting(Stored(e, a), Submitted, a.Hash(), later, StuckDetector)
      else Stored(e, a)
    case Restart => e.(tx := SetQueuedAgain(e.tx))
  }

  /** The row, attempts and audit entry that the API creates. */
  ghost predicate Created(e: Entity) {
    && e.tx.status == Queued && e.tx.nonce.None? && e.tx.finalHash.None?
    && e.tx.blockNumber.None? && e.tx.blockHash.None? && e.tx.receiptStatus.None? && e.tx.gasUsed.None?
    && e.tx.submittedAt.None? && e.tx.errorCode.None?
    && e.attempts == [] && e.log == [LogEntry(None, Queued, Api)]
  }

  /** One transaction's history: the states it went through and the moves between them. */
  ghost predicate Life(k: int, es: seq<Entity>, ms: seq<Move>) {
    && |es| == |ms| + 1
    && Created(es[0])
    && forall i :: 0 <= i < |ms| ==> CanMove(es[i], ms[i]) && es[i + 1] == Act(k, es[i], ms[i])
  }

  // ---- what every state of every life satisfies ----

  predicate HasReceipt(s: TxStatus) {
    s in {Included, Confirmed, Reverted}
  }

  ghost predicate Sound(e: Entity) {
    && (e.tx.blockNumber.Some? <==> HasReceipt(e.tx.status))
    && (e.tx.blockHash.Some? <==> HasReceipt(e.tx.status))
    && (e.tx.receiptStatus.Some? <==> HasReceipt(e.tx.status))
    && (e.tx.gasUsed.Some? <==> HasReceipt(e.tx.status))
    && (e.tx.errorCode.Some? <==> e.tx.status == Failed)
    && (e.tx.status in {Queued, Pending} ==> e.tx.submittedAt.None?)
    && (e.tx.status == Submitted || HasReceipt(e.tx.status) ==> e.tx.submittedAt.Some?)
    && (e.tx.status == Queued ==> e.tx.nonce.None?)
    && Chain(e.tx, e.attempts)
    && (e.tx.status == Submitted || HasReceipt(e.tx.status) ==>
          && e.attempts != [] && e.tx.nonce == Some(e.attempts[0].raw.nonce)
          && e.tx.finalHash.Some? && HasHash(e.attempts, e.tx.finalHash.value))
    && (e.tx.status != Confirmed ==> forall i :: 0 <= i < |e.attempts| ==> e.attempts[i].status == Broadcast)
    && (e.tx.status == Confirmed ==>
          forall i :: 0 <= i < |e.attempts| ==>
            e.attempts[i].status
            == if e.attempts[i].Hash() == e.tx.finalHash.value then AttemptConfirmed else Replaced)
  }

  lemma HashSurvives(s: seq<Attempt>, r: seq<Attempt>, h: TxHash)
    requires HasHash(s, h) && |s| <= |r| && forall i :: 0 <= i < |s| ==> r[i].raw == s[i].raw
    ensures HasHash(r, h)
  {
    var i :| 0 <= i < |s| && s[i].Hash() == h;
    assert r[i].Hash() == h;
  }

  lemma ReceiptKeepsSound(k: int, e: Entity, r: Receipt)
    requires Sound(e) && CanMove(e, Poll(r))
    ensures Sound(AfterReceipt(k, e, r))
  {
    var e' := AfterReceipt(k, e, r);
    if e'.tx.status == Confirmed {
      SameRawsKeepChain(e.tx, e.attempts, e'.attempts);
      HashSurvives(e.attempts, e'.attempts, e.tx.finalHash.value);
    }
  }

  lemma RecheckKeepsSound(k: int, e: Entity, head: Uint64, seen: Option<Receipt>)
    requires Sound(e) && CanMove(e, Recheck(head, seen))
    ensures Sound(AfterRecheck(k, head, e, seen))
  {
    var e' := AfterRecheck(k, head, e, seen);
    if e'.tx.status == Confirmed {
      SameRawsKeepChain(e.tx, e.attempts, e'.attempts);
      HashSurvives(e.attempts, e'.attempts, e.tx.finalHash.value);
    }
  }

  lemma FirstKeepsSound(k: int, e: Entity, m: Move)
    requires Sound(e) && CanMove(e, m) && (m.Store? || m.Process?)
    ensures Sound(Act(k, e, m))
  {
    var e' := Act(k, e, m);
    ChainIsOrdered(e.tx, e.attempts);
    if e.attempts == [] {
      var a := FirstAttempt(e.tx, e.tx.nonce.value, m.gas, m.now);
      FirstStarts(e.tx, e.tx.nonce.value, m.gas, m.now);
      assert e'.attempts == [a];
      assert e'.attempts[0].Hash() == a.Hash();
    }
  }

  lemma BumpKeepsSound(k: int, e: Entity, m: Move)
    requires Sound(e) && CanMove(e, m) && m.Bump?
    ensures Sound(Act(k, e, m))
  {
    var e' := Act(k, e, m);
    ChainIsOrdered(e.tx, e.attempts);
    ReplacementExtends(e.tx, e.attempts, m.now);
    var a := Replacement(e.tx, e.tx.nonce.value, e.attempts, m.now);
    assert e'.attempts == e.attempts + [a];
    HashSurvives(e.attempts, e'.attempts, e.tx.finalHash.value);
    assert e'.attempts[|e.attempts|].Hash() == a.Hash();
  }

  lemma ActKeepsSound(k: int, e: Entity, m: Move)
    requires Sound(e) && CanMove(e, m)
    ensures Sound(Act(k, e, m))
  {
    if m.Poll? {
      ReceiptKeepsSound(k, e, m.receipt);
    } else if m.Recheck? {
      RecheckKeepsSound(k, e, m.head, m.seen);
    } else if m.Store? || m.Process? {
      FirstKeepsSound(k, e, m);
    } else if m.Bump? {
      BumpKeepsSound(k, e, m);
    }
  }

  lemma {:induction false} LifeIsSound(k: int, es: seq<Entity>, ms: seq<Move>, i: nat)
    requires Life(k, es, ms) && i < |es|
    ensures Sound(es[i])
  {
    if i > 0 {
      LifeIsSound(k, es, ms, i - 1);
      ActKeepsSound(k, es[i - 1], ms[i - 1]);
    }
  }

  // ---- the documented graph ----

  predicate Edge(from: TxStatus, to: TxStatus) {
    || (from == Queued && to == Pending)
    || (from == Pending && to in {Submitted, Failed})
    || (from == Submitted && to in {Included, Confirmed, Reverted, Failed})
    || (from == Included && to in {Confirmed, Submitted})
  }

  /** Every status change is an edge of the documented graph, or the restart's PENDING to QUEUED;
      so terminal statuses are absorbing. */
  lemma StatusFollowsTheGraph(k: int, es: seq<Entity>, ms: seq<Move>, i: nat)
    requires Life(k, es, ms) && i < |ms|
    ensures var (a, b) := (es[i].tx.status, es[i + 1].tx.status);
            a == b || Edge(a, b) || (ms[i].Restart? && a == Pending && b == Queued)
    ensures es[i].tx.status.IsTerminal() ==> es[i + 1] == es[i]
  {
    assert CanMove(es[i], ms[i]) && es[i + 1] == Act(k, es[i], ms[i]);
  }

  lemma {:induction false} TerminalIsForever(k: int, es: seq<Entity>, ms: seq<Move>, i: nat, j: nat)
    requires Life(k, es, ms) && i <= j < |es| && es[i].tx.status.IsTerminal()
    ensures es[j] == es[i]
  {
    if i < j {
      TerminalIsForever(k, es, ms, i, j - 1);
      StatusFollowsTheGraph(k, es, ms, j - 1);
    }
  }

  /** The receipt columns are set in exactly the statuses that have a receipt, the error code exactly
      when the row FAILED, and the time of submission from the first submission on. */
  lemma BlockFieldsExactlyWithReceipt(k: int, es: seq<Entity>, ms: seq<Move>, i: nat)
    requires Life(k, es, ms) && i < |es|
    ensures es[i].tx.blockNumber.Some? <==> es[i].tx.status in {Included, Confirmed, Reverted}
    ensures es[i].tx.blockHash.Some? <==> es[i].tx.status in {Included, Confirmed, Reverted}
    ensures es[i].tx.gasUsed.Some? <==> es[i].tx.status in {Included, Confirmed, Reverted}
    ensures es[i].tx.receiptStatus.Some? <==> es[i].tx.status in {Included, Confirmed, Reverted}
    ensures es[i].tx.errorCode.Some? <==> es[i].tx.status == Failed
    ensures es[i].tx.status in {Queued, Pending} ==> es[i].tx.submittedAt.None?
    ensures es[i].tx.status in {Submitted, Included, Confirmed, Reverted} ==> es[i].tx.submittedAt.Some?
  {
    LifeIsSound(k, es, ms, i);
  }

  /** The detector never indexes an empty list: a SUBMITTED row has a nonce and one to six attempts,
      all with that nonce, and with six it is given up. */
  lemma DetectorHasAnAttempt(k: int, es: seq<Entity>, ms: seq<Move>, i: nat)
    requires Life(k, es, ms) && i < |es| && es[i].tx.status == Submitted
    ensures es[i].tx.nonce.Some? && 1 <= |es[i].attempts| <= 6
    ensures forall j :: 0 <= j < |es[i].attempts| ==>
              && es[i].attempts[j].number == j + 1
              && es[i].attempts[j].raw.nonce == es[i].tx.nonce.value
    ensures CanMove(es[i], GiveUp) <==> |es[i].attempts| == 6
    ensures CanMove(es[i], Bump(true, 0, 0)) <==> |es[i].attempts| < 6
  {
    LifeIsSound(k, es, ms, i);
  }

  // ---- attempts of a confirmed transaction ----

  /** With distinct hashes exactly one attempt of a CONFIRMED row is confirmed, it is the one whose
      hash the row carries, and every other attempt is replaced. */
  lemma ConfirmedOnce(k: int, es: seq<Entity>, ms: seq<Move>, i: nat) returns (c: nat)
    requires Life(k, es, ms) && i < |es| && es[i].tx.status == Confirmed
    requires DistinctHashes(es[i].attempts)
    ensures c < |es[i].attempts| && es[i].tx.finalHash == Some(es[i].attempts[c].Hash())
    ensures forall j :: 0 <= j < |es[i].attempts| ==>
              es[i].attempts[j].status == if j == c then AttemptConfirmed else Replaced
  {
    LifeIsSound(k, es, ms, i);
    var s := es[i].attempts;
    c :| 0 <= c < |s| && s[c].Hash() == es[i].tx.finalHash.value;
  }

  /** A row that was never replaced, or whose first fee is at least 7, has distinct hashes. */
  lemma ConfirmedOnceByFee(k: int, es: seq<Entity>, ms: seq<Move>, i: nat) returns (c: nat)
    requires Life(k, es, ms) && i < |es| && es[i].tx.status == Confirmed
    requires |es[i].attempts| == 1 || FirstFeeAtLeast(es[i].attempts, 7)
    ensures c < |es[i].attempts| && es[i].tx.finalHash == Some(es[i].attempts[c].Hash())
    ensures forall j :: 0 <= j < |es[i].attempts| ==>
              es[i].attempts[j].status == if j == c then AttemptConfirmed else Replaced
  {
    LifeIsSound(k, es, ms, i);
    var s := es[i].attempts;
    if |s| > 1 {
      forall m, n | 0 <= m < n < |s| ensures s[m].Hash() != s[n].Hash() {
        StrictlyDearer(s[0].raw.gas, m, n);
      }
    }
    c := ConfirmedOnce(k, es, ms, i);
  }

  // ---- statements on one row of the tables ----

  ghost predicate SameOthers(db: Db, db': Db, id: TxId) {
    && db'.txs.Keys == db.txs.Keys
    && forall j :: j in db.txs && j != id ==> db'.EntityOf(j) == db.EntityOf(j)
  }

  lemma FailedRow(db: Db, id: TxId, from: TxStatus, code: ErrorCode, actor: Actor)
    requires id in db.txs
    ensures var d := db.MarkFailed(id, code).LogTransition(id, LogEntry(Some(from), Failed, actor));
            SameOthers(db, d, id) && d.EntityOf(id) == Failing(db.EntityOf(id), from, code, actor)
  {
  }

  lemma SubmittedRow(db: Db, id: TxId, from: TxStatus, h: TxHash, now: nat, actor: Actor)
    requires id in db.txs
    ensures var d := db.MarkSubmitted(id, h, now).LogTransition(id, LogEntry(Some(from), Submitted, actor));
            SameOthers(db, d, id) && d.EntityOf(id) == Submitting(db.EntityOf(id), from, h, now, actor)
  {
  }

  lemma StoredRow(db: Db, id: TxId, a: Attempt)
    requires db.CanStore(id, a.number)
    ensures var d := db.StoreAttempt(id, a);
            SameOthers(db, d, id) && d.EntityOf(id) == Stored(db.EntityOf(id), a)
  {
  }
}
