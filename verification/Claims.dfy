/** Conservation of nonces within one process run, and the order of claims. */
module Claims {
  import opened Domain
  import opened Tables
  import opened Repository
  import opened Protocol
  import opened Safety

  /** The nonces that claims were given, in claim order. */
  function Given(s: seq<ClaimRecord>): seq<nat> {
    if s == [] then []
    else Given(s[..|s| - 1]) + if s[|s| - 1].nonce.Some? then [s[|s| - 1].nonce.value] else []
  }

  function Interval(from: nat, to: nat): seq<nat>
    requires from <= to
  {
    seq(to - from, i requires 0 <= i => from + i)
  }

  /** One pair's books: the nonces given out are start, start+1, ... up to the cursor, each to one
      claim, in claim order; no row is claimed twice; claims follow created_at. */
  ghost predicate Books(p: Pair, start: nat, cursor: nat, s: seq<ClaimRecord>, txs: map<TxId, Transaction>) {
    && start <= cursor && Given(s) == Interval(start, cursor)
    && (forall i :: 0 <= i < |s| ==>
          s[i].id in txs && txs[s[i].id].pair == p && txs[s[i].id].status != Queued)
    && (forall i, j :: 0 <= i < j < |s| ==> s[i].id != s[j].id)
    && (forall i, x :: 0 <= i < |s| && x in s[i].waiting ==>
          x in txs && txs[s[i].id].createdAt <= txs[x].createdAt)
  }

  ghost predicate PairOk(p: Pair, w: World) {
    && p in w.db.cursors && p in w.start && p in w.pipes
    && Books(p, w.start[p], w.db.cursors[p], w.ClaimsOf(p), w.db.txs)
    && (w.pipes[p].Claimed? ==>
          var s := w.ClaimsOf(p);
          s != [] && s[|s| - 1].id == w.pipes[p].tx.id && s[|s| - 1].nonce.None?)
  }

  ghost predicate BooksOk(pairs: set<Pair>, w: World) {
    && (w.phase.Running? ==> w.pipes.Keys == pairs && forall p :: p in pairs ==> PairOk(p, w))
    && (w.phase.Aligning? ==>
          w.phase.done <= pairs &&
          forall p :: p in w.phase.done ==> p in w.db.cursors && p in w.start && w.start[p] == w.db.cursors[p])
    && (!w.phase.Running? ==> w.claims == map[])
  }

  lemma GivenGrows(s: seq<ClaimRecord>, r: ClaimRecord)
    ensures Given(s + [r]) == Given(s) + if r.nonce.Some? then [r.nonce.value] else []
  {
    assert (s + [r])[..|s|] == s;
  }

  lemma GivenLast(s: seq<ClaimRecord>, n: nat)
    requires s != [] && s[|s| - 1].nonce.None?
    ensures Given(WithNonce(s, n)) == Given(s) + [n]
  {
    GivenGrows(s[..|s| - 1], s[|s| - 1].(nonce := Some(n)));
  }

  // ---- one pair's books through a step ----

  /** Rows stay where they are, keep their pair and age, and do not become QUEUED. */
  ghost predicate Forward(txs: map<TxId, Transaction>, txs': map<TxId, Transaction>) {
    forall id :: id in txs ==>
      && id in txs' && txs'[id].pair == txs[id].pair && txs'[id].createdAt == txs[id].createdAt
      && (txs[id].status != Queued ==> txs'[id].status != Queued)
  }

  lemma BooksCarry(p: Pair, start: nat, cursor: nat, s: seq<ClaimRecord>,
                   txs: map<TxId, Transaction>, txs': map<TxId, Transaction>)
    requires Books(p, start, cursor, s, txs) && Forward(txs, txs')
    ensures Books(p, start, cursor, s, txs')
  {
  }

  lemma BooksClaim(p: Pair, start: nat, cursor: nat, s: seq<ClaimRecord>, db: Db, id: TxId)
    requires Books(p, start, cursor, s, db.txs) && db.ClaimsNext(p, id)
    ensures Books(p, start, cursor, s + [ClaimRecord(id, db.Queue(p), None)], db.Claim(id).txs)
  {
    BooksCarry(p, start, cursor, s, db.txs, db.Claim(id).txs);
    BooksAppend(p, start, cursor, s, db.Claim(id).txs, ClaimRecord(id, db.Queue(p), None));
  }

  lemma BooksAppend(p: Pair, start: nat, cursor: nat, s: seq<ClaimRecord>, txs: map<TxId, Transaction>, r: ClaimRecord)
    requires Books(p, start, cursor, s, txs) && r.nonce.None?
    requires r.id in txs && txs[r.id].pair == p && txs[r.id].status != Queued
    requires forall i :: 0 <= i < |s| ==> s[i].id != r.id
    requires forall x :: x in r.waiting ==> x in txs && txs[r.id].createdAt <= txs[x].createdAt
    ensures Books(p, start, cursor, s + [r], txs)
  {
    GivenGrows(s, r);
    forall i, x | 0 <= i < |s + [r]| && x in (s + [r])[i].waiting
      ensures x in txs && txs[(s + [r])[i].id].createdAt <= txs[x].createdAt
    {
      assert i < |s| ==> (s + [r])[i] == s[i];
    }
  }

  lemma BooksAssign(p: Pair, start: nat, cursor: nat, s: seq<ClaimRecord>,
                    txs: map<TxId, Transaction>, txs': map<TxId, Transaction>)
    requires Books(p, start, cursor, s, txs) && s != [] && s[|s| - 1].nonce.None? && Forward(txs, txs')
    ensures Books(p, start, cursor + 1, WithNonce(s, cursor), txs')
  {
    GivenLast(s, cursor);
    assert Interval(start, cursor + 1) == Interval(start, cursor) + [cursor];
    BooksCarry(p, start, cursor, s, txs, txs');
  }

  /** Cursors, claims and the claims in hand are as they were. */
  ghost predicate BooksUntouched(w: World, w': World) {
    && w'.phase == w.phase && w'.start == w.start && w'.claims == w.claims
    && w'.db.cursors == w.db.cursors && w'.pipes.Keys == w.pipes.Keys
    && forall p :: p in w'.pipes && w'.pipes[p].Claimed? ==> w'.pipes[p] == w.pipes[p]
  }

  // ---- every step ----

  /** A row that is rewritten keeps its pair and age and is not put back in the queue. */
  predicate KeepsPlace(t: Transaction, row: Transaction) {
    row.pair == t.pair && row.createdAt == t.createdAt && (t.status != Queued ==> row.status != Queued)
  }

  lemma PutForward(db: Db, id: TxId, row: Transaction)
    requires id in db.txs ==> KeepsPlace(db.txs[id], row)
    ensures Forward(db.txs, db.Put(id, row).txs)
  {
  }

  lemma WritesMoveForward(db: Db, id: TxId, h: TxHash, now: nat, code: ErrorCode)
    ensures Forward(db.txs, db.MarkSubmitted(id, h, now).txs)
    ensures Forward(db.txs, db.MarkFailed(id, code).txs)
    ensures Forward(db.txs, db.RevertToSubmitted(id).txs)
  {
    if id in db.txs {
      PutForward(db, id, SetSubmitted(db.txs[id], h, now));
      PutForward(db, id, SetFailed(db.txs[id], code));
      PutForward(db, id, ClearReceipt(db.txs[id]));
    }
  }

  lemma QuietTxs(w: World, e: Event)
    requires PipeEnabled(w, e) && (e.Log? || e.Refuse? || e.Sign? || e.Send?)
    ensures PipeStep(w, e).db.txs == w.db.txs
  {
  }

  lemma StoreTxs(w: World, e: Event)
    requires PipeEnabled(w, e) && e.StoreFirst?
    ensures PipeStep(w, e).db.txs == w.db.txs
  {
  }

  lemma CreateForward(w: World, e: Event)
    requires PipeEnabled(w, e) && e.Create?
    ensures Forward(w.db.txs, PipeStep(w, e).db.txs)
  {
  }

  lemma ClaimForward(w: World, e: Event)
    requires PipeEnabled(w, e) && e.Claim?
    ensures Forward(w.db.txs, PipeStep(w, e).db.txs)
  {
    PutForward(w.db, e.id, w.db.txs[e.id].(status := Pending));
    assert PipeStep(w, e).db == Settle(e.o, w.db, w.db.Claim(e.id));
  }

  lemma AssignForward(w: World, e: Event)
    requires PipeEnabled(w, e) && e.Assign?
    ensures Forward(w.db.txs, PipeStep(w, e).db.txs)
  {
    var id := w.pipes[e.p].tx.id;
    if e.p in w.db.cursors && id in w.db.txs {
      PutForward(w.db, id, w.db.txs[id].(nonce := Some(w.db.cursors[e.p])));
      assert w.db.AssignNonce(id, e.p).txs == w.db.Put(id, w.db.txs[id].(nonce := Some(w.db.cursors[e.p]))).txs;
    }
  }

  lemma SubmitForward(w: World, e: Event)
    requires PipeEnabled(w, e) && e.Submit?
    ensures Forward(w.db.txs, PipeStep(w, e).db.txs)
  {
    WritesMoveForward(w.db, w.pipes[e.p].tx.id, w.pipes[e.p].a.Hash(), e.now, InternalError);
  }

  lemma FailForward(w: World, e: Event)
    requires PipeEnabled(w, e) && e.Fail?
    ensures Forward(w.db.txs, PipeStep(w, e).db.txs)
  {
    WritesMoveForward(w.db, w.pipes[e.p].tx.id, HashOf(AnyRaw()), 0, w.pipes[e.p].code);
  }

  lemma PipeMovesForward(w: World, e: Event)
    requires PipeEnabled(w, e)
    ensures Forward(w.db.txs, PipeStep(w, e).db.txs)
  {
    match e {
      case Create(_) => CreateForward(w, e);
      case Claim(_, _, _) => ClaimForward(w, e);
      case Assign(_, _) => AssignForward(w, e);
      case StoreFirst(_, _) => StoreTxs(w, e);
      case Submit(_, _, _) => SubmitForward(w, e);
      case Fail(_, _) => FailForward(w, e);
      case _ => QuietTxs(w, e);
    }
  }

  function AnyRaw(): SignedTx {
    SignedTx(Pair(0, 0), 0, NO_GAS, 0, 0, [])
  }

  lemma DetWritesForward(w: World, e: Event)
    requires DetEnabled(w, e) && (e.GiveUp? || e.Resubmit?)
    ensures Forward(w.db.txs, DetStep(w, e).db.txs) && BooksUntouched(w, DetStep(w, e))
  {
    var id := w.Det(e.c).bump.tx.id;
    if e.GiveUp? {
      WritesMoveForward(w.db, id, HashOf(AnyRaw()), 0, MaxRetriesExceeded);
    } else {
      WritesMoveForward(w.db, id, w.Det(e.c).bump.a.Hash(), e.now, InternalError);
    }
  }

  lemma DetMovesForward(w: World, e: Event)
    requires DetEnabled(w, e)
    ensures Forward(w.db.txs, DetStep(w, e).db.txs) && BooksUntouched(w, DetStep(w, e))
  {
    if e.GiveUp? || e.Resubmit? {
      DetWritesForward(w, e);
    } else {
      DetLooksOn(w, e);
    }
  }

  lemma DetLooksOn(w: World, e: Event)
    requires DetEnabled(w, e) && !e.GiveUp? && !e.Resubmit?
    ensures DetStep(w, e).db.txs == w.db.txs && BooksUntouched(w, DetStep(w, e))
  {
  }

  lemma PollMovesForward(w: World, e: Event)
    requires PollEnabled(w, e)
    ensures Forward(w.db.txs, PollStep(w, e).db.txs)
    ensures BooksUntouched(w, PollStep(w, e))
  {
    if e.Mark? {
      MarkForward(w.db, e.id, e.status, w.Poll(e.c).rows[e.id].finalHash.value, e.r);
    } else if e.Revert? {
      WritesMoveForward(w.db, e.id, HashOf(AnyRaw()), 0, InternalError);
    }
  }

  lemma MarkForward(db: Db, id: TxId, s: TxStatus, h: TxHash, r: Receipt)
    requires s != Queued
    ensures Forward(db.txs, db.MarkWithReceipt(id, s, h, r).txs)
  {
    if id in db.txs { PutForward(db, id, SetReceipt(db.txs[id], s, h, r)); }
  }

  lemma PairCarry(p: Pair, w: World, w': World)
    requires PairOk(p, w) && Forward(w.db.txs, w'.db.txs)
    requires p in w'.start && w'.start[p] == w.start[p] && w'.ClaimsOf(p) == w.ClaimsOf(p)
    requires p in w'.db.cursors && w'.db.cursors[p] == w.db.cursors[p]
    requires p in w'.pipes && (w'.pipes[p].Claimed? ==> w'.pipes[p] == w.pipes[p])
    ensures PairOk(p, w')
  {
    BooksCarry(p, w.start[p], w.db.cursors[p], w.ClaimsOf(p), w.db.txs, w'.db.txs);
  }

  lemma OthersKeepBooks(pairs: set<Pair>, w: World, w': World)
    requires BooksOk(pairs, w) && w.phase.Running? && Forward(w.db.txs, w'.db.txs)
    requires BooksUntouched(w, w')
    ensures BooksOk(pairs, w')
  {
    forall p | p in pairs ensures PairOk(p, w') {
      PairCarry(p, w, w');
    }
  }

  /** Claim and Assign leave the other pairs' books alone. */
  ghost predicate OnlyPair(w: World, w': World, p: Pair) {
    && w'.phase == w.phase && w'.start == w.start && w'.pipes.Keys == w.pipes.Keys
    && (forall q :: q in w.db.cursors && q != p ==> q in w'.db.cursors && w'.db.cursors[q] == w.db.cursors[q])
    && (forall q :: q != p ==> w'.ClaimsOf(q) == w.ClaimsOf(q))
    && (forall q :: q in w.pipes && q != p ==> w'.pipes[q] == w.pipes[q])
  }

  /** The books of pair p are as they were, or one line longer; everybody else's are as they were. */
  lemma BooksOfOne(pairs: set<Pair>, w: World, w': World, p: Pair)
    requires BooksOk(pairs, w) && w.phase.Running? && Forward(w.db.txs, w'.db.txs) && p in pairs
    requires OnlyPair(w, w', p) && PairOk(p, w')
    ensures BooksOk(pairs, w')
  {
    forall q | q in pairs && q != p ensures PairOk(q, w') {
      assert PairOk(q, w);
      PairCarry(q, w, w');
    }
  }

  lemma ClaimedPairOk(w: World, e: Event)
    requires e.Claim? && PipeEnabled(w, e) && e.o.Done? && PairOk(e.p, w) && w.db.txs[e.id].id == e.id
    ensures PairOk(e.p, PipeStep(w, e))
  {
    BooksClaim(e.p, w.start[e.p], w.db.cursors[e.p], w.ClaimsOf(e.p), w.db, e.id);
  }

  lemma ClaimIsLocal(w: World, p: Pair, id: TxId, o: Outcome)
    requires p in w.pipes && w.db.ClaimsNext(p, id)
    ensures OnlyPair(w, AfterClaim(w, p, id, o), p)
    ensures !o.Done? ==> BooksUntouched(w, AfterClaim(w, p, id, o))
  {
  }

  lemma AssignIsLocal(w: World, p: Pair, o: Outcome)
    requires p in w.pipes && w.pipes[p].Claimed?
    ensures OnlyPair(w, AfterAssign(w, p, o), p)
  {
    var w' := AfterAssign(w, p, o);
    assert w'.claims == w.claims || w'.claims == w.claims[p := w'.claims[p]];
    assert w'.db.cursors == w.db.cursors || w'.db.cursors == w.db.cursors[p := w'.db.cursors[p]];
    OnlyThePair(w, w', p);
  }

  lemma OnlyThePair(w: World, w': World, p: Pair)
    requires w'.phase == w.phase && w'.start == w.start && p in w.pipes
    requires p in w'.pipes && w'.pipes == w.pipes[p := w'.pipes[p]]
    requires w'.claims == w.claims || (p in w'.claims && w'.claims == w.claims[p := w'.claims[p]])
    requires w'.db.cursors == w.db.cursors
             || (p in w'.db.cursors && w'.db.cursors == w.db.cursors[p := w'.db.cursors[p]])
    ensures OnlyPair(w, w', p)
  {
  }

  lemma LostAssign(w: World, p: Pair)
    requires p in w.pipes && w.pipes[p].Claimed?
    ensures BooksUntouched(w, AfterAssign(w, p, Lost))
  {
  }

  lemma ClaimKeepsBooks(pairs: set<Pair>, w: World, e: Event)
    requires BooksOk(pairs, w) && w.phase.Running? && e.Claim? && PipeEnabled(w, e)
    requires w.db.txs[e.id].id == e.id
    ensures BooksOk(pairs, PipeStep(w, e))
  {
    var w' := PipeStep(w, e);
    ClaimForward(w, e);
    ClaimIsLocal(w, e.p, e.id, e.o);
    if e.o.Done? {
      ClaimedPairOk(w, e);
      BooksOfOne(pairs, w, w', e.p);
    } else {
      OthersKeepBooks(pairs, w, w');
    }
  }

  lemma AssignedPairOk(w: World, e: Event)
    requires e.Assign? && PipeEnabled(w, e) && !e.o.Lost? && PairOk(e.p, w)
    ensures PairOk(e.p, PipeStep(w, e))
  {
    AssignForward(w, e);
    BooksAssign(e.p, w.start[e.p], w.db.cursors[e.p], w.ClaimsOf(e.p), w.db.txs, PipeStep(w, e).db.txs);
  }

  lemma AssignKeepsBooks(pairs: set<Pair>, w: World, e: Event)
    requires BooksOk(pairs, w) && w.phase.Running? && e.Assign? && PipeEnabled(w, e)
    ensures BooksOk(pairs, PipeStep(w, e))
  {
    var w' := PipeStep(w, e);
    AssignForward(w, e);
    AssignIsLocal(w, e.p, e.o);
    if e.o.Lost? {
      LostAssign(w, e.p);
      OthersKeepBooks(pairs, w, w');
    } else {
      AssignedPairOk(w, e);
      BooksOfOne(pairs, w, w', e.p);
    }
  }

  lemma StepKeepsBooks(pairs: set<Pair>, w: World, e: Event)
    requires BooksOk(pairs, w) && Enabled(pairs, w, e)
    requires forall id :: id in w.db.txs ==> w.db.txs[id].id == id
    ensures BooksOk(pairs, Step(pairs, w, e))
  {
    if BootEnabled(pairs, w, e) {
      BootKeepsBooks(pairs, w, e);
    } else if PipeEnabled(w, e) {
      if e.Claim? {
        ClaimKeepsBooks(pairs, w, e);
      } else if e.Assign? {
        AssignKeepsBooks(pairs, w, e);
      } else {
        PipeMovesForward(w, e);
        RestKeepsClaims(w, e);
        OthersKeepBooks(pairs, w, PipeStep(w, e));
      }
    } else if DetEnabled(w, e) {
      DetMovesForward(w, e);
      OthersKeepBooks(pairs, w, DetStep(w, e));
    } else {
      PollMovesForward(w, e);
      OthersKeepBooks(pairs, w, PollStep(w, e));
    }
  }

  lemma RestKeepsClaims(w: World, e: Event)
    requires PipeEnabled(w, e) && !e.Claim? && !e.Assign?
    ensures BooksUntouched(w, PipeStep(w, e))
  {
    if e.StoreFirst? {
      StoreKeepsClaims(w, e.p, e.o);
    } else if e.Submit? {
      SubmitKeepsClaims(w, e.p, e.o, e.now);
    } else if e.Fail? {
      FailKeepsClaims(w, e.p, e.o);
    }
  }

  lemma StoreKeepsClaims(w: World, p: Pair, o: Outcome)
    requires p in w.pipes && w.pipes[p].Signed?
    ensures BooksUntouched(w, AfterStoreFirst(w, p, o))
  {
  }

  lemma SubmitKeepsClaims(w: World, p: Pair, o: Outcome, now: nat)
    requires p in w.pipes && w.pipes[p].Accepted?
    ensures BooksUntouched(w, AfterSubmit(w, p, o, now))
  {
  }

  lemma FailKeepsClaims(w: World, p: Pair, o: Outcome)
    requires p in w.pipes && w.pipes[p].Failing?
    ensures BooksUntouched(w, AfterFail(w, p, o))
  {
  }

  lemma BootKeepsBooks(pairs: set<Pair>, w: World, e: Event)
    requires BooksOk(pairs, w) && BootEnabled(pairs, w, e)
    ensures BooksOk(pairs, BootStep(pairs, w, e))
  {
    if e.Start? {
      forall p | p in pairs ensures PairOk(p, BootStep(pairs, w, e)) {
        assert Interval(w.start[p], w.db.cursors[p]) == [];
      }
    }
  }

  lemma {:induction false} HistoryKeepsBooks(pairs: set<Pair>, ws: seq<World>, es: seq<Event>, i: nat)
    requires IsHistory(pairs, ws, es) && i < |ws|
    ensures BooksOk(pairs, ws[i])
  {
    if i > 0 {
      HistoryKeepsBooks(pairs, ws, es, i - 1);
      HistoryKeepsInv(pairs, ws, es, i - 1);
      StepKeepsBooks(pairs, ws[i - 1], es[i - 1]);
    }
  }

  lemma {:induction false} GivenCounts(s: seq<ClaimRecord>, k: nat) returns (i: nat)
    requires k < |Given(s)|
    ensures i < |s| && s[i].nonce == Some(Given(s)[k])
  {
    var init := s[..|s| - 1];
    if k < |Given(init)| {
      i := GivenCounts(init, k);
    } else {
      i := |s| - 1;
    }
  }

  /** While the process runs, the nonces a pair has given out are exactly the interval from the count
      it was aligned to up to its cursor, one claim each, in claim order, and no row twice. */
  lemma NonceConservation(pairs: set<Pair>, ws: seq<World>, es: seq<Event>, n: nat, p: Pair)
    requires IsHistory(pairs, ws, es) && n < |ws| && ws[n].phase.Running? && p in pairs
    ensures p in ws[n].start && p in ws[n].db.cursors && ws[n].start[p] <= ws[n].db.cursors[p]
    ensures Given(ws[n].ClaimsOf(p)) == Interval(ws[n].start[p], ws[n].db.cursors[p])
    ensures forall i, j :: 0 <= i < j < |ws[n].ClaimsOf(p)| ==> ws[n].ClaimsOf(p)[i].id != ws[n].ClaimsOf(p)[j].id
  {
    HistoryKeepsBooks(pairs, ws, es, n);
    assert PairOk(p, ws[n]);
  }

  /** Two rows that waited together are claimed in the order they were created. */
  lemma ClaimsFollowCreation(pairs: set<Pair>, ws: seq<World>, es: seq<Event>, n: nat, p: Pair, i: nat, j: nat)
    requires IsHistory(pairs, ws, es) && n < |ws| && ws[n].phase.Running? && p in pairs
    requires i < j < |ws[n].ClaimsOf(p)| && ws[n].ClaimsOf(p)[j].id in ws[n].ClaimsOf(p)[i].waiting
    ensures var (s, txs) := (ws[n].ClaimsOf(p), ws[n].db.txs);
            && s[i].id in txs && s[j].id in txs
            && txs[s[i].id].createdAt <= txs[s[j].id].createdAt
  {
    HistoryKeepsBooks(pairs, ws, es, n);
    assert PairOk(p, ws[n]);
  }
}
