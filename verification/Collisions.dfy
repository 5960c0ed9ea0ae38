/** Why the count read at startup has to be trusted: the cursor is set to it even when the database is
    ahead, so a count that an accepted send has already reached leads to a second transaction with
    that send's nonce. */
module Collisions {
  import opened Domain
  import opened Fees
  import opened Tables
  import opened Repository
  import opened Protocol
  import opened Invariants

  const ANY_FEES := ChainFees(false, FeeBounds(None, None, None, None))
  const ANY_QUOTE := Quote(None, None, Some(1))

  // ---- runs ----

  lemma RunsConcatenate(pairs: set<Pair>, ws: seq<World>, es: seq<Event>, vs: seq<World>, fs: seq<Event>)
    requires IsRun(pairs, ws, es) && IsRun(pairs, vs, fs) && ws[|es|] == vs[0]
    ensures IsRun(pairs, ws + vs[1..], es + fs)
    ensures (ws + vs[1..])[|es + fs|] == vs[|fs|] && (ws + vs[1..])[0] == ws[0]
  {
    var (us, gs) := (ws + vs[1..], es + fs);
    forall i | 0 <= i < |gs| ensures Enabled(pairs, us[i], gs[i]) && us[i + 1] == Step(pairs, us[i], gs[i]) {
      if i < |es| {
        assert us[i] == ws[i] && us[i + 1] == ws[i + 1] && gs[i] == es[i];
      } else {
        assert us[i] == vs[i - |es|] && us[i + 1] == vs[i + 1 - |es|] && gs[i] == fs[i - |es|];
      }
    }
  }

  /** A run from w to w' in which every count that is read is the one `counts` gives. */
  ghost predicate Leads(pairs: set<Pair>, w: World, w': World, counts: Pair -> nat, ws: seq<World>, es: seq<Event>) {
    && IsRun(pairs, ws, es) && ws[0] == w && ws[|es|] == w'
    && forall i :: 0 <= i < |es| && es[i].Align? ==> es[i] == Align(es[i].p, counts(es[i].p), Done)
  }

  lemma LeadsNowhere(pairs: set<Pair>, w: World, counts: Pair -> nat)
    ensures Leads(pairs, w, w, counts, [w], [])
  {
  }

  lemma LeadsByStep(pairs: set<Pair>, w: World, e: Event, counts: Pair -> nat)
    requires Enabled(pairs, w, e) && (e.Align? ==> e == Align(e.p, counts(e.p), Done))
    ensures Leads(pairs, w, Step(pairs, w, e), counts, [w, Step(pairs, w, e)], [e])
  {
  }

  lemma LeadsOn(pairs: set<Pair>, w: World, w1: World, w2: World, counts: Pair -> nat,
                ws: seq<World>, es: seq<Event>, vs: seq<World>, fs: seq<Event>)
    requires Leads(pairs, w, w1, counts, ws, es) && Leads(pairs, w1, w2, counts, vs, fs)
    ensures Leads(pairs, w, w2, counts, ws + vs[1..], es + fs)
  {
    RunsConcatenate(pairs, ws, es, vs, fs);
    forall i | 0 <= i < |es + fs| && (es + fs)[i].Align?
      ensures (es + fs)[i] == Align((es + fs)[i].p, counts((es + fs)[i].p), Done)
    {
      if i >= |es| { assert (es + fs)[i] == fs[i - |es|]; }
    }
  }

  lemma LeadsFurther(pairs: set<Pair>, w: World, v: World, e: Event, counts: Pair -> nat,
                     ws: seq<World>, es: seq<Event>)
    requires Leads(pairs, w, v, counts, ws, es)
    requires Enabled(pairs, v, e) && (e.Align? ==> e == Align(e.p, counts(e.p), Done))
    ensures Leads(pairs, w, Step(pairs, v, e), counts, ws + [Step(pairs, v, e)], es + [e])
  {
  }

  lemma PipeFurther(pairs: set<Pair>, w: World, v: World, e: Event, v': World, counts: Pair -> nat,
                    ws: seq<World>, es: seq<Event>)
    requires Leads(pairs, w, v, counts, ws, es)
    requires v.phase.Running? && PipeEnabled(v, e) && v' == PipeStep(v, e)
    ensures Leads(pairs, w, v', counts, ws + [v'], es + [e])
  {
    LeadsFurther(pairs, w, v, e, counts, ws, es);
  }

  // ---- a restart ----

  /** The tables while the cursors are being aligned: rows reset, the pairs in `done` at their counts. */
  ghost predicate Realigned(db: Db, d: Db, done: set<Pair>, counts: Pair -> nat) {
    && d.txs == db.ResetPending().txs && d.attempts == db.attempts
    && forall p :: p in done ==> p in d.cursors && d.cursors[p] == counts(p)
  }

  lemma AlignOne(pairs: set<Pair>, w: World, db: Db, done: set<Pair>, p: Pair, counts: Pair -> nat)
    requires w.phase == Aligning(done) && p in pairs && p !in done && Realigned(db, w.db, done, counts)
    ensures var e := Align(p, counts(p), Done);
            && Enabled(pairs, w, e)
            && var w' := Step(pairs, w, e);
            && w'.phase == Aligning(done + {p}) && w'.sent == w.sent && w'.dets == w.dets
            && Realigned(db, w'.db, done + {p}, counts)
  {
  }

  lemma {:induction false} AlignAll(pairs: set<Pair>, w: World, db: Db, done: set<Pair>, counts: Pair -> nat)
    returns (w': World, ws: seq<World>, es: seq<Event>)
    requires w.phase == Aligning(done) && done <= pairs && Realigned(db, w.db, done, counts)
    ensures Leads(pairs, w, w', counts, ws, es)
    ensures w'.phase == Aligning(pairs) && w'.sent == w.sent && w'.dets == w.dets
    ensures Realigned(db, w'.db, pairs, counts)
    decreases pairs - done
  {
    if p: Pair :| p in pairs && p !in done {
      var e := Align(p, counts(p), Done);
      AlignOne(pairs, w, db, done, p, counts);
      LeadsByStep(pairs, w, e, counts);
      var v := Step(pairs, w, e);
      var vs, fs;
      w', vs, fs := AlignAll(pairs, v, db, done + {p}, counts);
      LeadsOn(pairs, w, v, w', counts, [w, v], [e], vs, fs);
      ws, es := [w, v] + vs[1..], [e] + fs;
    } else {
      assert done == pairs;
      LeadsNowhere(pairs, w, counts);
      w', ws, es := w, [w], [];
    }
  }

  /** Crash, reset, align every pair to the count it reads, start. */
  lemma RestartAt(pairs: set<Pair>, w: World, counts: Pair -> nat)
    returns (w': World, ws: seq<World>, es: seq<Event>)
    ensures Leads(pairs, w, w', counts, ws, es)
    ensures w'.phase.Running? && w'.pipes == (map p | p in pairs :: Idle) && w'.sent == w.sent
    ensures Realigned(w.db, w'.db, pairs, counts)
    ensures w'.dets == map[]
  {
    LeadsNowhere(pairs, w, counts);
    var w1 := Step(pairs, w, Crash);
    LeadsFurther(pairs, w, w, Crash, counts, [w], []);
    var w2 := Step(pairs, w1, Reset(Done));
    LeadsFurther(pairs, w, w1, Reset(Done), counts, [w] + [w1], [] + [Crash]);
    ws, es := [w] + [w1] + [w2], [] + [Crash] + [Reset(Done)];
    var w3, vs, fs := AlignAll(pairs, w2, w.db, {}, counts);
    LeadsOn(pairs, w, w2, w3, counts, ws, es, vs, fs);
    LeadsFurther(pairs, w, w3, Start, counts, ws + vs[1..], es + fs);
    w' := Step(pairs, w3, Start);
    ws, es := ws + vs[1..] + [w'], es + fs + [Start];
  }

  // ---- the pipeline's queue is emptied ----

  /** The pipeline of p is idle in a running process, its cursor is at n. */
  predicate IdleAt(w: World, p: Pair, n: nat) {
    w.phase.Running? && p in w.pipes && w.pipes[p].Idle? && p in w.db.cursors && w.db.cursors[p] == n
  }

  predicate QueueEmpty(db: Db, p: Pair) {
    forall id :: id in db.txs ==> !db.Waiting(p, id)
  }

  /** No row appears or disappears, and none changes its key; attempts stay. */
  predicate SameKeys(db: Db, d: Db) {
    && d.txs.Keys == db.txs.Keys && d.attempts == db.attempts
    && forall id :: id in db.txs ==> d.txs[id].key == db.txs[id].key
  }

  lemma {:induction false} Oldest(db: Db, p: Pair, ids: set<TxId>) returns (id: TxId)
    requires ids != {} && ids <= db.txs.Keys && forall j :: j in ids ==> db.Waiting(p, j)
    ensures id in ids && forall j :: j in ids ==> db.txs[id].createdAt <= db.txs[j].createdAt
  {
    id :| id in ids;
    var rest := ids - {id};
    if rest != {} {
      var first := id;
      var j := Oldest(db, p, rest);
      if db.txs[j].createdAt < db.txs[first].createdAt { id := j; }
    }
    forall j | j in ids ensures db.txs[id].createdAt <= db.txs[j].createdAt {
      assert j in rest || ids == rest + {j};
    }
  }

  /** A claim whose nonce assignment fails gives the row up and leaves the cursor where it was. */
  lemma DropClaimed(pairs: set<Pair>, w: World, p: Pair, id: TxId, n: nat, counts: Pair -> nat)
    returns (w': World, ws: seq<World>, es: seq<Event>)
    requires IdleAt(w, p, n) && w.db.ClaimsNext(p, id) && w.db.txs[id].id == id
    ensures Leads(pairs, w, w', counts, ws, es)
    ensures IdleAt(w', p, n) && w'.sent == w.sent
    ensures w'.db == w.db.(txs := w.db.txs[id := SetFailed(w.db.txs[id].(status := Pending), InternalError)])
  {
    var row := w.db.txs[id].(status := Pending);
    var w1 := AfterClaim(w, p, id, Done);
    ClaimTakes(w, p, id);
    var w2 := AfterAssign(w1, p, Lost);
    AssignFails(w1, p, row);
    w' := AfterFail(w2, p, Done);
    FailGivesUp(w2, p, row);
    LeadsNowhere(pairs, w, counts);
    PipeFurther(pairs, w, w, Claim(p, id, Done), w1, counts, [w], []);
    PipeFurther(pairs, w, w1, Assign(p, Lost), w2, counts, [w] + [w1], [] + [Claim(p, id, Done)]);
    ws, es := [w] + [w1] + [w2], [] + [Claim(p, id, Done)] + [Assign(p, Lost)];
    PipeFurther(pairs, w, w2, Fail(p, Done), w', counts, ws, es);
    ws, es := ws + [w'], es + [Fail(p, Done)];
  }

  lemma FailGivesUp(w: World, p: Pair, row: Transaction)
    requires p in w.pipes && w.pipes[p] == Failing(row, InternalError) && row.id in w.db.txs
    ensures var w' := AfterFail(w, p, Done);
            && w' == w.(db := w'.db, pipes := w.pipes[p := Idle])
            && w'.db == w.db.(txs := w.db.txs[row.id := SetFailed(w.db.txs[row.id], InternalError)])
  {
  }

  lemma AssignFails(w: World, p: Pair, row: Transaction)
    requires p in w.pipes && w.pipes[p] == Claimed(row)
    ensures AfterAssign(w, p, Lost) == w.(pipes := w.pipes[p := Failing(row, InternalError)])
  {
  }

  lemma ClaimTakes(w: World, p: Pair, id: TxId)
    requires p in w.pipes && w.db.ClaimsNext(p, id)
    ensures var (w', row) := (AfterClaim(w, p, id, Done), w.db.txs[id].(status := Pending));
            && w'.phase == w.phase && w'.sent == w.sent && w'.pipes == w.pipes[p := Claimed(row)]
            && w'.db == w.db.(txs := w.db.txs[id := row])
  {
  }

  /** Whatever waits for the pair is claimed and given up, one row after the other. */
  lemma {:induction false} Drain(pairs: set<Pair>, w: World, p: Pair, n: nat, counts: Pair -> nat)
    returns (w': World, ws: seq<World>, es: seq<Event>)
    requires IdleAt(w, p, n) && forall id :: id in w.db.txs ==> w.db.txs[id].id == id
    ensures Leads(pairs, w, w', counts, ws, es)
    ensures IdleAt(w', p, n) && w'.sent == w.sent && QueueEmpty(w'.db, p) && SameKeys(w.db, w'.db)
    decreases w.db.Queue(p)
  {
    if w.db.Queue(p) == {} {
      LeadsNowhere(pairs, w, counts);
      w', ws, es := w, [w], [];
      assert forall id :: id in w.db.txs && w.db.Waiting(p, id) ==> id in w.db.Queue(p);
    } else {
      var id := Oldest(w.db, p, w.db.Queue(p));
      assert forall j :: j in w.db.txs && w.db.Waiting(p, j) ==> j in w.db.Queue(p);
      var v, us, gs := DropClaimed(pairs, w, p, id, n, counts);
      assert v.db.Queue(p) == w.db.Queue(p) - {id};
      var vs, fs;
      w', vs, fs := Drain(pairs, v, p, n, counts);
      LeadsOn(pairs, w, v, w', counts, us, gs, vs, fs);
      ws, es := us + vs[1..], gs + fs;
    }
  }

  // ---- new rows are sent ----

  lemma NewRowIsNext(db: Db, t: Transaction)
    requires NewRow(t) && db.CanCreate(t) && QueueEmpty(db, t.pair)
    ensures db.CreateTransaction(t).ClaimsNext(t.pair, t.id)
  {
  }

  lemma AssignGives(w: World, p: Pair, row: Transaction, n: nat)
    requires p in w.pipes && w.pipes[p] == Claimed(row) && p in w.db.cursors && w.db.cursors[p] == n
    requires row.id in w.db.txs
    ensures var w' := AfterAssign(w, p, Done);
            && w'.phase == w.phase && w'.sent == w.sent && w'.dets == w.dets
            && w'.pipes == w.pipes[p := Assigned(row, n)]
            && w'.db == w.db.(cursors := w.db.cursors[p := n + 1],
                              txs := w.db.txs[row.id := w.db.txs[row.id].(nonce := Some(n))])
  {
  }

  /** A row that arrives at an idle pipeline with an empty queue is claimed and gets the cursor. */
  lemma NewRowIsAssigned(pairs: set<Pair>, w: World, t: Transaction, n: nat, counts: Pair -> nat)
    returns (w': World, ws: seq<World>, es: seq<Event>)
    requires IdleAt(w, t.pair, n) && QueueEmpty(w.db, t.pair) && NewRow(t) && w.db.CanCreate(t)
    ensures Leads(pairs, w, w', counts, ws, es)
    ensures w'.phase.Running? && w'.sent == w.sent && w'.dets == w.dets
    ensures w'.pipes == w.pipes[t.pair := Assigned(t.(status := Pending), n)]
    ensures w'.db == w.db.(cursors := w.db.cursors[t.pair := n + 1],
                           txs := w.db.txs[t.id := t.(status := Pending, nonce := Some(n))])
  {
    var (p, row) := (t.pair, t.(status := Pending));
    var w1 := w.(db := w.db.CreateTransaction(t));
    NewRowIsNext(w.db, t);
    var w2 := AfterClaim(w1, p, t.id, Done);
    ClaimTakes(w1, p, t.id);
    w' := AfterAssign(w2, p, Done);
    AssignGives(w2, p, row, n);
    LeadsNowhere(pairs, w, counts);
    PipeFurther(pairs, w, w, Create(t), w1, counts, [w], []);
    PipeFurther(pairs, w, w1, Claim(p, t.id, Done), w2, counts, [w] + [w1], [] + [Create(t)]);
    ws, es := [w] + [w1] + [w2], [] + [Create(t)] + [Claim(p, t.id, Done)];
    PipeFurther(pairs, w, w2, Assign(p, Done), w', counts, ws, es);
    ws, es := ws + [w'], es + [Assign(p, Done)];
  }

  lemma SignAny(w: World, p: Pair, tx: Transaction, n: nat) returns (a: Attempt)
    requires p in w.pipes && w.pipes[p] == Assigned(tx, n)
    ensures PipeEnabled(w, Sign(p, ANY_FEES, ANY_QUOTE, 21000, 0))
    ensures PipeStep(w, Sign(p, ANY_FEES, ANY_QUOTE, 21000, 0)) == w.At(p, Signed(tx, a))
    ensures a.number == 1 && a.raw.nonce == n && a.raw.pair == tx.pair
  {
    assert Estimate(ANY_FEES, ANY_QUOTE, tx.priority, 21000).Some?;
    a := PipeStep(w, Sign(p, ANY_FEES, ANY_QUOTE, 21000, 0)).pipes[p].a;
  }

  lemma StoreTakes(w: World, p: Pair, tx: Transaction, a: Attempt)
    requires p in w.pipes && w.pipes[p] == Signed(tx, a) && tx.id in w.db.txs && w.db.AttemptsOf(tx.id) == []
    ensures AfterStoreFirst(w, p, Done)
            == w.(db := w.db.(attempts := w.db.attempts[tx.id := [a]]), pipes := w.pipes[p := Stored(tx, a, 0)])
  {
    assert InsertAttempt([], a) == [a];
  }

  lemma SendTakes(w: World, p: Pair, tx: Transaction, a: Attempt)
    requires p in w.pipes && w.pipes[p] == Stored(tx, a, 0)
    ensures AfterSend(w, p, true)
            == w.(sent := w.sent + {Delivery(tx.id, a.raw, true)}, pipes := w.pipes[p := Accepted(tx, a)])
  {
  }

  /** An assigned row without attempts is signed, stored and sent. */
  lemma AssignedRowIsSent(pairs: set<Pair>, w: World, p: Pair, tx: Transaction, n: nat, counts: Pair -> nat)
    returns (w': World, ws: seq<World>, es: seq<Event>, a: Attempt)
    requires w.phase.Running? && p in w.pipes && w.pipes[p] == Assigned(tx, n)
    requires tx.id in w.db.txs && w.db.AttemptsOf(tx.id) == []
    ensures Leads(pairs, w, w', counts, ws, es)
    ensures w'.phase.Running? && w'.sent == w.sent + {Delivery(tx.id, a.raw, true)} && w'.dets == w.dets
    ensures a.number == 1 && a.raw.nonce == n && a.raw.pair == tx.pair
    ensures w'.pipes == w.pipes[p := Accepted(tx, a)]
    ensures w'.db == w.db.(attempts := w.db.attempts[tx.id := [a]])
  {
    var sign := Sign(p, ANY_FEES, ANY_QUOTE, 21000, 0);
    a := SignAny(w, p, tx, n);
    var w1 := w.At(p, Signed(tx, a));
    var w2 := AfterStoreFirst(w1, p, Done);
    StoreTakes(w1, p, tx, a);
    w' := AfterSend(w2, p, true);
    SendTakes(w2, p, tx, a);
    LeadsNowhere(pairs, w, counts);
    PipeFurther(pairs, w, w, sign, w1, counts, [w], []);
    PipeFurther(pairs, w, w1, StoreFirst(p, Done), w2, counts, [w] + [w1], [] + [sign]);
    ws, es := [w] + [w1] + [w2], [] + [sign] + [StoreFirst(p, Done)];
    PipeFurther(pairs, w, w2, Send(p, true), w', counts, ws, es);
    ws, es := ws + [w'], es + [Send(p, true)];
  }

  lemma SubmitTakes(w: World, p: Pair, tx: Transaction, a: Attempt)
    requires p in w.pipes && w.pipes[p] == Accepted(tx, a) && tx.id in w.db.txs
    ensures var w' := AfterSubmit(w, p, Done, 0);
            && w' == w.(db := w'.db, pipes := w.pipes[p := Idle], submitted := w'.submitted)
            && w'.db == w.db.(txs := w.db.txs[tx.id := SetSubmitted(w.db.txs[tx.id], a.Hash(), 0)])
  {
  }

  /** What sending one new row changes. */
  ghost predicate SentOne(w: World, w': World, t: Transaction, n: nat, raw: SignedTx) {
    && IdleAt(w', t.pair, n + 1) && QueueEmpty(w'.db, t.pair)
    && w'.sent == w.sent + {Delivery(t.id, raw, true)} && raw.nonce == n && raw.pair == t.pair
    && w'.dets == w.dets && |w'.db.AttemptsOf(t.id)| == 1
    && w'.db.txs.Keys == w.db.txs.Keys + {t.id}
    && (forall id :: id in w.db.txs ==> w'.db.txs[id] == w.db.txs[id])
    && w'.db.txs[t.id] == SetSubmitted(t.(nonce := Some(n)), HashOf(raw), 0)
    && forall id :: id != t.id ==> w'.db.AttemptsOf(id) == w.db.AttemptsOf(id)
  }

  /** The row is claimed, assigned, signed, stored, sent and submitted. */
  lemma SendOne(pairs: set<Pair>, w: World, t: Transaction, n: nat, counts: Pair -> nat)
    returns (w': World, ws: seq<World>, es: seq<Event>, raw: SignedTx)
    requires IdleAt(w, t.pair, n) && QueueEmpty(w.db, t.pair)
    requires NewRow(t) && w.db.CanCreate(t) && w.db.AttemptsOf(t.id) == []
    ensures Leads(pairs, w, w', counts, ws, es) && SentOne(w, w', t, n, raw)
  {
    var v, vs, fs := NewRowIsAssigned(pairs, w, t, n, counts);
    var u, us, gs, a := AssignedRowIsSent(pairs, v, t.pair, t.(status := Pending), n, counts);
    LeadsOn(pairs, w, v, u, counts, vs, fs, us, gs);
    w', raw := AfterSubmit(u, t.pair, Done, 0), a.raw;
    SubmitTakes(u, t.pair, t.(status := Pending), a);
    PipeFurther(pairs, w, u, Submit(t.pair, Done, 0), w', counts, vs + us[1..], fs + gs);
    ws, es := vs + us[1..] + [w'], fs + gs + [Submit(t.pair, Done, 0)];
  }

  /** New rows of one pair that may be created one after the other. */
  ghost predicate Fresh(db: Db, p: Pair, rows: seq<Transaction>) {
    && (forall i :: 0 <= i < |rows| ==>
          NewRow(rows[i]) && rows[i].pair == p && db.CanCreate(rows[i]) && db.AttemptsOf(rows[i].id) == [])
    && forall i, j :: 0 <= i < j < |rows| ==> rows[i].id != rows[j].id && rows[i].key != rows[j].key
  }

  lemma FreshRest(w: World, w': World, p: Pair, rows: seq<Transaction>, n: nat, raw: SignedTx)
    requires rows != [] && Fresh(w.db, p, rows) && SentOne(w, w', rows[0], n, raw)
    ensures Fresh(w'.db, p, rows[1..])
  {
    forall i | 0 <= i < |rows[1..]|
      ensures w'.db.CanCreate(rows[1..][i]) && w'.db.AttemptsOf(rows[1..][i].id) == []
    {
      assert rows[1..][i] == rows[i + 1];
    }
  }

  /** Row after row is sent; the last one gets the nonce n + |rows| - 1. */
  lemma {:induction false} SendMany(pairs: set<Pair>, w: World, p: Pair, rows: seq<Transaction>, n: nat,
                                    counts: Pair -> nat)
    returns (w': World, ws: seq<World>, es: seq<Event>, f: Delivery)
    requires rows != [] && IdleAt(w, p, n) && QueueEmpty(w.db, p) && Fresh(w.db, p, rows)
    ensures Leads(pairs, w, w', counts, ws, es)
    ensures w.sent <= w'.sent && f in w'.sent && f.accepted
    ensures f.id == rows[|rows| - 1].id && f.raw.pair == p && f.raw.nonce == n + |rows| - 1
    decreases |rows|
  {
    var raw;
    w', ws, es, raw := SendOne(pairs, w, rows[0], n, counts);
    if |rows| == 1 {
      f := Delivery(rows[0].id, raw, true);
    } else {
      var v, vs, fs := w', ws, es;
      FreshRest(w, v, p, rows, n, raw);
      var us, gs;
      w', us, gs, f := SendMany(pairs, v, p, rows[1..], n + 1, counts);
      LeadsOn(pairs, w, v, w', counts, vs, fs, us, gs);
      ws, es := vs + us[1..], fs + gs;
    }
  }

  // ---- every untrusted count collides ----

  lemma FreshAfterRestart(db: Db, d: Db, p: Pair, rows: seq<Transaction>)
    requires Fresh(db, p, rows) && d.txs.Keys == db.txs.Keys && d.attempts == db.attempts
    requires forall id :: id in db.txs ==> d.txs[id].key == db.txs[id].key
    ensures Fresh(d, p, rows)
  {
  }

  lemma RestartAndDrain(pairs: set<Pair>, w: World, p: Pair, counts: Pair -> nat, rows: seq<Transaction>)
    returns (u: World, ws: seq<World>, es: seq<Event>)
    requires RowsOk(w.db, w.submitted) && p in pairs && Fresh(w.db, p, rows)
    ensures Leads(pairs, w, u, counts, ws, es) && u.sent == w.sent
    ensures IdleAt(u, p, counts(p)) && QueueEmpty(u.db, p) && Fresh(u.db, p, rows)
  {
    var v, vs, fs := RestartAt(pairs, w, counts);
    var us, gs;
    u, us, gs := Drain(pairs, v, p, counts(p), counts);
    FreshAfterRestart(w.db, u.db, p, rows);
    LeadsOn(pairs, w, v, u, counts, vs, fs, us, gs);
    ws, es := vs + us[1..], fs + gs;
  }

  /** From any world in which the node has accepted a send, whatever waits in the pair's queue, one
      restart that reads a count not above that send's nonce leads to a second transaction with an
      accepted send of the same nonce. So no weaker condition on the counts than the one under which
      collisions are excluded would do. */
  lemma StaleCountCollides(pairs: set<Pair>, w: World, d: Delivery, counts: Pair -> nat, rows: seq<Transaction>)
    returns (ws: seq<World>, es: seq<Event>, f: Delivery)
    requires Inv(w) && d in w.sent && d.accepted && d.raw.pair in pairs
    requires counts(d.raw.pair) <= d.raw.nonce
    requires |rows| == d.raw.nonce - counts(d.raw.pair) + 1 && Fresh(w.db, d.raw.pair, rows)
    ensures IsRun(pairs, ws, es) && ws[0] == w
    ensures forall i :: 0 <= i < |es| && es[i].Align? ==> es[i] == Align(es[i].p, counts(es[i].p), Done)
    ensures d in ws[|es|].sent && f in ws[|es|].sent && d.accepted && f.accepted
    ensures f.id != d.id && f.raw.pair == d.raw.pair && f.raw.nonce == d.raw.nonce
  {
    var p := d.raw.pair;
    var u;
    u, ws, es := RestartAndDrain(pairs, w, p, counts, rows);
    var x, xs, hs;
    x, xs, hs, f := SendMany(pairs, u, p, rows, counts(p), counts);
    LeadsOn(pairs, w, u, x, counts, ws, es, xs, hs);
    ws, es := ws + xs[1..], es + hs;
    assert d.id in w.db.txs && rows[|rows| - 1].id !in w.db.txs;
  }
}
