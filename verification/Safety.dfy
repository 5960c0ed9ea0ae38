/** Every step keeps the invariant, and what the invariant says about sends. */
module Safety {
  import opened Domain
  import opened Fees
  import opened Tables
  import opened Attempts
  import opened Repository
  import opened Protocol
  import opened Invariants

  // ---- startup ----

  lemma BootKeepsInv(pairs: set<Pair>, w: World, e: Event)
    requires Inv(w) && BootEnabled(pairs, w, e)
    ensures Inv(BootStep(pairs, w, e))
  {
    var w' := BootStep(pairs, w, e);
    SameAttemptsRows(w.db, w'.db, w.submitted);
    forall d | d in w'.sent ensures d.id in w'.db.txs && HasRaw(w'.db.AttemptsOf(d.id), d.raw) {
      assert w'.db.AttemptsOf(d.id) == w.db.AttemptsOf(d.id);
    }
  }

  /** The reset touches PENDING rows only, none of which was ever submitted. */
  lemma SameAttemptsRows(db: Db, db': Db, submitted: set<TxId>)
    requires RowsOk(db, submitted) && db'.attempts == db.attempts
    requires db'.txs == db.txs || db'.txs == db.ResetPending().txs
    ensures RowsOk(db', submitted)
  {
    forall id | id in db'.txs
      ensures db'.txs[id].id == id && RowOk(db'.txs[id], db'.AttemptsOf(id), id in submitted)
    {
      assert RowOk(db.txs[id], db.AttemptsOf(id), id in submitted);
      assert db'.AttemptsOf(id) == db.AttemptsOf(id);
    }
    forall id | id !in db'.txs ensures db'.AttemptsOf(id) == [] {
      assert db'.AttemptsOf(id) == db.AttemptsOf(id);
    }
  }

  // ---- the API ----

  lemma CreateKeepsInv(w: World, t: Transaction)
    requires Inv(w) && w.phase.Running? && PipeEnabled(w, Create(t))
    ensures Inv(PipeStep(w, Create(t)))
  {
    var w' := PipeStep(w, Create(t));
    SameAttemptsAgree(w.db, w'.db);
    CreateKeepsRows(w.db, t, w.submitted);
    forall p | p in w'.pipes ensures StageOk(p, w'.pipes[p], w'.db) {
      assert StageOk(p, w.pipes[p], w.db);
    }
    forall c | c in w'.dets ensures DetOk(c, w'.dets[c], w'.db, w'.submitted) {
      CreateKeepsDet(c, w.dets[c], w.db, t, w.submitted);
    }
    forall c | c in w'.polls ensures PollOk(c, w'.polls[c], w'.db, w'.submitted) {
      CreateKeepsPoll(c, w.polls[c], w.db, t, w.submitted);
    }
  }

  lemma CreateKeepsRows(db: Db, t: Transaction, submitted: set<TxId>)
    requires RowsOk(db, submitted) && NewRow(t) && t.id !in db.txs
    ensures RowsOk(db.CreateTransaction(t), submitted)
  {
    assert db.AttemptsOf(t.id) == [];
    SameAttemptsAgree(db, db.CreateTransaction(t));
  }

  lemma CreateKeepsDet(c: nat, d: Detector, db: Db, t: Transaction, submitted: set<TxId>)
    requires DetOk(c, d, db, submitted) && t.id !in db.txs
    ensures DetOk(c, d, db.CreateTransaction(t), submitted)
  {
    SameAttemptsAgree(db, db.CreateTransaction(t));
    forall j | j in d.rows ensures SeenOk(c, j, d.rows[j], db.CreateTransaction(t), submitted) {
      assert SeenOk(c, j, d.rows[j], db, submitted);
    }
  }

  lemma CreateKeepsPoll(c: nat, l: Poller, db: Db, t: Transaction, submitted: set<TxId>)
    requires PollOk(c, l, db, submitted) && t.id !in db.txs
    ensures PollOk(c, l, db.CreateTransaction(t), submitted)
  {
    SameAttemptsAgree(db, db.CreateTransaction(t));
    forall j | j in l.rows ensures SeenOk(c, j, l.rows[j], db.CreateTransaction(t), submitted) {
      assert SeenOk(c, j, l.rows[j], db, submitted);
    }
  }

  lemma LogKeepsInv(w: World, e: Event)
    requires Inv(w) && w.phase.Running? && e.Log?
    ensures Inv(PipeStep(w, e))
  {
    MemoryChange(w, PipeStep(w, e), None, None, None);
  }

  // ---- the pipeline ----

  lemma HistoryIsIrrelevant(w: World, w': World)
    requires Inv(w) && w' == w.(claims := w'.claims)
    ensures Inv(w')
  {
  }

  /** The pipeline changes the row it holds and moves on to stage g. */
  lemma HoldsRow(w: World, db': Db, g: Stage, p: Pair, id: TxId)
    requires Inv(w) && w.phase.Running? && p in w.pipes
    requires id in w.db.txs && w.db.txs[id].pair == p && id !in w.submitted
    requires OneRow(w.db, db', id, false)
    requires RowOk(db'.txs[id], db'.AttemptsOf(id), false) && StageOk(p, g, db')
    ensures Inv(w.(db := db', pipes := w.pipes[p := g]))
  {
    RowChange(w, w.(db := db', pipes := w.pipes[p := g]), id, Some(p), None);
  }

  lemma ClaimEffect(db: Db, p: Pair, id: TxId, sub: bool)
    requires db.ClaimsNext(p, id) && RowOk(db.txs[id], db.AttemptsOf(id), sub) && db.txs[id].id == id
    ensures var db' := db.Claim(id);
            && OneRow(db, db', id, sub) && RowOk(db'.txs[id], db'.AttemptsOf(id), sub)
            && StageOk(p, Claimed(db'.txs[id]), db')
  {
    RowWrite(db, db.Claim(id), id, db.txs[id].(status := Pending), sub);
  }

  /** A claim that took effect changes the row, the pipeline's stage and the history. */
  lemma ClaimShape(w: World, e: Event)
    requires w.phase.Running? && e.Claim? && PipeEnabled(w, e) && !e.o.Lost?
    ensures var w' := PipeStep(w, e);
            w' == w.(db := w.db.Claim(e.id), pipes := w.pipes[e.p := w'.Pipe(e.p)]).(claims := w'.claims)
  {
    assert w.pipes == w.pipes[e.p := w.pipes[e.p]];
  }

  lemma ClaimTaken(w: World, e: Event)
    requires Inv(w) && w.phase.Running? && e.Claim? && PipeEnabled(w, e) && !e.o.Lost?
    ensures Inv(w.(db := w.db.Claim(e.id), pipes := w.pipes[e.p := PipeStep(w, e).Pipe(e.p)]))
  {
    assert RowOk(w.db.txs[e.id], w.db.AttemptsOf(e.id), e.id in w.submitted);
    ClaimEffect(w.db, e.p, e.id, false);
    HoldsRow(w, w.db.Claim(e.id), PipeStep(w, e).Pipe(e.p), e.p, e.id);
  }

  lemma ClaimKeepsInv(w: World, e: Event)
    requires Inv(w) && w.phase.Running? && e.Claim? && PipeEnabled(w, e)
    ensures Inv(PipeStep(w, e))
  {
    var w' := PipeStep(w, e);
    if e.o.Lost? {
      MemoryChange(w, w', None, None, None);
    } else {
      ClaimTaken(w, e);
      ClaimShape(w, e);
      HistoryIsIrrelevant(w.(db := w.db.Claim(e.id), pipes := w.pipes[e.p := w'.Pipe(e.p)]), w');
    }
  }

  lemma AssignEffect(db: Db, p: Pair, tx: Transaction, sub: bool)
    requires StageOk(p, Claimed(tx), db) && RowOk(db.txs[tx.id], db.AttemptsOf(tx.id), sub) && p in db.cursors
    ensures var db' := db.AssignNonce(tx.id, p);
            && OneRow(db, db', tx.id, sub) && RowOk(db'.txs[tx.id], db'.AttemptsOf(tx.id), sub)
            && StageOk(p, Assigned(tx, db.cursors[p]), db') && StageOk(p, Failing(tx, InternalError), db')
  {
    RowWrite(db, db.AssignNonce(tx.id, p), tx.id, db.txs[tx.id].(nonce := Some(db.cursors[p])), sub);
  }

  lemma AssignTaken(w: World, e: Event)
    requires Inv(w) && w.phase.Running? && e.Assign? && PipeEnabled(w, e) && !e.o.Lost? && e.p in w.db.cursors
    ensures var db' := w.db.AssignNonce(w.pipes[e.p].tx.id, e.p);
            Inv(w.(db := db', pipes := w.pipes[e.p := PipeStep(w, e).Pipe(e.p)]))
  {
    var tx := w.pipes[e.p].tx;
    assert StageOk(e.p, w.pipes[e.p], w.db);
    assert RowOk(w.db.txs[tx.id], w.db.AttemptsOf(tx.id), tx.id in w.submitted);
    AssignEffect(w.db, e.p, tx, false);
    HoldsRow(w, w.db.AssignNonce(tx.id, e.p), PipeStep(w, e).Pipe(e.p), e.p, tx.id);
  }

  lemma AssignKeepsInv(w: World, e: Event)
    requires Inv(w) && w.phase.Running? && e.Assign? && PipeEnabled(w, e)
    ensures Inv(PipeStep(w, e))
  {
    var w' := PipeStep(w, e);
    if e.o.Lost? || e.p !in w.db.cursors {
      assert StageOk(e.p, w.pipes[e.p], w.db);
      StageChange(w, e.p, w'.pipes[e.p]);
    } else {
      AssignTaken(w, e);
      var db' := w.db.AssignNonce(w.pipes[e.p].tx.id, e.p);
      HistoryIsIrrelevant(w.(db := db', pipes := w.pipes[e.p := w'.Pipe(e.p)]), w');
    }
  }

  lemma SignKeepsInv(w: World, e: Event)
    requires Inv(w) && w.phase.Running? && (e.Sign? || e.Refuse?) && PipeEnabled(w, e)
    ensures Inv(PipeStep(w, e))
  {
    var w' := PipeStep(w, e);
    var g := w.pipes[e.p];
    assert StageOk(e.p, g, w.db);
    if e.Sign? {
      EstimateIsValid(e.fees, e.quote, g.tx.priority, e.gasLimit);
      assert Chain(w.db.txs[g.tx.id], [w'.pipes[e.p].a]);
    }
    MemoryChange(w, w', Some(e.p), None, None);
  }

  /** Attempt 1 is stored exactly when the row has none yet. */
  lemma StoreFirstEffect(db: Db, p: Pair, g: Stage)
    requires StageOk(p, g, db) && g.Signed? && RowOk(db.txs[g.tx.id], db.AttemptsOf(g.tx.id), false)
    ensures db.CanStore(g.tx.id, 1) <==> db.AttemptsOf(g.tx.id) == []
    ensures db.CanStore(g.tx.id, 1) ==>
              var db' := db.StoreAttempt(g.tx.id, g.a);
              && OneRow(db, db', g.tx.id, false) && db'.AttemptsOf(g.tx.id) == [g.a]
              && RowOk(db'.txs[g.tx.id], db'.AttemptsOf(g.tx.id), false)
              && StageOk(p, Stored(g.tx, g.a, 0), db')
  {
    ChainIsOrdered(db.txs[g.tx.id], db.AttemptsOf(g.tx.id));
  }

  lemma StoreFirstKeepsInv(w: World, e: Event)
    requires Inv(w) && w.phase.Running? && e.StoreFirst? && PipeEnabled(w, e)
    ensures Inv(PipeStep(w, e))
  {
    var w' := AfterStoreFirst(w, e.p, e.o);
    var g := w.pipes[e.p];
    assert StageOk(e.p, g, w.db);
    assert RowOk(w.db.txs[g.tx.id], w.db.AttemptsOf(g.tx.id), g.tx.id in w.submitted);
    StoreFirstEffect(w.db, e.p, g);
    if w.db.CanStore(g.tx.id, 1) && !e.o.Lost? {
      HoldsRow(w, w.db.StoreAttempt(g.tx.id, g.a), w'.pipes[e.p], e.p, g.tx.id);
    } else {
      StageChange(w, e.p, Idle);
    }
  }

  lemma SendKeepsInv(w: World, e: Event)
    requires Inv(w) && w.phase.Running? && e.Send? && PipeEnabled(w, e)
    ensures Inv(PipeStep(w, e))
  {
    var w' := PipeStep(w, e);
    var g := w.pipes[e.p];
    assert StageOk(e.p, g, w.db);
    assert w.db.AttemptsOf(g.tx.id)[0].raw == g.a.raw;
    MemoryChange(w, w', Some(e.p), None, None);
  }

  lemma SubmitKeepsInv(w: World, e: Event)
    requires Inv(w) && w.phase.Running? && e.Submit? && PipeEnabled(w, e)
    ensures Inv(PipeStep(w, e))
  {
    var w' := PipeStep(w, e);
    var g := w.pipes[e.p];
    assert StageOk(e.p, g, w.db);
    if e.o.Lost? {
      StageChange(w, e.p, Idle);
    } else {
      assert RowOk(w.db.txs[g.tx.id], w.db.AttemptsOf(g.tx.id), g.tx.id in w.submitted);
      SubmitEffect(w.db, e.p, g, e.now);
      RowChange(w, w', g.tx.id, Some(e.p), None);
    }
  }

  lemma SubmitEffect(db: Db, p: Pair, g: Stage, now: nat)
    requires g.Accepted? && StageOk(p, g, db) && RowOk(db.txs[g.tx.id], db.AttemptsOf(g.tx.id), false)
    ensures var db' := db.MarkSubmitted(g.tx.id, g.a.Hash(), now);
            && OneRow(db, db', g.tx.id, false) && db'.AttemptsOf(g.tx.id) == db.AttemptsOf(g.tx.id)
            && RowOk(db'.txs[g.tx.id], db'.AttemptsOf(g.tx.id), true)
  {
    var (t, s) := (db.txs[g.tx.id], db.AttemptsOf(g.tx.id));
    assert s[0].Hash() == g.a.Hash();
    RowWrite(db, db.MarkSubmitted(g.tx.id, g.a.Hash(), now), g.tx.id, SetSubmitted(t, g.a.Hash(), now), false);
  }

  lemma FailKeepsInv(w: World, e: Event)
    requires Inv(w) && w.phase.Running? && e.Fail? && PipeEnabled(w, e)
    ensures Inv(PipeStep(w, e))
  {
    var g := w.pipes[e.p];
    assert StageOk(e.p, g, w.db);
    if e.o.Lost? {
      StageChange(w, e.p, Idle);
    } else {
      var t := w.db.txs[g.tx.id];
      assert RowOk(t, w.db.AttemptsOf(g.tx.id), g.tx.id in w.submitted);
      RowWrite(w.db, w.db.MarkFailed(g.tx.id, g.code), g.tx.id, SetFailed(t, g.code), false);
      HoldsRow(w, w.db.MarkFailed(g.tx.id, g.code), Idle, e.p, g.tx.id);
    }
  }

  lemma PipeKeepsInv(w: World, e: Event)
    requires Inv(w) && w.phase.Running? && PipeEnabled(w, e)
    ensures Inv(PipeStep(w, e))
  {
    match e {
      case Create(t) => CreateKeepsInv(w, t);
      case Log(_, _) => LogKeepsInv(w, e);
      case Claim(_, _, _) => ClaimKeepsInv(w, e);
      case Assign(_, _) => AssignKeepsInv(w, e);
      case Refuse(_, _) => SignKeepsInv(w, e);
      case Sign(_, _, _, _, _) => SignKeepsInv(w, e);
      case StoreFirst(_, _) => StoreFirstKeepsInv(w, e);
      case Send(_, _) => SendKeepsInv(w, e);
      case Submit(_, _, _) => SubmitKeepsInv(w, e);
      case Fail(_, _) => FailKeepsInv(w, e);
    }
  }

  // ---- the stuck detector ----

  lemma ScanKeepsInv(w: World, e: Event)
    requires Inv(w) && w.phase.Running? && DetEnabled(w, e) && e.Scan?
    ensures Inv(DetStep(w, e))
  {
    var w' := DetStep(w, e);
    var d := w'.Det(e.c);
    forall id | id in d.rows ensures SeenOk(e.c, id, d.rows[id], w.db, w.submitted) {
      assert RowOk(w.db.txs[id], w.db.AttemptsOf(id), id in w.submitted);
    }
    MemoryChange(w, w', None, Some(e.c), None);
  }

  lemma LookKeepsInv(w: World, e: Event)
    requires Inv(w) && w.phase.Running? && DetEnabled(w, e) && e.Look?
    ensures Inv(DetStep(w, e))
  {
    assert DetOk(e.c, w.dets[e.c], w.db, w.submitted);
    LookKeeps(w, e.c, e.id);
  }

  lemma LookKeeps(w: World, c: nat, id: TxId)
    requires Inv(w) && w.phase.Running? && c in w.dets && id in w.dets[c].rows
    ensures Inv(w.Bumps(c, Looked(w.dets[c].rows[id], w.db.AttemptsOf(id))))
  {
    assert DetOk(c, w.dets[c], w.db, w.submitted);
    LookOk(c, w.dets[c], id, w.db, w.submitted);
    DetectorChange(w, c, w.dets[c].(bump := Looked(w.dets[c].rows[id], w.db.AttemptsOf(id))));
  }

  lemma LookOk(c: nat, d: Detector, id: TxId, db: Db, submitted: set<TxId>)
    requires DetOk(c, d, db, submitted) && RowsOk(db, submitted) && id in d.rows
    ensures DetOk(c, d.(bump := Looked(d.rows[id], db.AttemptsOf(id))), db, submitted)
  {
    assert SeenOk(c, id, d.rows[id], db, submitted);
  }

  lemma SkipKeepsInv(w: World, e: Event)
    requires Inv(w) && w.phase.Running? && DetEnabled(w, e) && e.Skip?
    ensures Inv(DetStep(w, e))
  {
    if e.c in w.dets { assert DetOk(e.c, w.dets[e.c], w.db, w.submitted); }
    MemoryChange(w, DetStep(w, e), None, Some(e.c), None);
  }

  /** The detector's view of the row is current, so its attempt continues the row's chain. */
  lemma NextAttempt(c: nat, b: Bumping, db: Db, submitted: set<TxId>, now: nat)
    requires RowsOk(db, submitted) && BumpOk(c, b, db, submitted)
    requires b.Looked? && b.tx.nonce.Some? && 1 <= |b.attempts| <= MAX_GAS_BUMPS
    ensures var (t, s) := (db.txs[b.tx.id], db.AttemptsOf(b.tx.id));
            var a := Replacement(b.tx, b.tx.nonce.value, b.attempts, now);
            db.CanStore(t.id, a.number) && InsertAttempt(s, a) == s + [a] && RowOk(t, s + [a], true)
  {
    var (t, s) := (db.txs[b.tx.id], db.AttemptsOf(b.tx.id));
    assert RowOk(t, s, true);
    var a := Replacement(b.tx, b.tx.nonce.value, b.attempts, now);
    assert a == Replacement(t, s[0].raw.nonce, s, now);
    ChainIsOrdered(t, s);
    ReplacementExtends(t, s, now);
    var i :| 0 <= i < |s| && s[i].Hash() == t.finalHash.value;
    assert (s + [a])[i].Hash() == t.finalHash.value;
  }

  lemma StoreNextEffect(c: nat, b: Bumping, db: Db, submitted: set<TxId>, now: nat)
    requires RowsOk(db, submitted) && BumpOk(c, b, db, submitted)
    requires b.Looked? && b.tx.nonce.Some? && 1 <= |b.attempts| <= MAX_GAS_BUMPS
    ensures var (id, a) := (b.tx.id, Replacement(b.tx, b.tx.nonce.value, b.attempts, now));
            var db' := db.StoreAttempt(id, a);
            && db.CanStore(id, a.number) && OneRow(db, db', id, true)
            && RowOk(db'.txs[id], db'.AttemptsOf(id), true)
            && BumpOk(c, BumpStored(b.tx, a), db', submitted)
  {
    NextAttempt(c, b, db, submitted, now);
    var s := db.AttemptsOf(b.tx.id);
    var a := Replacement(b.tx, b.tx.nonce.value, b.attempts, now);
    assert (s + [a])[..|s|] == s && (s + [a])[|s|].raw == a.raw;
    AttemptWrite(db, db.StoreAttempt(b.tx.id, a), b.tx.id, s + [a], true);
  }

  lemma StoreNextKeepsInv(w: World, e: Event)
    requires Inv(w) && w.phase.Running? && e.StoreNext? && DetEnabled(w, e)
    ensures Inv(DetStep(w, e))
  {
    StoreNextKeeps(w, e.c, e.o, e.now);
  }

  lemma StoreNextKeeps(w: World, c: nat, o: Outcome, now: nat)
    requires Inv(w) && w.phase.Running?
    requires var b := w.Det(c).bump; b.Looked? && b.tx.nonce.Some? && 1 <= |b.attempts| <= MAX_GAS_BUMPS
    ensures Inv(AfterStoreNext(w, c, o, now))
  {
    var (b, w') := (w.Det(c).bump, AfterStoreNext(w, c, o, now));
    assert DetOk(c, w.dets[c], w.db, w.submitted);
    StoreNextEffect(c, b, w.db, w.submitted, now);
    if o.Lost? {
      DetectorForgets(w, w', c);
    } else {
      DetectorWrites(w, w', c, b.tx.id);
    }
  }

  /** The detector changes the row it looks at and remembers how far it got. */
  lemma DetectorWrites(w: World, w': World, c: nat, id: TxId)
    requires Inv(w) && w.phase.Running? && id in w.submitted && OneRow(w.db, w'.db, id, true)
    requires w.db.txs[id].pair.chainId == c
    requires w' == w.(db := w'.db, dets := w.dets[c := w.Det(c).(bump := w'.Det(c).bump)])
    requires RowOk(w'.db.txs[id], w'.db.AttemptsOf(id), true) && BumpOk(c, w'.Det(c).bump, w'.db, w.submitted)
    ensures Inv(w')
  {
    assert RowOk(w.db.txs[id], w.db.AttemptsOf(id), true);
    RowChange(w, w', id, None, Some(c));
  }

  lemma DetectorForgets(w: World, w': World, c: nat)
    requires Inv(w) && w.phase.Running? && c in w.dets
    requires w' == w.Bumps(c, NoBump)
    ensures Inv(w')
  {
    assert DetOk(c, w.dets[c], w.db, w.submitted);
    DetectorChange(w, c, w.dets[c].(bump := NoBump));
  }

  lemma SendNextKeepsInv(w: World, e: Event)
    requires Inv(w) && w.phase.Running? && e.SendNext? && DetEnabled(w, e)
    ensures Inv(DetStep(w, e))
  {
    assert DetOk(e.c, w.dets[e.c], w.db, w.submitted);
    MemoryChange(w, DetStep(w, e), None, Some(e.c), None);
  }

  lemma GiveUpKeepsInv(w: World, e: Event)
    requires Inv(w) && w.phase.Running? && e.GiveUp? && DetEnabled(w, e)
    ensures Inv(DetStep(w, e))
  {
    var w' := AfterGiveUp(w, e.c, e.o);
    var id := w.Det(e.c).bump.tx.id;
    assert DetOk(e.c, w.dets[e.c], w.db, w.submitted);
    if e.o.Lost? {
      DetectorForgets(w, w', e.c);
    } else {
      assert RowOk(w.db.txs[id], w.db.AttemptsOf(id), true);
      RowWrite(w.db, w'.db, id, SetFailed(w.db.txs[id], MaxRetriesExceeded), true);
      DetectorWrites(w, w', e.c, id);
    }
  }

  lemma ResubmitEffect(db: Db, id: TxId, a: Attempt, now: nat)
    requires id in db.txs && RowOk(db.txs[id], db.AttemptsOf(id), true) && HasRaw(db.AttemptsOf(id), a.raw)
    ensures var db' := db.MarkSubmitted(id, a.Hash(), now);
            OneRow(db, db', id, true) && RowOk(db'.txs[id], db'.AttemptsOf(id), true)
            && db'.AttemptsOf(id) == db.AttemptsOf(id)
  {
    var s := db.AttemptsOf(id);
    var i :| 0 <= i < |s| && s[i].raw == a.raw;
    assert s[i].Hash() == a.Hash();
    RowWrite(db, db.MarkSubmitted(id, a.Hash(), now), id, SetSubmitted(db.txs[id], a.Hash(), now), true);
  }

  lemma ResubmitKeepsInv(w: World, e: Event)
    requires Inv(w) && w.phase.Running? && e.Resubmit? && DetEnabled(w, e)
    ensures Inv(DetStep(w, e))
  {
    var w' := DetStep(w, e);
    var b := w.Det(e.c).bump;
    assert DetOk(e.c, w.dets[e.c], w.db, w.submitted);
    if e.o.Lost? {
      DetectorForgets(w, w', e.c);
    } else {
      ResubmitEffect(w.db, b.tx.id, b.a, e.now);
      RowChange(w, w', b.tx.id, None, Some(e.c));
    }
  }

  lemma DetKeepsInv(w: World, e: Event)
    requires Inv(w) && w.phase.Running? && DetEnabled(w, e)
    ensures Inv(DetStep(w, e))
  {
    match e {
      case Scan(_, _) => ScanKeepsInv(w, e);
      case Look(_, _) => LookKeepsInv(w, e);
      case Skip(_) => SkipKeepsInv(w, e);
      case GiveUp(_, _) => GiveUpKeepsInv(w, e);
      case StoreNext(_, _, _) => StoreNextKeepsInv(w, e);
      case SendNext(_, _) => SendNextKeepsInv(w, e);
      case Resubmit(_, _, _) => ResubmitKeepsInv(w, e);
    }
  }

  // ---- the receipt poller ----

  lemma ReadKeepsInv(w: World, e: Event)
    requires Inv(w) && w.phase.Running? && e.Read? && PollEnabled(w, e)
    ensures Inv(PollStep(w, e))
  {
    var w' := PollStep(w, e);
    forall id | id in e.ids ensures SeenOk(e.c, id, w.db.txs[id], w.db, w.submitted) {
      assert RowOk(w.db.txs[id], w.db.AttemptsOf(id), id in w.submitted);
    }
    MemoryChange(w, w', None, None, Some(e.c));
  }

  lemma LookBackKeepsInv(w: World, e: Event)
    requires Inv(w) && w.phase.Running? && e.LookBack? && PollEnabled(w, e)
    ensures Inv(PollStep(w, e))
  {
    assert PollOk(e.c, w.polls[e.c], w.db, w.submitted);
    LookBackKeeps(w, e.c, e.id);
  }

  lemma LookBackKeeps(w: World, c: nat, id: TxId)
    requires Inv(w) && w.phase.Running? && PollOk(c, w.Poll(c), w.db, w.submitted)
    requires id in w.Poll(c).rows && w.db.AttemptsOf(id) != []
    ensures Inv(AfterLookBack(w, c, id))
  {
    LookBackOk(c, w.Poll(c), id, w.db, w.submitted);
    PollerChange(w, c, LookedBack(w.Poll(c), id, w.db));
  }

  lemma LookBackOk(c: nat, l: Poller, id: TxId, db: Db, submitted: set<TxId>)
    requires PollOk(c, l, db, submitted) && id in l.rows && db.AttemptsOf(id) != []
    ensures PollOk(c, LookedBack(l, id, db), db, submitted)
  {
    assert SeenOk(c, id, l.rows[id], db, submitted);
    var s := db.AttemptsOf(id);
    assert HasRaw(s, s[|s| - 1].raw);
  }

  lemma ResendKeepsInv(w: World, e: Event)
    requires Inv(w) && w.phase.Running? && e.Resend? && PollEnabled(w, e)
    ensures Inv(PollStep(w, e))
  {
    assert PollOk(e.c, w.polls[e.c], w.db, w.submitted);
    MemoryChange(w, PollStep(w, e), None, None, Some(e.c));
  }

  lemma MarkEffect(db: Db, id: TxId, row: Transaction, h: TxHash)
    requires id in db.txs && RowOk(db.txs[id], db.AttemptsOf(id), true) && HasHash(db.AttemptsOf(id), h)
    requires || (exists s, r :: s in {Included, Confirmed, Reverted} && row == SetReceipt(db.txs[id], s, h, r))
             || row == ClearReceipt(db.txs[id])
    ensures var db' := db.Put(id, row);
            OneRow(db, db', id, true) && RowOk(db'.txs[id], db'.AttemptsOf(id), true)
            && db'.AttemptsOf(id) == db.AttemptsOf(id)
  {
    RowWrite(db, db.Put(id, row), id, row, true);
  }

  lemma PollerMarks(w: World, e: Event)
    requires Inv(w) && w.phase.Running? && PollEnabled(w, e) && (e.Mark? || e.Revert?)
    ensures Inv(PollStep(w, e))
  {
    var w' := PollStep(w, e);
    assert PollOk(e.c, w.polls[e.c], w.db, w.submitted);
    var seen := w.Poll(e.c).rows[e.id];
    assert SeenOk(e.c, e.id, seen, w.db, w.submitted);
    if e.o.Lost? {
      MemoryChange(w, w', None, None, None);
    } else {
      var h := seen.finalHash.value;
      MarkEffect(w.db, e.id,
                 if e.Mark? then SetReceipt(w.db.txs[e.id], e.status, h, e.r) else ClearReceipt(w.db.txs[e.id]), h);
      RowChange(w, w', e.id, None, None);
    }
  }

  lemma MarkAttemptEffect(db: Db, id: TxId, n: nat, mark: AttemptStatus)
    requires id in db.txs && RowOk(db.txs[id], db.AttemptsOf(id), true)
    ensures var db' := db.MarkAttempt(id, n, mark);
            OneRow(db, db', id, true) && RowOk(db'.txs[id], db'.AttemptsOf(id), true)
            && |db'.AttemptsOf(id)| == |db.AttemptsOf(id)|
  {
    var (t, s) := (db.txs[id], db.AttemptsOf(id));
    var s' := SetAttemptStatus(s, n, mark);
    SameRawsKeepChain(t, s, s');
    assert s'[..|s|] == s';
    AttemptWrite(db, db.MarkAttempt(id, n, mark), id, s', true);
    var i :| 0 <= i < |s| && s[i].Hash() == t.finalHash.value;
    assert s'[i].Hash() == t.finalHash.value;
  }

  lemma MarkAttemptKeepsInv(w: World, e: Event)
    requires Inv(w) && w.phase.Running? && PollEnabled(w, e) && e.MarkAttempt?
    ensures Inv(PollStep(w, e))
  {
    assert PollOk(e.c, w.polls[e.c], w.db, w.submitted);
    assert SeenOk(e.c, e.id, w.Poll(e.c).rows[e.id], w.db, w.submitted);
    if e.o.Lost? {
      MemoryChange(w, PollStep(w, e), None, None, None);
    } else {
      MarkAttemptEffect(w.db, e.id, e.n, e.mark);
      RowChange(w, PollStep(w, e), e.id, None, None);
    }
  }

  lemma PollKeepsInv(w: World, e: Event)
    requires Inv(w) && w.phase.Running? && PollEnabled(w, e)
    ensures Inv(PollStep(w, e))
  {
    match e {
      case Read(_, _) => ReadKeepsInv(w, e);
      case Mark(_, _, _, _, _) => PollerMarks(w, e);
      case Revert(_, _, _) => PollerMarks(w, e);
      case LookBack(_, _) => LookBackKeepsInv(w, e);
      case Resend(_, _) => ResendKeepsInv(w, e);
      case MarkAttempt(_, _, _, _, _) => MarkAttemptKeepsInv(w, e);
    }
  }

  lemma StepKeepsInv(pairs: set<Pair>, w: World, e: Event)
    requires Inv(w) && Enabled(pairs, w, e)
    ensures Inv(Step(pairs, w, e))
  {
    if BootEnabled(pairs, w, e) {
      BootKeepsInv(pairs, w, e);
    } else if PipeEnabled(w, e) {
      PipeKeepsInv(w, e);
    } else if DetEnabled(w, e) {
      DetKeepsInv(w, e);
    } else {
      PollKeepsInv(w, e);
    }
  }

  lemma {:induction false} HistoryKeepsInv(pairs: set<Pair>, ws: seq<World>, es: seq<Event>, i: nat)
    requires IsHistory(pairs, ws, es) && i < |ws|
    ensures Inv(ws[i])
  {
    if i > 0 {
      HistoryKeepsInv(pairs, ws, es, i - 1);
      StepKeepsInv(pairs, ws[i - 1], es[i - 1]);
    }
  }

  // ---- one nonce per transaction ----

  /** Over every run, with any crashes, restarts and lost replies, everything that was ever sent for a
      transaction carries the same nonce, pays to the same address with the same value and data, and
      comes from the row's own pair. */
  lemma OneNonce(pairs: set<Pair>, ws: seq<World>, es: seq<Event>, i: nat, d: Delivery, f: Delivery)
    requires IsHistory(pairs, ws, es) && i < |ws|
    requires d in ws[i].sent && f in ws[i].sent && d.id == f.id
    ensures d.raw.nonce == f.raw.nonce && d.raw.pair == f.raw.pair
    ensures d.raw.to == f.raw.to && d.raw.value == f.raw.value && d.raw.data == f.raw.data
    ensures d.id in ws[i].db.txs && d.raw.pair == ws[i].db.txs[d.id].pair
  {
    HistoryKeepsInv(pairs, ws, es, i);
    var w := ws[i];
    var (t, s) := (w.db.txs[d.id], w.db.AttemptsOf(d.id));
    assert RowOk(t, s, d.id in w.submitted);
    var j :| 0 <= j < |s| && s[j].raw == d.raw;
    var k :| 0 <= k < |s| && s[k].raw == f.raw;
  }

  /** In every world: attempts are numbered 1..n with n at most 6, each fee is bumped from the one
      before, and a row that was ever submitted has at least one attempt, a nonce equal to the nonce of
      all of them and a final hash that is the hash of one of them; it is never QUEUED or PENDING. */
  lemma AttemptTable(pairs: set<Pair>, ws: seq<World>, es: seq<Event>, i: nat, id: TxId)
    requires IsHistory(pairs, ws, es) && i < |ws| && id in ws[i].db.txs
    ensures var (t, s) := (ws[i].db.txs[id], ws[i].db.AttemptsOf(id));
            && |s| <= 6
            && (forall j :: 0 <= j < |s| ==>
                  && s[j].number == j + 1 && s[j].raw.nonce == s[0].raw.nonce
                  && ValidFees(s[j].raw.gas)
                  && (j > 0 ==> s[j].raw.gas == BumpGas(s[j - 1].raw.gas, j)))
            && (id in ws[i].submitted ==>
                  && s != [] && t.nonce == Some(s[0].raw.nonce)
                  && t.finalHash.Some? && HasHash(s, t.finalHash.value)
                  && t.status != Queued && t.status != Pending)
            && (t.status == Queued ==> t.nonce.None?)
  {
    HistoryKeepsInv(pairs, ws, es, i);
    var (t, s) := (ws[i].db.txs[id], ws[i].db.AttemptsOf(id));
    assert RowOk(t, s, id in ws[i].submitted);
    forall j | 0 <= j < |s|
      ensures s[j].raw.nonce == s[0].raw.nonce && ValidFees(s[j].raw.gas)
      ensures j > 0 ==> s[j].raw.gas == BumpGas(s[j - 1].raw.gas, j)
    {
      BumpedIsValid(s[0].raw.gas, j);
    }
  }

  /** Fees over a whole run: every attempt that is ever stored costs at most about 6.07 times the
      transaction's first one. */
  lemma FeesOverARun(pairs: set<Pair>, ws: seq<World>, es: seq<Event>, i: nat, id: TxId, j: nat)
    requires IsHistory(pairs, ws, es) && i < |ws| && id in ws[i].db.txs
    requires j < |ws[i].db.AttemptsOf(id)| && FirstFeeAtLeast(ws[i].db.AttemptsOf(id), 0)
    ensures var s := ws[i].db.AttemptsOf(id);
            && ValidFees(s[j].raw.gas)
            && Fee(s[0].raw.gas) <= Fee(s[j].raw.gas)
            && Fee(s[j].raw.gas) * 10_000_000_000 <= Fee(s[0].raw.gas) * (115 * 130 * 145 * 160 * 175)
  {
    HistoryKeepsInv(pairs, ws, es, i);
    StoredFees(ws[i].db.txs[id], ws[i].db.AttemptsOf(id), j);
  }

  /** Over every run: all replacements of a transaction are ones that nodes take if and only if its
      first tip is at least 7. */
  lemma ReplacementsOverARun(pairs: set<Pair>, ws: seq<World>, es: seq<Event>, i: nat, id: TxId)
    requires IsHistory(pairs, ws, es) && i < |ws| && id in ws[i].db.txs && 2 <= |ws[i].db.AttemptsOf(id)|
    ensures var s := ws[i].db.AttemptsOf(id);
            ValidFees(s[0].raw.gas)
            && ((forall j :: 0 < j < |s| ==> TakesOver(s, j)) <==> 7 <= Tip(s[0].raw.gas))
  {
    HistoryKeepsInv(pairs, ws, es, i);
    StoredReplacementsIff(ws[i].db.txs[id], ws[i].db.AttemptsOf(id));
  }

  /** A detector that has read a row's attempts never finds an empty list, and finds a nonce: the
      index len(attempts)-1 is in range, and either the row is given up or it can be bumped. */
  lemma NoPanic(pairs: set<Pair>, ws: seq<World>, es: seq<Event>, i: nat, c: nat, o: Outcome, now: nat)
    requires IsHistory(pairs, ws, es) && i < |ws| && ws[i].Det(c).bump.Looked?
    ensures var b := ws[i].Det(c).bump;
            && 1 <= |b.attempts| <= 6 && b.tx.nonce.Some?
            && (DetEnabled(ws[i], GiveUp(c, o)) <==> |b.attempts| == 6)
            && (DetEnabled(ws[i], StoreNext(c, o, now)) <==> |b.attempts| <= 5)
  {
    HistoryKeepsInv(pairs, ws, es, i);
    LookedHasAttempts(ws[i], c);
    LookedGoesOn(ws[i], c, o, now);
  }

  lemma LookedGoesOn(w: World, c: nat, o: Outcome, now: nat)
    requires var b := w.Det(c).bump; b.Looked? && 1 <= |b.attempts| <= 6 && b.tx.nonce.Some?
    ensures DetEnabled(w, GiveUp(c, o)) <==> |w.Det(c).bump.attempts| == 6
    ensures DetEnabled(w, StoreNext(c, o, now)) <==> |w.Det(c).bump.attempts| <= 5
  {
  }

  lemma LookedHasAttempts(w: World, c: nat)
    requires Inv(w) && w.Det(c).bump.Looked?
    ensures var b := w.Det(c).bump; 1 <= |b.attempts| <= 6 && b.tx.nonce.Some?
  {
    assert DetOk(c, w.dets[c], w.db, w.submitted);
    var b := w.Det(c).bump;
    assert RowOk(w.db.txs[b.tx.id], w.db.AttemptsOf(b.tx.id), true);
  }

  /** A transaction that was claimed again after a crash and already has attempt 1 is never sent: the
      unique index refuses the new attempt and the pipeline lets go of the row. */
  lemma ReclaimedIsNotSent(w: World, p: Pair, o: Outcome)
    requires Inv(w) && w.phase.Running? && p in w.pipes && w.pipes[p].Signed?
    requires w.db.AttemptsOf(w.pipes[p].tx.id) != []
    ensures var w' := AfterStoreFirst(w, p, o);
            w'.pipes[p] == Idle && w'.db == w.db && w'.sent == w.sent
  {
    var g := w.pipes[p];
    assert StageOk(p, g, w.db);
    assert RowOk(w.db.txs[g.tx.id], w.db.AttemptsOf(g.tx.id), g.tx.id in w.submitted);
    StoreFirstEffect(w.db, p, g);
  }

  lemma PipeSubmits(w: World, e: Event)
    requires PipeEnabled(w, e)
    ensures w.submitted <= PipeStep(w, e).submitted
  {
    match e {
      case Submit(_, _, _) =>
      case _ =>
    }
  }

  lemma DetSubmits(w: World, e: Event)
    requires DetEnabled(w, e)
    ensures w.submitted <= DetStep(w, e).submitted
  {
  }

  lemma PollSubmits(w: World, e: Event)
    requires PollEnabled(w, e)
    ensures PollStep(w, e).submitted == w.submitted
  {
  }

  lemma StepSubmits(pairs: set<Pair>, w: World, e: Event)
    requires Enabled(pairs, w, e)
    ensures w.submitted <= Step(pairs, w, e).submitted
  {
    if BootEnabled(pairs, w, e) {
    } else if PipeEnabled(w, e) {
      PipeSubmits(w, e);
    } else if DetEnabled(w, e) {
      DetSubmits(w, e);
    } else {
      PollSubmits(w, e);
    }
  }

  lemma SubmittedStep(pairs: set<Pair>, ws: seq<World>, es: seq<Event>, j: nat)
    requires IsHistory(pairs, ws, es) && j < |es|
    ensures ws[j].submitted <= ws[j + 1].submitted
  {
    StepSubmits(pairs, ws[j], es[j]);
  }

  lemma {:induction false} StaysIn(sets: seq<set<TxId>>, i: nat, j: nat)
    requires forall k :: 0 < k < |sets| ==> sets[k - 1] <= sets[k]
    requires i <= j < |sets|
    ensures sets[i] <= sets[j]
    decreases j
  {
    if i < j {
      StaysIn(sets, i, j - 1);
      assert sets[j - 1] <= sets[j];
    }
  }

  lemma SubmittedStays(pairs: set<Pair>, ws: seq<World>, es: seq<Event>, i: nat, j: nat)
    requires IsHistory(pairs, ws, es) && i <= j < |ws|
    ensures ws[i].submitted <= ws[j].submitted
  {
    var sets := seq(|ws|, k requires 0 <= k < |ws| => ws[k].submitted);
    forall k | 0 < k < |sets| ensures sets[k - 1] <= sets[k] {
      SubmittedStep(pairs, ws, es, k - 1);
    }
    StaysIn(sets, i, j);
  }

  /** A row that has once been SUBMITTED, INCLUDED, CONFIRMED or REVERTED is never QUEUED or PENDING
      again, in any later world of the run. */
  lemma NeverBackInTheQueue(pairs: set<Pair>, ws: seq<World>, es: seq<Event>, i: nat, j: nat, id: TxId)
    requires IsHistory(pairs, ws, es) && i <= j < |ws| && id in ws[i].db.txs
    requires ws[i].db.txs[id].status in {Submitted, Included, Confirmed, Reverted}
    ensures id in ws[j].db.txs && ws[j].db.txs[id].status !in {Queued, Pending}
  {
    HistoryKeepsInv(pairs, ws, es, i);
    HistoryKeepsInv(pairs, ws, es, j);
    assert RowOk(ws[i].db.txs[id], ws[i].db.AttemptsOf(id), id in ws[i].submitted);
    SubmittedStays(pairs, ws, es, i, j);
    assert RowOk(ws[j].db.txs[id], ws[j].db.AttemptsOf(id), id in ws[j].submitted);
  }
}
