/** The stuck detector of a chain (internal/pipeline/stuck.go). */
module Detectors {
  import opened Domain
  import opened Tables
  import opened Attempts
  import opened Repository
  import opened Protocol
  import opened Invariants
  import opened Safety
  import opened Workers
  import Lifecycle

  // ---- what the answers to come mean ----

  /** The answers of clock, signer and node, and how many of them were used. */
  datatype Outside = Outside(answers: Answers, accepts: nat -> bool)

  datatype Counters = Counters(clocks: nat, signs: nat, sends: nat)

  /** By the clock's next answer the last attempt is old enough, and the signer's next answer is yes. */
  predicate Replaceable(o: Outside, c: Counters, attempts: seq<Attempt>, interval: nat) {
    && 1 <= |attempts| <= MAX_GAS_BUMPS
    && o.answers.clock(c.clocks) >= attempts[|attempts| - 1].createdAt + interval
    && o.answers.signer(c.signs)
  }

  /** The replacement that the answers to come make: whether the node takes it, and its two times. */
  function NextBump(o: Outside, c: Counters): Lifecycle.Move {
    Lifecycle.Bump(o.accepts(c.sends), o.answers.clock(c.clocks + 1), o.answers.clock(c.clocks + 2))
  }

  function AskedBoth(c: Counters): Counters {
    c.(clocks := c.clocks + 1, signs := c.signs + 1)
  }

  /** The answers that looking at one row uses. */
  function Advance(o: Outside, c: Counters, attempts: seq<Attempt>, interval: nat): Counters {
    if !(1 <= |attempts| <= MAX_GAS_BUMPS) then c
    else if o.answers.clock(c.clocks) < attempts[|attempts| - 1].createdAt + interval then
      c.(clocks := c.clocks + 1)
    else if !o.answers.signer(c.signs) then c.(clocks := c.clocks + 1, signs := c.signs + 1)
    else Counters(c.clocks + (if o.accepts(c.sends) then 3 else 2), c.signs + 1, c.sends + 1)
  }

  class StuckDetector {
    const system: System
    const chainId: nat
    const stuckThreshold: nat
    const gasBumpInterval: nat

    constructor (system: System, chainId: nat, stuckThreshold: nat, gasBumpInterval: nat)
      ensures this.system == system && this.chainId == chainId && this.gasBumpInterval == gasBumpInterval
      ensures this.stuckThreshold == if stuckThreshold == 0 then 180 else stuckThreshold
    {
      this.system, this.chainId, this.gasBumpInterval := system, chainId, gasBumpInterval;
      this.stuckThreshold := if stuckThreshold == 0 then 180 else stuckThreshold;
    }

    /** The process runs, this detector has read `rows` and is at stage b. */
    ghost predicate At(rows: map<TxId, Transaction>, b: Bumping)
      reads system, system.repo, system.client
    {
      system.Valid() && system.world.phase.Running? && system.world.Det(chainId) == Detector(rows, b)
    }

    function Db(): Db
      reads system.repo
    {
      system.repo.State()
    }

    /** Nobody acts in between and no statement has failed. */
    predicate Calm()
      reads system.repo
    {
      system.alone && !system.repo.faulted
    }

    /** The clock's next answer. */
    ghost function ClockNow(): nat
      reads system`used
    {
      system.answers.clock(system.used.clocks)
    }

    ghost function AfterOneClock(): Counters
      reads system`used, system.client`sends
    {
      Next().(clocks := Next().clocks + 1)
    }

    ghost function Answering(): Outside
    {
      Outside(system.answers, system.client.accepts)
    }

    ghost function Next(): Counters
      reads system`used, system.client`sends
    {
      Counters(system.used.clocks, system.used.signs, system.client.sends)
    }

    method Step(e: Event, ghost rows: map<TxId, Transaction>, ghost b: Bumping)
      requires Reachable(system.pairs, system.world) && system.world.phase.Running?
      requires !BootEnabled(system.pairs, system.world, e) && Enabled(system.pairs, system.world, e)
      requires var w' := Protocol.Step(system.pairs, system.world, e);
               && w'.phase.Running? && w'.Det(chainId) == Detector(rows, b)
               && w'.db == Db() && w'.sent == system.client.sent
      modifies system`world, system.repo, system.client`sent
      ensures At(rows, b)
      ensures system.FaultsKept()
      ensures system.alone ==> Db() == old(Db()) && system.repo.faulted == old(system.repo.faulted)
    {
      system.Took(e);
      system.Others(TheDetector(chainId));
    }

    method LogTransition(id: TxId, to: TxStatus, ghost rows: map<TxId, Transaction>)
      requires At(rows, NoBump)
      modifies system`world, system.repo, system.client`sent
      ensures At(rows, NoBump)
      ensures system.FaultsKept()
      ensures Calm() ==> Db() == old(Db()).LogTransition(id, LogEntry(Some(Submitted), to, StuckDetector))
    {
      var entry := LogEntry(Some(Submitted), to, StuckDetector);
      var o := system.repo.LogStateTransition(id, entry);
      if !o.Lost? {
        Step(Log(id, entry), rows, NoBump);
      }
    }

    /** Five replacements are out: the row is FAILED. */
    method GiveUp(tx: Transaction, attempts: seq<Attempt>, ghost rows: map<TxId, Transaction>)
      requires At(rows, Looked(tx, attempts)) && |attempts| > MAX_GAS_BUMPS
      modifies system`world, system.repo, system.client`sent
      ensures At(rows, NoBump)
      ensures system.FaultsKept()
      ensures Calm() ==> Db() == old(Db()).MarkFailed(tx.id, MaxRetriesExceeded)
                                 .LogTransition(tx.id, LogEntry(Some(Submitted), Failed, StuckDetector))
    {
      var o := system.repo.MarkFailed(tx.id, MaxRetriesExceeded);
      Step(Event.GiveUp(chainId, o), rows, NoBump);
      LogTransition(tx.id, Failed, rows);
    }

    method StoreReplacement(tx: Transaction, attempts: seq<Attempt>, ghost rows: map<TxId, Transaction>)
      returns (a: Attempt, ok: bool)
      requires At(rows, Looked(tx, attempts)) && tx.nonce.Some? && 1 <= |attempts| <= MAX_GAS_BUMPS
      modifies system`world, system`used, system.repo, system.client`sent
      ensures a == Replacement(tx, tx.nonce.value, attempts, old(system.answers.clock(system.used.clocks)))
      ensures system.used == old(system.used).(clocks := old(system.used.clocks) + 1)
      ensures At(rows, if ok then BumpStored(tx, a) else NoBump)
      ensures system.FaultsKept()
      ensures Calm() ==> ok && old(Db()).CanStore(tx.id, a.number) && Db() == old(Db()).StoreAttempt(tx.id, a)
    {
      var last := attempts[|attempts| - 1];
      var gas := Fees.BumpGas(last.raw.gas, |attempts|);
      var time := system.Clock();
      a := Attempt(|attempts| + 1, tx.Sign(tx.nonce.value, gas), Broadcast, time);
      CanBeStored(tx, attempts, rows, time);
      var o := system.repo.CreateAttempt(tx.id, a);
      ok := o.Done?;
      Step(StoreNext(chainId, o, time), rows, if ok then BumpStored(tx, a) else NoBump);
    }

    /** The unique index never refuses the detector: its view of the row's attempts is current. */
    lemma CanBeStored(tx: Transaction, attempts: seq<Attempt>, rows: map<TxId, Transaction>, now: nat)
      requires At(rows, Looked(tx, attempts)) && tx.nonce.Some? && 1 <= |attempts| <= MAX_GAS_BUMPS
      ensures Db().CanStore(tx.id, |attempts| + 1)
    {
      ReachableInv(system.pairs, system.world);
      var w := system.world;
      assert DetOk(chainId, w.dets[chainId], w.db, w.submitted);
      StoreNextEffect(chainId, w.Det(chainId).bump, w.db, w.submitted, now);
    }

    method Resubmit(tx: Transaction, a: Attempt, ghost rows: map<TxId, Transaction>)
      requires At(rows, BumpAccepted(tx, a))
      modifies system`world, system`used, system.repo, system.client`sent
      ensures At(rows, NoBump)
      ensures system.used == old(system.used).(clocks := old(system.used.clocks) + 1)
      ensures system.FaultsKept()
      ensures Calm() ==> Db() == Resubmitted(old(Db()), tx.id, a, old(system.answers.clock(system.used.clocks)))
    {
      var time := system.Clock();
      var o := system.repo.MarkSubmitted(tx.id, a.Hash(), time);
      Step(Event.Resubmit(chainId, o, time), rows, NoBump);
      LogTransition(tx.id, Submitted, rows);
    }

    lemma HasAttempts(tx: Transaction, attempts: seq<Attempt>, rows: map<TxId, Transaction>)
      requires At(rows, Looked(tx, attempts))
      ensures attempts != [] && tx.nonce.Some?
    {
      ReachableInv(system.pairs, system.world);
      LookedHasAttempts(system.world, chainId);
    }

    method LetGo(tx: Transaction, attempts: seq<Attempt>, ghost rows: map<TxId, Transaction>)
      requires At(rows, Looked(tx, attempts))
      modifies system`world, system.repo, system.client`sent
      ensures At(rows, NoBump)
      ensures system.FaultsKept()
      ensures Calm() ==> Db() == old(Db())
    {
      Step(Skip(chainId), rows, NoBump);
    }

    /** bumpGas. The index of the last attempt is in range because the row was submitted. The row is
        replaced if and only if by the clock that is read now its last attempt is old enough and the
        signer answers yes. */
    method BumpGas(tx: Transaction, attempts: seq<Attempt>, ghost rows: map<TxId, Transaction>)
      requires At(rows, Looked(tx, attempts)) && |attempts| <= MAX_GAS_BUMPS
      modifies system`world, system`used, system.repo
      modifies system.client`sent, system.client`calls, system.client`sends
      ensures At(rows, NoBump)
      ensures system.FaultsKept()
      ensures attempts != [] && tx.nonce.Some?
      ensures Replaceable(Answering(), old(Next()), attempts, gasBumpInterval)
              || system.client.calls == old(system.client.calls)
      ensures Calm() ==>
                BumpedIn(Answering(), old(Next()), old(Db()), tx, attempts, gasBumpInterval, Db(), Next())
    {
      if tx.nonce.None? {
        // the source returns here; a submitted row always has a nonce
        HasAttempts(tx, attempts, rows);
        assert false;
      }
      HasAttempts(tx, attempts, rows);
      BumpIfDue(tx, attempts, rows);
    }

    /** Old enough by the clock that is read now, and the signer answers yes. */
    method IsDue(attempts: seq<Attempt>) returns (due: bool)
      requires 1 <= |attempts| <= MAX_GAS_BUMPS
      modifies system`used
      ensures due == Replaceable(Answering(), old(Next()), attempts, gasBumpInterval)
      ensures Next() == if due then AskedBoth(old(Next()))
                        else Advance(Answering(), old(Next()), attempts, gasBumpInterval)
    {
      var last := attempts[|attempts| - 1];
      var time := system.Clock();
      if time < last.createdAt + gasBumpInterval { return false; }
      due := system.SignerWorks();
    }

    method BumpIfDue(tx: Transaction, attempts: seq<Attempt>, ghost rows: map<TxId, Transaction>)
      requires At(rows, Looked(tx, attempts)) && tx.nonce.Some? && 1 <= |attempts| <= MAX_GAS_BUMPS
      modifies system`world, system`used, system.repo
      modifies system.client`sent, system.client`calls, system.client`sends
      ensures At(rows, NoBump)
      ensures system.FaultsKept()
      ensures Replaceable(Answering(), old(Next()), attempts, gasBumpInterval)
              || system.client.calls == old(system.client.calls)
      ensures Calm() ==>
                BumpedIn(Answering(), old(Next()), old(Db()), tx, attempts, gasBumpInterval, Db(), Next())
    {
      ghost var c, db := Next(), Db();
      var due := IsDue(attempts);
      if due {
        Replace(tx, attempts, rows);
        if Calm() { ReplacedNow(Answering(), c, db, tx, attempts, gasBumpInterval, Db(), Next()); }
      } else {
        LetGo(tx, attempts, rows);
        if Calm() { LeftAlone(Answering(), c, db, tx, attempts, gasBumpInterval); }
      }
    }

    method Replace(tx: Transaction, attempts: seq<Attempt>, ghost rows: map<TxId, Transaction>)
      requires At(rows, Looked(tx, attempts)) && tx.nonce.Some? && 1 <= |attempts| <= MAX_GAS_BUMPS
      modifies system`world, system`used, system.repo
      modifies system.client`sent, system.client`calls, system.client`sends
      ensures At(rows, NoBump)
      ensures system.FaultsKept()
      ensures Calm() ==>
                ReplacedWith(Answering(), old(Next()), old(Db()), tx, attempts, Db(), Next())
    {
      var a, stored := StoreReplacement(tx, attempts, rows);
      if !stored { return; }
      SendReplacement(tx, a, rows);
    }

    method SendReplacement(tx: Transaction, a: Attempt, ghost rows: map<TxId, Transaction>)
      requires At(rows, BumpStored(tx, a))
      modifies system`world, system`used, system.repo
      modifies system.client`sent, system.client`calls, system.client`sends
      ensures At(rows, NoBump)
      ensures system.FaultsKept()
      ensures Next() == Sending(Answering(), old(Next()))
      ensures Calm() ==> Db() == if Answering().accepts(old(Next()).sends)
                                 then Resubmitted(old(Db()), tx.id, a, Answering().answers.clock(old(Next()).clocks))
                                 else old(Db())
    {
      var sent := system.client.SendTransaction(tx.id, a.raw);
      Step(SendNext(chainId, sent), rows, if sent then BumpAccepted(tx, a) else NoBump);
      if sent { Resubmit(tx, a, rows); }
    }

    /** One turn of the ticker: every row that was SUBMITTED longer ago than the threshold, by the clock
        that is read now, is looked at once, in id order. Undisturbed and without a failed statement,
        the rows that have five replacements are given up, of the other stuck rows exactly those are
        replaced whose last attempt is old enough when the clock is read for them and that can be
        signed, and no other row is touched. */
    method Check(ghost seen: map<TxId, Transaction>)
      returns (ok: bool, txs: seq<Transaction>, ghost rows: map<TxId, Transaction>)
      requires At(seen, NoBump)
      modifies system`world, system`used, system.repo
      modifies system.client`sent, system.client`calls, system.client`sends
      ensures At(rows, NoBump)
      ensures system.FaultsKept()
      ensures Calm() ==> ok
      ensures ok ==> AreStuck(txs, old(Db()), chainId, old(ClockNow()), stuckThreshold)
      ensures ok ==> HasChecked(old(AfterOneClock()), old(Db()), txs, |txs|)
    {
      txs, ok, rows := Stuck(seen);
      if ok { CheckAll(txs, rows); }
    }

    method CheckAll(found: seq<Transaction>, ghost rows: map<TxId, Transaction>)
      requires At(rows, NoBump) && Remembered(rows, found)
      requires Calm() ==> AllCurrent(found, Db())
      modifies system`world, system`used, system.repo
      modifies system.client`sent, system.client`calls, system.client`sends
      ensures At(rows, NoBump)
      ensures system.FaultsKept()
      ensures HasChecked(old(Next()), old(Db()), found, |found|)
    {
      ghost var db, start := Db(), Next();
      if Calm() { NothingExamined(Answering(), start, db, found, gasBumpInterval); }
      for i := 0 to |found|
        invariant At(rows, NoBump)
        invariant system.FaultsKept()
        invariant HasChecked(start, db, found, i)
      {
        ExamineNext(found, i, rows, start, db);
      }
    }

    /** Undisturbed and without a failed statement: the first n rows are done. */
    ghost predicate HasChecked(start: Counters, db: Db, txs: seq<Transaction>, n: nat)
      reads system`used, system.client`sends, system.repo
    {
      Calm() ==> CheckedSoFar(Answering(), start, db, txs, n, gasBumpInterval, Db(), Next())
    }

    method ExamineNext(found: seq<Transaction>, i: nat, ghost rows: map<TxId, Transaction>, ghost start: Counters,
                       ghost db: Db)
      requires At(rows, NoBump) && Remembered(rows, found) && i < |found| && HasChecked(start, db, found, i)
      modifies system`world, system`used, system.repo
      modifies system.client`sent, system.client`calls, system.client`sends
      ensures At(rows, NoBump)
      ensures system.FaultsKept()
      ensures HasChecked(start, db, found, i + 1)
    {
      ghost var middle, next := Db(), Next();
      Examine(found[i], rows);
      if Calm() { OneMoreChecked(Answering(), start, db, found, i, gasBumpInterval, middle, next, Db(), Next()); }
    }

    method Stuck(ghost seen: map<TxId, Transaction>)
      returns (txs: seq<Transaction>, ok: bool, ghost rows: map<TxId, Transaction>)
      requires At(seen, NoBump)
      modifies system`world, system`used, system.repo, system.client`sent
      ensures At(rows, NoBump)
      ensures Next() == old(AfterOneClock())
      ensures system.FaultsKept()
      ensures system.alone ==> Db() == old(Db())
      ensures Calm() ==> ok
      ensures ok ==> AreStuck(txs, old(Db()), chainId, old(ClockNow()), stuckThreshold) && Remembered(rows, txs)
    {
      rows := seen;
      ghost var db := Db();
      var now := system.Clock();
      var cutoff := if now < stuckThreshold then 0 else now - stuckThreshold;
      ReachableKeyed(system.pairs, system.world);
      txs, ok := system.repo.GetStuckTransactions(chainId, cutoff);
      if ok {
        FoundAreStuck(txs, db, chainId, now, stuckThreshold, cutoff);
        rows := Remember(cutoff, seen);
      }
    }

    method Remember(cutoff: nat, ghost seen: map<TxId, Transaction>) returns (ghost rows: map<TxId, Transaction>)
      requires At(seen, NoBump)
      modifies system`world, system.repo, system.client`sent
      ensures At(rows, NoBump)
      ensures rows == map id | id in old(Db()).txs && old(Db()).Stuck(id, chainId, cutoff) :: old(Db()).txs[id]
      ensures system.FaultsKept()
      ensures system.alone ==> Db() == old(Db()) && system.repo.faulted == old(system.repo.faulted)
    {
      rows := AfterScan(system.world, chainId, cutoff).Det(chainId).rows;
      Step(Scan(chainId, cutoff), rows, NoBump);
    }

    /** One stuck row. */
    method Examine(tx: Transaction, ghost rows: map<TxId, Transaction>)
      requires At(rows, NoBump) && tx.id in rows && rows[tx.id] == tx
      modifies system`world, system`used, system.repo
      modifies system.client`sent, system.client`calls, system.client`sends
      ensures At(rows, NoBump)
      ensures system.FaultsKept()
      ensures Calm() && IsCurrent(tx, old(Db())) ==>
                ExaminedWith(Answering(), old(Next()), old(Db()), tx.id, gasBumpInterval, Db(), Next())
    {
      ghost var db, next := Db(), Next();
      RowsAreSubmitted(tx, rows);
      var attempts, ok := ReadAttempts(tx, rows);
      if !ok { return; }
      if |attempts| > MAX_GAS_BUMPS {
        GiveUp(tx, attempts, rows);
        if Calm() && IsCurrent(tx, db) { GivenUpRow(Answering(), next, db, tx, gasBumpInterval); }
      } else {
        BumpGas(tx, attempts, rows);
        if Calm() && IsCurrent(tx, db) { BumpedRow(Answering(), next, db, tx, gasBumpInterval, Db(), Next()); }
      }
    }

    method ReadAttempts(tx: Transaction, ghost rows: map<TxId, Transaction>) returns (attempts: seq<Attempt>, ok: bool)
      requires At(rows, NoBump) && tx.id in rows && rows[tx.id] == tx
      modifies system`world, system.repo, system.client`sent
      ensures At(rows, if ok then Looked(tx, attempts) else NoBump)
      ensures system.FaultsKept()
      ensures Calm() ==> ok && Db() == old(Db()) && attempts == old(Db()).AttemptsOf(tx.id)
    {
      attempts, ok := system.repo.GetAttemptsByTransactionID(tx.id);
      if ok { Step(Look(chainId, tx.id), rows, Looked(tx, attempts)); }
    }

    lemma RowsAreSubmitted(tx: Transaction, rows: map<TxId, Transaction>)
      requires At(rows, NoBump) && tx.id in rows && rows[tx.id] == tx
      ensures tx.status == Submitted
    {
      ReachableInv(system.pairs, system.world);
      if chainId in system.world.dets {
        assert DetOk(chainId, system.world.dets[chainId], system.world.db, system.world.submitted);
      }
    }
  }

  /** The detector's copy of the row is what the table holds. */
  ghost predicate IsCurrent(tx: Transaction, db: Db) {
    tx.id in db.txs && db.txs[tx.id] == tx
  }

  /** The detector has read these rows, each once, in id order. */
  ghost predicate Remembered(rows: map<TxId, Transaction>, txs: seq<Transaction>) {
    && (forall i :: 0 <= i < |txs| ==> txs[i].id in rows && rows[txs[i].id] == txs[i])
    && (forall i, j :: 0 <= i < j < |txs| ==> txs[i].id < txs[j].id)
  }

  ghost predicate AllCurrent(txs: seq<Transaction>, db: Db) {
    forall i :: 0 <= i < |txs| ==> IsCurrent(txs[i], db)
  }

  /** The rows SUBMITTED for longer than the threshold, each once, in id order. */
  ghost predicate AreStuck(txs: seq<Transaction>, db: Db, chainId: nat, now: nat, threshold: nat) {
    Lists(txs, db, StuckRows(db, chainId, now, threshold)) && AllCurrent(txs, db)
  }

  lemma FoundAreStuck(txs: seq<Transaction>, db: Db, chainId: nat, now: nat, threshold: nat, cutoff: nat)
    requires Lists(txs, db, set id | id in db.txs && db.Stuck(id, chainId, cutoff))
    requires cutoff == if now < threshold then 0 else now - threshold
    ensures AreStuck(txs, db, chainId, now, threshold)
    ensures Remembered(map id | id in db.txs && db.Stuck(id, chainId, cutoff) :: db.txs[id], txs)
  {
    assert StuckRows(db, chainId, now, threshold) == set id | id in db.txs && db.Stuck(id, chainId, cutoff);
  }

  ghost predicate ExaminedIn(o: Outside, c: Counters, db: Db, id: TxId, interval: nat, d: Db)
    requires id in db.txs
  {
    Lifecycle.SameOthers(db, d, id) && Examined(o, c, db.EntityOf(id), interval, d.EntityOf(id))
  }

  ghost predicate ExaminedWith(o: Outside, c: Counters, db: Db, id: TxId, interval: nat, d: Db, c': Counters)
    requires id in db.txs
  {
    ExaminedIn(o, c, db, id, interval, d) && c' == Advance(o, c, db.AttemptsOf(id), interval)
  }

  /** Given up exactly when five replacements are out, replaced exactly when it can be, and otherwise
      left as it was. */
  ghost predicate Examined(o: Outside, c: Counters, e: Entity, interval: nat, e': Entity) {
    var move := if |e.attempts| > MAX_GAS_BUMPS then Lifecycle.GiveUp else NextBump(o, c);
    if |e.attempts| > MAX_GAS_BUMPS || Replaceable(o, c, e.attempts, interval)
    then Lifecycle.CanMove(e, move) && e' == Lifecycle.Act(1, e, move)
    else e' == e
  }

  predicate IsAmong(txs: seq<Transaction>, n: nat, id: TxId)
    requires n <= |txs|
  {
    exists i :: 0 <= i < n && txs[i].id == id
  }

  /** The answers used when row n is looked at. */
  function CountersAt(o: Outside, start: Counters, db: Db, txs: seq<Transaction>, n: nat, interval: nat): Counters
    requires n <= |txs|
  {
    if n == 0 then start
    else Advance(o, CountersAt(o, start, db, txs, n - 1, interval), db.AttemptsOf(txs[n - 1].id), interval)
  }

  /** The first n rows have been examined, each with the answers due to it, and no other row was
      touched. */
  ghost predicate SomeExamined(o: Outside, start: Counters, db: Db, txs: seq<Transaction>, n: nat, interval: nat,
                               d: Db)
  {
    && n <= |txs| && d.txs.Keys == db.txs.Keys
    && (forall i :: 0 <= i < |txs| ==> IsCurrent(txs[i], db))
    && (forall i :: 0 <= i < n ==> ExaminedAt(o, start, db, txs, i, interval, d))
    && forall id :: id in db.txs && !IsAmong(txs, n, id) ==> d.EntityOf(id) == db.EntityOf(id)
  }

  ghost predicate ExaminedAt(o: Outside, start: Counters, db: Db, txs: seq<Transaction>, i: nat, interval: nat, d: Db)
    requires i < |txs| && d.txs.Keys == db.txs.Keys
  {
    var id := txs[i].id;
    id in db.txs && Examined(o, CountersAt(o, start, db, txs, i, interval), db.EntityOf(id), interval, d.EntityOf(id))
  }

  /** The rows SUBMITTED for longer than the threshold. */
  function StuckRows(db: Db, chainId: nat, now: nat, threshold: nat): set<TxId> {
    set id | id in db.txs && db.txs[id].status == Submitted && db.txs[id].pair.chainId == chainId
             && db.txs[id].submittedAt.Some? && db.txs[id].submittedAt.value + threshold < now
  }

  lemma NothingExamined(o: Outside, start: Counters, db: Db, txs: seq<Transaction>, interval: nat)
    requires AllCurrent(txs, db)
    ensures CheckedSoFar(o, start, db, txs, 0, interval, db, start)
  {
  }

  /** And as many answers were used as those rows needed. */
  ghost predicate CheckedSoFar(o: Outside, start: Counters, db: Db, txs: seq<Transaction>, n: nat, interval: nat, d: Db,
                               c: Counters)
  {
    SomeExamined(o, start, db, txs, n, interval, d) && c == CountersAt(o, start, db, txs, n, interval)
  }

  lemma OneMoreChecked(o: Outside, start: Counters, db: Db, txs: seq<Transaction>, n: nat, interval: nat,
                       middle: Db, c: Counters, d: Db, c': Counters)
    requires n < |txs| && CheckedSoFar(o, start, db, txs, n, interval, middle, c)
    requires forall i, j :: 0 <= i < j < |txs| ==> txs[i].id < txs[j].id
    requires IsCurrent(txs[n], middle) ==> ExaminedWith(o, c, middle, txs[n].id, interval, d, c')
    ensures CheckedSoFar(o, start, db, txs, n + 1, interval, d, c')
  {
    RowIsUntouched(o, start, db, txs, n, interval, middle);
    NowExamined(o, start, db, txs, n, interval, middle, d);
    StaysExamined(o, start, db, txs, n, interval, middle, d);
    OthersStay(o, start, db, txs, n, interval, middle, d);
  }

  lemma StaysExamined(o: Outside, start: Counters, db: Db, txs: seq<Transaction>, n: nat, interval: nat,
                      middle: Db, d: Db)
    requires n < |txs| && forall i, j :: 0 <= i < j < |txs| ==> txs[i].id < txs[j].id
    requires middle.txs.Keys == db.txs.Keys
    requires forall i :: 0 <= i < n ==> ExaminedAt(o, start, db, txs, i, interval, middle)
    requires Lifecycle.SameOthers(middle, d, txs[n].id) && ExaminedAt(o, start, db, txs, n, interval, d)
    ensures forall i :: 0 <= i < n + 1 ==> ExaminedAt(o, start, db, txs, i, interval, d)
  {
    forall i | 0 <= i < n + 1 ensures ExaminedAt(o, start, db, txs, i, interval, d) {
      if i < n { SameExamined(o, start, db, txs, i, interval, middle, d); }
    }
  }

  lemma SameExamined(o: Outside, start: Counters, db: Db, txs: seq<Transaction>, i: nat, interval: nat,
                     middle: Db, d: Db)
    requires i < |txs| && middle.txs.Keys == db.txs.Keys && d.txs.Keys == db.txs.Keys
    requires ExaminedAt(o, start, db, txs, i, interval, middle) && d.EntityOf(txs[i].id) == middle.EntityOf(txs[i].id)
    ensures ExaminedAt(o, start, db, txs, i, interval, d)
  {
  }

  lemma NowExamined(o: Outside, start: Counters, db: Db, txs: seq<Transaction>, n: nat, interval: nat,
                    middle: Db, d: Db)
    requires n < |txs| && middle.txs.Keys == db.txs.Keys && txs[n].id in db.txs
    requires middle.EntityOf(txs[n].id) == db.EntityOf(txs[n].id)
    requires ExaminedIn(o, CountersAt(o, start, db, txs, n, interval), middle, txs[n].id, interval, d)
    ensures d.txs.Keys == db.txs.Keys && ExaminedAt(o, start, db, txs, n, interval, d)
  {
  }

  lemma OthersStay(o: Outside, start: Counters, db: Db, txs: seq<Transaction>, n: nat, interval: nat,
                   middle: Db, d: Db)
    requires n < |txs| && SomeExamined(o, start, db, txs, n, interval, middle)
    requires txs[n].id in db.txs && Lifecycle.SameOthers(middle, d, txs[n].id)
    ensures forall id :: id in db.txs && !IsAmong(txs, n + 1, id) ==> d.EntityOf(id) == db.EntityOf(id)
  {
    forall id | id in db.txs && !IsAmong(txs, n + 1, id) ensures d.EntityOf(id) == db.EntityOf(id) {
      assert id != txs[n].id && !IsAmong(txs, n, id);
      assert d.EntityOf(id) == middle.EntityOf(id);
    }
  }

  lemma RowIsUntouched(o: Outside, start: Counters, db: Db, txs: seq<Transaction>, n: nat, interval: nat, middle: Db)
    requires n < |txs| && SomeExamined(o, start, db, txs, n, interval, middle)
    requires forall i, j :: 0 <= i < j < |txs| ==> txs[i].id < txs[j].id
    ensures IsCurrent(txs[n], middle) && middle.EntityOf(txs[n].id) == db.EntityOf(txs[n].id)
    ensures middle.AttemptsOf(txs[n].id) == db.AttemptsOf(txs[n].id)
  {
    assert !IsAmong(txs, n, txs[n].id);
    assert middle.EntityOf(txs[n].id).attempts == db.EntityOf(txs[n].id).attempts;
    assert middle.EntityOf(txs[n].id).tx == db.EntityOf(txs[n].id).tx;
  }

  lemma GivenUpRow(o: Outside, c: Counters, db: Db, tx: Transaction, interval: nat)
    requires IsCurrent(tx, db) && tx.status == Submitted && |db.AttemptsOf(tx.id)| > MAX_GAS_BUMPS
    ensures ExaminedWith(o, c, db, tx.id, interval,
                         db.MarkFailed(tx.id, MaxRetriesExceeded)
                         .LogTransition(tx.id, LogEntry(Some(Submitted), Failed, StuckDetector)), c)
  {
    Lifecycle.FailedRow(db, tx.id, Submitted, MaxRetriesExceeded, StuckDetector);
  }

  lemma BumpedRow(o: Outside, c: Counters, db: Db, tx: Transaction, interval: nat, d: Db, c': Counters)
    requires IsCurrent(tx, db) && tx.status == Submitted && tx.nonce.Some?
    requires 1 <= |db.AttemptsOf(tx.id)| <= MAX_GAS_BUMPS
    requires BumpedIn(o, c, db, tx, db.AttemptsOf(tx.id), interval, d, c')
    ensures ExaminedWith(o, c, db, tx.id, interval, d, c')
  {
    if Replaceable(o, c, db.AttemptsOf(tx.id), interval) {
      var move := NextBump(o, c);
      var a := Replacement(tx, tx.nonce.value, db.AttemptsOf(tx.id), move.now);
      Lifecycle.StoredRow(db, tx.id, a);
      if move.sent {
        Lifecycle.SubmittedRow(db.StoreAttempt(tx.id, a), tx.id, Submitted, a.Hash(), move.later, StuckDetector);
      }
    }
  }

  /** A replacement by the answers to come, or nothing. */
  ghost predicate BumpedIn(o: Outside, c: Counters, db: Db, tx: Transaction, attempts: seq<Attempt>, interval: nat,
                           d: Db, c': Counters)
    requires tx.nonce.Some? && attempts != []
  {
    && c' == Advance(o, c, attempts, interval)
    && if Replaceable(o, c, attempts, interval) then ReplacedIn(db, tx, attempts, NextBump(o, c), d) else d == db
  }

  lemma LeftAlone(o: Outside, c: Counters, db: Db, tx: Transaction, attempts: seq<Attempt>, interval: nat)
    requires tx.nonce.Some? && 1 <= |attempts| <= MAX_GAS_BUMPS && !Replaceable(o, c, attempts, interval)
    ensures BumpedIn(o, c, db, tx, attempts, interval, db, Advance(o, c, attempts, interval))
  {
  }

  lemma ReplacedNow(o: Outside, c: Counters, db: Db, tx: Transaction, attempts: seq<Attempt>, interval: nat,
                    d: Db, c': Counters)
    requires tx.nonce.Some? && Replaceable(o, c, attempts, interval)
    requires ReplacedWith(o, AskedBoth(c), db, tx, attempts, d, c')
    ensures BumpedIn(o, c, db, tx, attempts, interval, d, c')
  {
  }

  /** The answers that sending uses. */
  function Sending(o: Outside, c: Counters): Counters {
    c.(clocks := c.clocks + (if o.accepts(c.sends) then 1 else 0), sends := c.sends + 1)
  }

  /** A replacement, from the clock answer for its creation on. */
  ghost predicate ReplacedWith(o: Outside, c: Counters, db: Db, tx: Transaction, attempts: seq<Attempt>, d: Db,
                               c': Counters)
    requires tx.nonce.Some? && attempts != []
  {
    && c' == Sending(o, c.(clocks := c.clocks + 1))
    && ReplacedIn(db, tx, attempts,
                  Lifecycle.Bump(o.accepts(c.sends), o.answers.clock(c.clocks), o.answers.clock(c.clocks + 1)), d)
  }

  function Resubmitted(db: Db, id: TxId, a: Attempt, later: nat): Db {
    db.MarkSubmitted(id, a.Hash(), later).LogTransition(id, LogEntry(Some(Submitted), Submitted, StuckDetector))
  }

  /** What a bump leaves in the tables. */
  ghost predicate ReplacedIn(db: Db, tx: Transaction, attempts: seq<Attempt>, move: Lifecycle.Move, d: Db)
    requires tx.nonce.Some? && attempts != []
  {
    move.Bump?
    && var a := Replacement(tx, tx.nonce.value, attempts, move.now);
       && db.CanStore(tx.id, a.number)
       && d == if move.sent
               then Resubmitted(db.StoreAttempt(tx.id, a), tx.id, a, move.later)
               else db.StoreAttempt(tx.id, a)
  }
}
