/** The receipt poller of a chain (internal/pipeline/receipt.go). Its statements are steps of the
    protocol whoever acts in between; undisturbed, its paged scans are passes. */
module ReceiptPolling {
  import opened Domain
  import opened Tables
  import opened Attempts
  import opened Repository
  import opened Protocol
  import opened Invariants
  import opened Workers
  import opened Passes
  import opened Outcomes
  import L = Lifecycle

  const DEFAULT_CHUNK: nat := 50

  class ReceiptPoller {
    const system: System
    const chainId: nat
    const confirmationBlocks: int
    const receiptChunkSize: nat

    constructor (system: System, chainId: nat, confirmationBlocks: int, chunkSize: int)
      ensures this.system == system && this.chainId == chainId
      ensures this.confirmationBlocks == confirmationBlocks
      ensures receiptChunkSize == (if chunkSize <= 0 then DEFAULT_CHUNK else chunkSize)
    {
      this.system, this.chainId, this.confirmationBlocks := system, chainId, confirmationBlocks;
      this.receiptChunkSize := if chunkSize <= 0 then DEFAULT_CHUNK else chunkSize;
    }

    /** The process runs and this poller has `rows` in its memory. */
    ghost predicate At(rows: map<TxId, Transaction>)
      reads system, system.repo, system.client
    {
      AboutToSend(rows, None)
    }

    ghost predicate AboutToSend(rows: map<TxId, Transaction>, resend: Option<(TxId, SignedTx)>)
      reads system, system.repo, system.client
    {
      system.Valid() && system.world.phase.Running? && system.world.Poll(chainId) == Poller(rows, resend)
    }

    /** The poller has read the row t. */
    ghost predicate HasRead(rows: map<TxId, Transaction>, t: Transaction)
      reads system, system.repo, system.client
    {
      At(rows) && t.id in rows && rows[t.id] == t
    }

    function Db(): Db
      reads system.repo
    {
      system.repo.State()
    }

    /** Nobody acts in between and no statement has failed. */
    predicate Calm()
      reads system.repo
    {
      system.alone && !system.repo.faulted
    }

    lemma RowIsThere(rows: map<TxId, Transaction>, t: Transaction)
      requires HasRead(rows, t)
      ensures t.id in system.repo.transactions && t.finalHash.Some? && t.pair.chainId == chainId
      ensures Ordered(Db().AttemptsOf(t.id))
    {
      ReachableInv(system.pairs, system.world);
      var w := system.world;
      assert PollOk(chainId, w.polls[chainId], w.db, w.submitted);
      assert SeenOk(chainId, t.id, t, w.db, w.submitted);
      assert RowOk(w.db.txs[t.id], w.db.AttemptsOf(t.id), true);
      ChainIsOrdered(w.db.txs[t.id], w.db.AttemptsOf(t.id));
    }

    method Step(e: Event, ghost rows: map<TxId, Transaction>, ghost resend: Option<(TxId, SignedTx)>)
      requires Reachable(system.pairs, system.world) && system.world.phase.Running?
      requires !BootEnabled(system.pairs, system.world, e) && Enabled(system.pairs, system.world, e)
      requires var w' := Protocol.Step(system.pairs, system.world, e);
               && w'.phase.Running? && w'.Poll(chainId) == Poller(rows, resend)
               && w'.db == Db() && w'.sent == system.client.sent
      modifies system`world, system.repo, system.client`sent
      ensures AboutToSend(rows, resend)
      ensures system.FaultsKept()
      ensures system.alone ==>
                && Db() == old(Db()) && system.repo.faulted == old(system.repo.faulted)
                && system.client.sent == old(system.client.sent)
    {
      system.Took(e);
      system.Others(ThePoller(chainId));
    }

    method LogTransition(t: Transaction, from: TxStatus, to: TxStatus, ghost rows: map<TxId, Transaction>)
      requires HasRead(rows, t)
      modifies system`world, system.repo, system.client`sent
      ensures At(rows)
      ensures system.FaultsKept()
      ensures system.alone ==> OnlyChanges(old(Db()), Db(), t.id) && system.client.sent == old(system.client.sent)
      ensures system.alone ==> Db().attempts == old(Db()).attempts
      ensures Calm() ==> Db() == old(Db()).LogTransition(t.id, LogEntry(Some(from), to, PollerOf(chainId)))
    {
      RowIsThere(rows, t);
      var entry := LogEntry(Some(from), to, PollerOf(chainId));
      LogTouches(Db(), t.id, entry);
      var o := system.repo.LogStateTransition(t.id, entry);
      if !o.Lost? {
        Step(Log(t.id, entry), rows, None);
      }
    }

    // ---- confirmation ----

    /** A matching Transfer event, found by scanning the logs in order. */
    method VerifyErc20Transfer(r: Receipt, t: Transaction) returns (found: bool)
      ensures t.tokenContract.Some? ==> (found <==> L.TransferVerified(r, t))
    {
      found := false;
      if t.tokenContract.None? { return; }
      for i := 0 to |r.logs|
        invariant !exists j :: 0 <= j < i &&
                    L.IsTransferLog(r.logs[j], t.tokenContract.value, t.pair.sender, t.recipient)
      {
        var l := r.logs[i];
        if l.address != t.tokenContract.value { continue; }
        if |l.topics| < 3 { continue; }
        if l.topics[0] != L.TRANSFER_EVENT { continue; }
        if l.topics[1] != t.pair.sender { continue; }
        if l.topics[2] != t.recipient { continue; }
        assert L.IsTransferLog(r.logs[i], t.tokenContract.value, t.pair.sender, t.recipient);
        return true;
      }
    }

    method MarkAttemptAs(t: Transaction, n: nat, status: AttemptStatus, ghost rows: map<TxId, Transaction>)
      requires HasRead(rows, t)
      modifies system`world, system.repo, system.client`sent
      ensures At(rows)
      ensures system.FaultsKept()
      ensures system.alone ==> OnlyChanges(old(Db()), Db(), t.id) && system.client.sent == old(system.client.sent)
      ensures Calm() ==> t.id in old(Db()).txs && Db() == old(Db()).MarkAttempt(t.id, n, status)
    {
      RowIsThere(rows, t);
      MarkAttemptTouches(Db(), t.id, n, status);
      var o := system.repo.MarkAttemptStatus(t.id, n, status);
      Step(MarkAttempt(chainId, t.id, n, status, o), rows, None);
    }

    method MarkOne(t: Transaction, a: Attempt, hash: TxHash, ghost rows: map<TxId, Transaction>)
      requires HasRead(rows, t)
      modifies system`world, system.repo, system.client`sent
      ensures At(rows)
      ensures system.FaultsKept()
      ensures system.alone ==> OnlyChanges(old(Db()), Db(), t.id) && system.client.sent == old(system.client.sent)
      ensures Calm() ==>
                && t.id in old(Db()).txs
                && Db().EntityOf(t.id)
                   == old(Db()).EntityOf(t.id).(attempts := MarkedOne(old(Db()).AttemptsOf(t.id), a, hash))
    {
      RowIsThere(rows, t);
      if a.Hash() == hash {
        MarkAttemptTouches(Db(), t.id, a.number, AttemptConfirmed);
        MarkAttemptAs(t, a.number, AttemptConfirmed, rows);
      } else if a.status == Broadcast {
        MarkAttemptTouches(Db(), t.id, a.number, Replaced);
        MarkAttemptAs(t, a.number, Replaced, rows);
      }
    }

    /** The mined attempt is confirmed, the others that were out are replaced. */
    method MarkAttemptConfirmed(t: Transaction, hash: TxHash, ghost rows: map<TxId, Transaction>)
      requires HasRead(rows, t)
      modifies system`world, system.repo, system.client`sent
      ensures At(rows)
      ensures system.FaultsKept()
      ensures system.alone ==> OnlyChanges(old(Db()), Db(), t.id) && system.client.sent == old(system.client.sent)
      ensures Calm() ==>
                && t.id in old(Db()).txs
                && Db().EntityOf(t.id)
                   == old(Db()).EntityOf(t.id).(attempts := ConfirmAttempts(old(Db()).AttemptsOf(t.id), hash))
    {
      RowIsThere(rows, t);
      var attempts, ok := system.repo.GetAttemptsByTransactionID(t.id);
      if ok {
        system.Others(ThePoller(chainId));
        MarkAll(t, attempts, hash, rows);
      }
    }

    method MarkAll(t: Transaction, attempts: seq<Attempt>, hash: TxHash, ghost rows: map<TxId, Transaction>)
      requires HasRead(rows, t) && Ordered(attempts)
      requires system.alone ==> t.id in Db().txs && attempts == Db().AttemptsOf(t.id)
      modifies system`world, system.repo, system.client`sent
      ensures At(rows)
      ensures system.FaultsKept()
      ensures system.alone ==> OnlyChanges(old(Db()), Db(), t.id) && system.client.sent == old(system.client.sent)
      ensures Calm() ==> MarkedTo(old(Db()), Db(), t.id, ConfirmAttempts(attempts, hash))
    {
      ghost var db := Db();
      for i := 0 to |attempts|
        invariant At(rows)
        invariant system.FaultsKept()
        invariant system.alone ==> OnlyChanges(db, Db(), t.id) && system.client.sent == old(system.client.sent)
        invariant Calm() ==> MarkedTo(db, Db(), t.id, MarkedSoFar(attempts, i, hash))
      {
        MarkOne(t, attempts[i], hash, rows);
        MarkOneMore(attempts, i, hash);
      }
      assert MarkedSoFar(attempts, |attempts|, hash) == ConfirmAttempts(attempts, hash);
    }

    // ---- one receipt ----

    method MarkRow(t: Transaction, status: TxStatus, r: Receipt, ghost rows: map<TxId, Transaction>) returns (ok: bool)
      requires HasRead(rows, t) && t.finalHash.Some? && status in {Included, Confirmed, Reverted}
      requires status == Reverted ==> t.status == Submitted
      modifies system`world, system.repo, system.client`sent
      ensures At(rows)
      ensures system.FaultsKept()
      ensures system.alone ==> OnlyChanges(old(Db()), Db(), t.id) && system.client.sent == old(system.client.sent)
      ensures Calm() ==>
                ok && t.id in old(Db()).txs && Db() == old(Db()).MarkWithReceipt(t.id, status, t.finalHash.value, r)
    {
      RowIsThere(rows, t);
      PutTouches(Db(), t.id, SetReceipt(Db().txs[t.id], status, t.finalHash.value, r));
      var o := system.repo.MarkWithReceipt(t.id, status, t.finalHash.value, r);
      ok := o.Done?;
      Step(Mark(chainId, t.id, status, r, o), rows, None);
    }

    /** A Mark statement, its audit entry, and for CONFIRMED the attempts. A failed Mark stops here. */
    method RecordReceipt(t: Transaction, from: TxStatus, status: TxStatus, r: Receipt,
                         ghost rows: map<TxId, Transaction>)
      requires HasRead(rows, t) && t.finalHash.Some? && status in {Included, Confirmed, Reverted}
      requires status == Reverted ==> t.status == Submitted
      modifies system`world, system.repo, system.client`sent
      ensures At(rows)
      ensures system.FaultsKept()
      ensures system.alone ==> OnlyChanges(old(Db()), Db(), t.id) && system.client.sent == old(system.client.sent)
      ensures Calm() ==>
                && t.id in old(Db()).txs
                && Db().EntityOf(t.id)
                   == Recorded(old(Db()).EntityOf(t.id), from, status, t.finalHash.value, r, PollerOf(chainId))
    {
      RowIsThere(rows, t);
      ghost var db := Db();
      var ok := MarkRow(t, status, r, rows);
      if !ok { return; }
      LogTransition(t, from, status, rows);
      if Calm() { MarkedAndLogged(db, t.id, from, status, t.finalHash.value, r, PollerOf(chainId)); }
      if status == Confirmed {
        MarkAttemptConfirmed(t, t.finalHash.value, rows);
      }
    }

    /** The body of pollSubmitted's loop over the receipts. */
    method HandleFound(t: Transaction, r: Receipt, ghost rows: map<TxId, Transaction>)
      requires HasRead(rows, t) && t.finalHash.Some? && t.status == Submitted
      modifies system`world, system.repo, system.client`sent
      ensures At(rows)
      ensures system.FaultsKept()
      ensures system.alone ==> FoundHandled(Found(), old(Db()), Db(), t, r, !system.repo.faulted)
    {
      RowIsThere(rows, t);
      var verified := r.status == 1;
      if r.status == 1 && t.tokenContract.Some? {
        verified := VerifyErc20Transfer(r, t);
      }
      assert verified <==> r.status == 1 && L.TransferVerified(r, t);
      var status :=
        if !verified then Reverted else if confirmationBlocks > 0 then Included else Confirmed;
      RecordReceipt(t, Submitted, status, r, rows);
    }

    /** One chunk of pollSubmitted: index the page by hash, fetch, then handle what was found in the
        order the map yields it. */
    method SubmittedChunk(page: seq<Transaction>, ghost rows: map<TxId, Transaction>) returns (ok: bool)
      requires At(rows) && Remembers(rows, page, Submitted)
      requires system.alone ==> FreshPage(page, chainId, Db()) && DistinctFinals(page)
      modifies system`world, system.repo, system.client`sent, system.client`faulted
      ensures At(rows)
      ensures system.FaultsKept() && (!ok ==> system.client.faulted)
      ensures system.alone ==> TouchesOnlyPage(page, old(Db()), Db())
      ensures system.alone && !ok ==> Db() == old(Db())
      ensures Calm() && ok ==>
                ChunkDone(Found(), page, old(Db()), Db())
    {
      var hashToTx := IndexByHash(page);
      var found, answered := system.client.BatchTransactionReceipts(hashToTx.Keys);
      if !answered { return false; }
      system.Others(ThePoller(chainId));
      ghost var db, pass := Db(), Found();
      HandleAllFound(page, hashToTx, found, rows);
      if system.alone { IndexedChunkIsDone(pass, chainId, page, hashToTx, found, db, Db(), !system.repo.faulted); }
      ok := true;
    }

    /** Undisturbed: the found receipts outside `rest` are handled, the rest is as in db. */
    ghost predicate InChunk(page: seq<Transaction>, m: map<TxHash, Transaction>, found: map<TxHash, Receipt>,
                            rest: set<TxHash>, db: Db)
      reads system.repo, system.client
    {
      system.alone ==>
        Chunk(Found(), chainId, page, m, found, rest, db, Db(),
              !system.repo.faulted)
    }

    method HandleAllFound(page: seq<Transaction>, hashToTx: map<TxHash, Transaction>,
                          found: map<TxHash, Receipt>, ghost rows: map<TxId, Transaction>)
      requires At(rows) && Remembers(rows, page, Submitted) && found.Keys <= hashToTx.Keys
      requires forall h :: h in hashToTx ==> hashToTx[h] in page && hashToTx[h].finalHash == Some(h)
      requires system.alone ==> FreshPage(page, chainId, Db()) && Indexes(hashToTx, page)
      modifies system`world, system.repo, system.client`sent
      ensures At(rows) && InChunk(page, hashToTx, found, {}, old(Db()))
      ensures system.FaultsKept()
    {
      ghost var db := Db();
      if system.alone {
        ChunkStarts(Found(), chainId, page, hashToTx, found, db,
                    !system.repo.faulted);
      }
      var rest := found.Keys;
      while rest != {}
        invariant rest <= found.Keys && At(rows) && InChunk(page, hashToTx, found, rest, db)
        invariant system.FaultsKept()
        decreases rest
      {
        var h :| h in rest;
        HandleOneFound(page, hashToTx, found, rest, h, hashToTx[h], rows, db);
        rest := rest - {h};
      }
    }

    method HandleOneFound(page: seq<Transaction>, hashToTx: map<TxHash, Transaction>, found: map<TxHash, Receipt>,
                          ghost rest: set<TxHash>, h: TxHash, t: Transaction, ghost rows: map<TxId, Transaction>,
                          ghost db: Db)
      requires HasRead(rows, t) && t.status == Submitted && t.finalHash.Some?
      requires h in rest && h in found && h in hashToTx && hashToTx[h] == t
      requires InChunk(page, hashToTx, found, rest, db)
      modifies system`world, system.repo, system.client`sent
      ensures At(rows) && InChunk(page, hashToTx, found, rest - {h}, db)
      ensures system.FaultsKept()
    {
      ghost var now, clean := Db(), !system.repo.faulted;
      HandleFound(t, found[h], rows);
      if system.alone {
        ChunkRound(Found(), chainId, page, hashToTx, found, rest, db, now, Db(), clean, !system.repo.faulted, h);
      }
    }

    /** Of two rows with one hash the map keeps the later one. */
    method IndexByHash(page: seq<Transaction>) returns (m: map<TxHash, Transaction>)
      ensures forall h :: h in m ==> m[h] in page && m[h].finalHash == Some(h)
      ensures DistinctFinals(page) ==> Indexes(m, page)
    {
      m := map[];
      for i := 0 to |page|
        invariant forall h :: h in m ==> m[h] in page[..i] && m[h].finalHash == Some(h)
        invariant DistinctFinals(page) ==>
                    forall j :: 0 <= j < i && page[j].finalHash.Some? ==>
                      page[j].finalHash.value in m && m[page[j].finalHash.value] == page[j]
      {
        if page[i].finalHash.Some? {
          m := m[page[i].finalHash.value := page[i]];
        }
      }
    }

    /** A page of rows with the status, read after the cursor. */
    method ReadPage(status: TxStatus, after: Option<TxId>, ghost seen: map<TxId, Transaction>)
      returns (page: seq<Transaction>, ok: bool, ghost rows: map<TxId, Transaction>)
      requires At(seen) && status in {Submitted, Included}
      modifies system`world, system.repo, system.client`sent
      ensures At(rows)
      ensures system.FaultsKept() && (!ok ==> system.repo.faulted)
      ensures system.alone ==> Db() == old(Db()) && system.client.sent == old(system.client.sent)
      ensures ok ==> Remembers(rows, page, status) && old(Db()).IsPage(page, status, chainId, receiptChunkSize, after)
    {
      rows := seen;
      ghost var db := Db();
      ReachableKeyed(system.pairs, system.world);
      page, ok := system.repo.GetPage(status, chainId, receiptChunkSize, after);
      if !ok { return; }
      var ids := set t | t in page :: t.id;
      PageIsReadable(db, page, status, chainId, receiptChunkSize, after, ids);
      rows := Remember(ids, seen);
    }

    method Remember(ids: set<TxId>, ghost seen: map<TxId, Transaction>) returns (ghost rows: map<TxId, Transaction>)
      requires At(seen) && Readable(Db(), chainId, ids)
      modifies system`world, system.repo, system.client`sent
      ensures At(rows) && rows == map id | id in ids :: old(Db()).txs[id]
      ensures system.FaultsKept()
      ensures system.alone ==>
                && Db() == old(Db()) && system.repo.faulted == old(system.repo.faulted)
                && system.client.sent == old(system.client.sent)
    {
      rows := AfterRead(system.world, chainId, ids).Poll(chainId).rows;
      Step(Read(chainId, ids), rows, None);
    }

    /** One round of pollSubmitted's loop: read a page, handle its chunk. */
    method SubmittedPage(ghost db: Db, after: Option<TxId>, ghost seen: map<TxId, Transaction>)
      returns (page: seq<Transaction>, ok: bool, ghost rows: map<TxId, Transaction>)
      requires At(seen)
      requires system.alone ==> DistinctFinalHashes(chainId, db) && AboveIsFresh(db, Db(), after)
      modifies system`world, system.repo, system.client`sent, system.client`faulted
      ensures At(rows)
      ensures system.FaultsKept() && (!ok ==> system.Faulted())
      ensures system.alone ==>
                if ok then old(Db()).IsPage(page, Submitted, chainId, receiptChunkSize, after)
                           && TouchesOnlyPage(page, old(Db()), Db())
                else Db() == old(Db())
      ensures system.alone && page == [] ==> Db() == old(Db())
      ensures Calm() && ok ==>
                ChunkDone(Found(), page, old(Db()), Db())
    {
      ghost var middle := Db();
      page, ok, rows := ReadPage(Submitted, after, seen);
      if !ok || |page| == 0 { page := []; return; }
      if system.alone {
        PageIsOfThisPass(Found(), chainId, receiptChunkSize,
                         db, middle, after, page);
        PageHashesDistinct(chainId, db, page);
      }
      ok := SubmittedChunk(page, rows);
    }

    /** Undisturbed: how far the scan of the SUBMITTED rows has come. */
    ghost predicate InSubmitted(db: Db, after: Option<TxId>, done: bool)
      reads system.repo, system.client
    {
      system.alone ==> SubmittedSoFar(Found(), chainId, db, Db(), after, done, !system.repo.faulted)
    }

    /** The pass over the SUBMITTED rows. */
    ghost function Found(): Pass
      reads system.client
    {
      SubmittedPass(confirmationBlocks, system.client.receipts)
    }

    /** One round of the loop; `more` unless the page was the last one. */
    method ScanSubmittedPage(after: Option<TxId>, ghost seen: map<TxId, Transaction>, ghost db: Db)
      returns (next: Option<TxId>, more: bool, ok: bool, ghost rows: map<TxId, Transaction>)
      requires At(seen) && receiptChunkSize >= 1 && InSubmitted(db, after, false)
      requires system.alone ==> DistinctFinalHashes(chainId, db)
      modifies system`world, system.repo, system.client`sent, system.client`faulted
      ensures At(rows) && InSubmitted(db, next, ok && !more)
      ensures system.FaultsKept() && (!ok ==> system.Faulted())
      ensures system.alone && ok && more ==> Above(db, next) < Above(db, after)
    {
      next, more := after, false;
      ghost var middle, clean := Db(), !system.repo.faulted;
      var page;
      page, ok, rows := SubmittedPage(db, after, seen);
      if !ok { return; }
      if system.alone {
        SubmittedRound(Found(), chainId, receiptChunkSize, db, middle, Db(), after, page, clean,
                       !system.repo.faulted);
      }
      if |page| == 0 { return; }
      next, more := CursorAfter(page), |page| >= receiptChunkSize;
    }

    /** pollSubmitted. Its statements are steps of the protocol whoever acts in between; then the
        process may also die after any number of pages. Undisturbed, whatever the chunk size, the order
        of the receipts and the point at which a query or the node fails, the rows handled are those
        up to some id, each handled once; unless a statement, a read or an answer of the node failed,
        the result is one unpaged pass. */
    method PollSubmitted(ghost seen: map<TxId, Transaction>)
      returns (done: bool, ghost cursor: Option<TxId>, ghost rows: map<TxId, Transaction>)
      requires At(seen) && receiptChunkSize >= 1
      requires system.alone ==> DistinctFinalHashes(chainId, Db())
      modifies system`world, system.repo, system.client`sent, system.client`faulted
      ensures At(rows)
      ensures system.FaultsKept() && (system.alone && !done ==> system.Faulted())
      ensures system.alone ==>
                SubmittedScan(Found(), chainId, old(Db()), Db(), cursor, done, !system.repo.faulted)
    {
      ghost var db := Db();
      done, cursor, rows := ScanSubmitted(seen);
      if system.alone { SubmittedResult(Found(), chainId, db, Db(), cursor, done, !system.repo.faulted); }
    }

    method ScanSubmitted(ghost seen: map<TxId, Transaction>)
      returns (done: bool, ghost cursor: Option<TxId>, ghost rows: map<TxId, Transaction>)
      requires At(seen) && receiptChunkSize >= 1
      requires system.alone ==> DistinctFinalHashes(chainId, Db())
      modifies system`world, system.repo, system.client`sent, system.client`faulted
      ensures At(rows) && InSubmitted(old(Db()), cursor, done)
      ensures system.FaultsKept() && (system.alone && !done ==> system.Faulted())
    {
      ghost var db := Db();
      rows := seen;
      var after: Option<TxId> := None;
      var pages := PagesUntilStopped();
      SubmittedStarts(Found(), chainId, db, !system.repo.faulted);
      while true
        invariant At(rows) && InSubmitted(db, after, false)
        invariant system.FaultsKept()
        decreases if system.alone then Above(db, after) else {}, pages
      {
        if !system.alone {
          if pages == 0 { return false, after, rows; }
          pages := pages - 1;
        }
        var next, more, ok;
        next, more, ok, rows := ScanSubmittedPage(after, rows, db);
        if !ok || !more {
          return ok, next, rows;
        }
        after := next;
      }
    }

    // ---- included rows ----

    /** rebroadcastAfterReorg: the latest attempt stored when it looks, if any, goes out again. */
    method RebroadcastAfterReorg(t: Transaction, ghost rows: map<TxId, Transaction>)
      returns (ok: bool, ghost raw: Option<SignedTx>)
      requires HasRead(rows, t)
      modifies system`world, system.repo, system.client`sent, system.client`calls, system.client`sends
      ensures At(rows)
      ensures system.FaultsKept()
      ensures system.client.calls
              == old(system.client.calls) + if raw.Some? then [Delivery(t.id, raw.value, ok)] else []
      ensures var s := old(Db()).AttemptsOf(t.id); raw.Some? ==> s != [] && raw.value == s[|s| - 1].raw
      ensures system.alone ==>
                && Db() == old(Db())
                && SentFor(Db(), t.id, true, old(system.client.sent), system.client.sent, !system.repo.faulted)
    {
      ok := false;
      var latest := LatestRaw(t, rows);
      raw := latest;
      if latest.Some? { ok := SendAgain(t.id, latest.value, rows); }
    }

    method SendAgain(id: TxId, raw: SignedTx, ghost rows: map<TxId, Transaction>) returns (ok: bool)
      requires AboutToSend(rows, Some((id, raw)))
      modifies system`world, system.repo, system.client`sent, system.client`calls, system.client`sends
      ensures At(rows)
      ensures system.FaultsKept()
      ensures system.client.calls == old(system.client.calls) + [Delivery(id, raw, ok)]
      ensures system.alone ==>
                && Db() == old(Db()) && system.repo.faulted == old(system.repo.faulted)
                && system.client.sent == old(system.client.sent) + {Delivery(id, raw, ok)}
    {
      ok := system.client.SendTransaction(id, raw);
      Step(Resend(chainId, ok), rows, None);
    }

    method LatestRaw(t: Transaction, ghost rows: map<TxId, Transaction>) returns (raw: Option<SignedTx>)
      requires HasRead(rows, t)
      modifies system`world, system.repo, system.client`sent
      ensures AboutToSend(rows, if raw.Some? then Some((t.id, raw.value)) else None)
      ensures system.FaultsKept()
      ensures var s := old(Db()).AttemptsOf(t.id);
              && (raw.Some? ==> s != [] && raw.value == s[|s| - 1].raw)
              && (Calm() && s != [] ==> raw.Some?)
      ensures system.alone ==> Db() == old(Db()) && system.client.sent == old(system.client.sent)
    {
      raw := None;
      var attempts, read := system.repo.GetAttemptsByTransactionID(t.id);
      if !read || |attempts| == 0 { return; }
      raw := Some(attempts[|attempts| - 1].raw);
      Step(LookBack(chainId, t.id), rows, Some((t.id, raw.value)));
    }

    method RevertRow(t: Transaction, ghost rows: map<TxId, Transaction>) returns (ok: bool)
      requires HasRead(rows, t) && t.status == Included
      modifies system`world, system.repo, system.client`sent
      ensures At(rows)
      ensures system.FaultsKept()
      ensures system.alone ==> system.client.sent == old(system.client.sent)
      ensures system.alone ==> OnlyChanges(old(Db()), Db(), t.id) && Db().attempts == old(Db()).attempts
      ensures Calm() ==> ok && t.id in old(Db()).txs && Db() == old(Db()).RevertToSubmitted(t.id)
    {
      RowIsThere(rows, t);
      PutTouches(Db(), t.id, ClearReceipt(Db().txs[t.id]));
      var o := system.repo.RevertToSubmitted(t.id);
      ok := o.Done?;
      Step(Revert(chainId, t.id, o), rows, None);
    }

    /** pollIncluded, receipt gone: back to SUBMITTED and out again. */
    method HandleGone(t: Transaction, head: Uint64, ghost rows: map<TxId, Transaction>)
      requires HasRead(rows, t) && t.status == Included && IsReady(confirmationBlocks, head, t)
      modifies system`world, system.repo, system.client`sent, system.client`calls, system.client`sends
      ensures At(rows)
      ensures system.FaultsKept()
      ensures system.alone && IsCurrent(t, old(Db())) && Looked(head).Lookup(t).None? ==>
                Rechecked(Looked(head), t, old(Db()), Db(), old(system.client.sent), system.client.sent,
                          !system.repo.faulted)
      ensures Calm() && IsCurrent(t, old(Db())) ==> GoneIn(confirmationBlocks, head, t.id, old(Db()), Db())
    {
      RowIsThere(rows, t);
      ghost var db, sent := Db(), system.client.sent;
      var ok := RevertAndLog(t, rows);
      if !ok { return; }
      ghost var reverted := Db();
      var _, _ := RebroadcastAfterReorg(t, rows);
      assert system.alone ==> reverted.AttemptsOf(t.id) == db.AttemptsOf(t.id);
      if Calm() && IsCurrent(t, db) {
        BackIsRechecked(confirmationBlocks, head, db.EntityOf(t.id), PollerOf(chainId));
      }
    }

    method RevertAndLog(t: Transaction, ghost rows: map<TxId, Transaction>) returns (ok: bool)
      requires HasRead(rows, t) && t.status == Included
      modifies system`world, system.repo, system.client`sent
      ensures At(rows)
      ensures system.FaultsKept()
      ensures system.alone ==> system.client.sent == old(system.client.sent)
      ensures system.alone ==> OnlyChanges(old(Db()), Db(), t.id) && Db().attempts == old(Db()).attempts
      ensures Calm() ==>
                && ok && t.id in old(Db()).txs && t.id in Db().txs
                && Db().EntityOf(t.id) == BackToSubmitted(old(Db()).EntityOf(t.id), PollerOf(chainId))
    {
      RowIsThere(rows, t);
      ghost var db := Db();
      ok := RevertRow(t, rows);
      if !ok { return; }
      LogTransition(t, Included, Submitted, rows);
      if Calm() { RevertedAndLogged(db, t.id, PollerOf(chainId)); }
    }

    /** pollIncluded, receipt still there: confirmed in the same block, included anew in another. */
    method HandleStillThere(t: Transaction, head: Uint64, r: Receipt, ghost rows: map<TxId, Transaction>)
      requires HasRead(rows, t) && t.finalHash.Some? && IsReady(confirmationBlocks, head, t)
      modifies system`world, system.repo, system.client`sent
      ensures At(rows)
      ensures system.FaultsKept()
      ensures system.alone && IsCurrent(t, old(Db())) && Looked(head).Lookup(t) == Some(r) ==>
                Rechecked(Looked(head), t, old(Db()), Db(), old(system.client.sent), system.client.sent,
                          !system.repo.faulted)
    {
      RowIsThere(rows, t);
      var status := if t.blockHash == Some(r.blockHash) then Confirmed else Included;
      RecordReceipt(t, Included, status, r, rows);
    }

    /** The pass over the INCLUDED rows for this head. */
    ghost function Looked(head: Uint64): Pass
      reads system.client
    {
      IncludedPass(confirmationBlocks, system.client.receipts, head)
    }

    /** The body of pollIncluded's loop over the rows that are deep enough. */
    method HandleReady(t: Transaction, head: Uint64, receipt: Option<Receipt>, ghost rows: map<TxId, Transaction>)
      requires HasRead(rows, t) && t.status == Included && IsReady(confirmationBlocks, head, t)
      modifies system`world, system.repo, system.client`sent, system.client`calls, system.client`sends
      ensures At(rows)
      ensures system.FaultsKept()
      ensures system.alone && IsCurrent(t, old(Db())) && Looked(head).Lookup(t) == receipt ==>
                Rechecked(Looked(head), t, old(Db()), Db(), old(system.client.sent), system.client.sent,
                          !system.repo.faulted)
    {
      RowIsThere(rows, t);
      if receipt.None? {
        HandleGone(t, head, rows);
      } else {
        HandleStillThere(t, head, receipt.value, rows);
      }
    }

    /** The rows of a page with enough depth, in page order, and their hashes. */
    method FilterReady(page: seq<Transaction>, head: Uint64)
      returns (ready: seq<Transaction>, hashes: set<TxHash>)
      ensures forall t :: t in ready <==> t in page && t.blockNumber.Some?
                                          && L.DeepEnough(confirmationBlocks, head, t.blockNumber.value)
      ensures (forall i, j :: 0 <= i < j < |page| ==> page[i].id < page[j].id) ==>
                ReadyOf(confirmationBlocks, head, page, ready)
      ensures forall t :: t in ready && t.finalHash.Some? ==> t.finalHash.value in hashes
    {
      ready, hashes := [], {};
      for i := 0 to |page|
        invariant forall t :: t in ready <==> t in page[..i] && t.blockNumber.Some?
                                              && L.DeepEnough(confirmationBlocks, head, t.blockNumber.value)
        invariant (forall m, n :: 0 <= m < n < |page| ==> page[m].id < page[n].id) ==>
                    ReadyOf(confirmationBlocks, head, page[..i], ready)
        invariant forall t :: t in ready && t.finalHash.Some? ==> t.finalHash.value in hashes
      {
        assert page[..i + 1] == page[..i] + [page[i]];
        if page[i].blockNumber.None? { continue; }
        if L.Depth(head, page[i].blockNumber.value) < L.Uint64Of(confirmationBlocks) { continue; }
        if page[i].finalHash.Some? {
          hashes := hashes + {page[i].finalHash.value};
        }
        ready := ready + [page[i]];
      }
      assert page[..|page|] == page;
    }

    /** Undisturbed: the first n deep enough rows are handled, the rest is as in db. */
    ghost predicate InReady(page: seq<Transaction>, ready: seq<Transaction>, n: nat, head: Uint64, db: Db,
                            sent: set<Delivery>)
      reads system.repo, system.client
    {
      system.alone ==>
        Ready(Looked(head), chainId, page, ready, n, db, Db(), sent, system.client.sent, !system.repo.faulted)
    }

    method HandleOneReady(page: seq<Transaction>, ready: seq<Transaction>, i: nat, head: Uint64,
                          found: map<TxHash, Receipt>, ghost rows: map<TxId, Transaction>, ghost db: Db,
                          ghost sent: set<Delivery>)
      requires At(rows) && i < |ready| && Remembers(rows, [ready[i]], Included)
      requires IsReady(confirmationBlocks, head, ready[i])
      requires Looked(head).Lookup(ready[i]) == FindReceipt(found, ready[i])
      requires InReady(page, ready, i, head, db, sent)
      modifies system`world, system.repo, system.client`sent, system.client`calls, system.client`sends
      ensures At(rows) && InReady(page, ready, i + 1, head, db, sent)
      ensures system.FaultsKept()
    {
      var t := ready[i];
      assert t in [ready[i]];
      ghost var middle, clean, sentMiddle := Db(), !system.repo.faulted, system.client.sent;
      if system.alone {
        ReadyRow(Looked(head), chainId, page, ready, i, db, middle, sent, sentMiddle, clean);
      }
      HandleReady(t, head, FindReceipt(found, t), rows);
      if system.alone {
        ReadyRound(Looked(head), chainId, page, ready, i, db, middle, Db(), sent, sentMiddle, system.client.sent,
                   clean, !system.repo.faulted);
      }
    }

    /** The rows that are deep enough, one after the other. */
    method HandleAllReady(page: seq<Transaction>, ready: seq<Transaction>, head: Uint64,
                          found: map<TxHash, Receipt>, ghost rows: map<TxId, Transaction>)
      requires At(rows) && Remembers(rows, ready, Included)
      requires forall t :: t in ready ==>
                 IsReady(confirmationBlocks, head, t) && Looked(head).Lookup(t) == FindReceipt(found, t)
      requires InReady(page, ready, 0, head, Db(), system.client.sent)
      modifies system`world, system.repo, system.client`sent, system.client`calls, system.client`sends
      ensures At(rows) && InReady(page, ready, |ready|, head, old(Db()), old(system.client.sent))
      ensures system.FaultsKept()
    {
      ghost var db, sent := Db(), system.client.sent;
      for i := 0 to |ready|
        invariant At(rows) && InReady(page, ready, i, head, db, sent)
        invariant system.FaultsKept()
      {
        HandleOneReady(page, ready, i, head, found, rows, db, sent);
      }
    }

    /** One chunk of pollIncluded. */
    method IncludedChunk(page: seq<Transaction>, head: Uint64, ghost rows: map<TxId, Transaction>) returns (ok: bool)
      requires At(rows) && Remembers(rows, page, Included) && confirmationBlocks != 0
      requires system.alone ==>
                 FreshPage(page, chainId, Db()) && forall i, j :: 0 <= i < j < |page| ==> page[i].id < page[j].id
      modifies system`world, system.repo, system.client`faulted
      modifies system.client`sent, system.client`calls, system.client`sends
      ensures At(rows)
      ensures system.FaultsKept() && (!ok ==> system.client.faulted)
      ensures system.alone ==> TouchesOnlyPage(page, old(Db()), Db())
      ensures system.alone && !ok ==> Db() == old(Db()) && system.client.sent == old(system.client.sent)
      ensures Calm() && ok ==> ChunkDone(Looked(head), page, old(Db()), Db())
      ensures system.alone ==>
                ChunkSent(Looked(head), page, old(Db()), old(system.client.sent), system.client.sent,
                          ok && !system.repo.faulted)
    {
      var ready, hashes := FilterReady(page, head);
      ok := true;
      var found: map<TxHash, Receipt> := map[];
      if |ready| > 0 {
        found, ok := system.client.BatchTransactionReceipts(hashes);
        if !ok { return; }
      }
      ghost var db, sent := Db(), system.client.sent;
      system.Others(ThePoller(chainId));
      HandleAllReady(page, ready, head, found, rows);
      if system.alone {
        ReadyEnds(Looked(head), chainId, page, ready, db, Db(), sent, system.client.sent, !system.repo.faulted);
      }
    }

    /** One round of pollIncluded's loop: read a page, handle its chunk. */
    method IncludedPage(ghost db: Db, after: Option<TxId>, head: Uint64, ghost seen: map<TxId, Transaction>)
      returns (page: seq<Transaction>, ok: bool, ghost rows: map<TxId, Transaction>)
      requires At(seen) && confirmationBlocks != 0
      requires system.alone ==> AboveIsFresh(db, Db(), after)
      modifies system`world, system.repo, system.client`faulted
      modifies system.client`sent, system.client`calls, system.client`sends
      ensures At(rows)
      ensures system.FaultsKept() && (!ok ==> system.Faulted())
      ensures system.alone ==>
                if ok then PageRechecked(Looked(head), chainId, receiptChunkSize, after, page, old(Db()), Db(),
                                         old(system.client.sent), system.client.sent, !system.repo.faulted)
                else Db() == old(Db()) && system.client.sent == old(system.client.sent)
    {
      ghost var middle := Db();
      page, ok, rows := ReadPage(Included, after, seen);
      if !ok || |page| == 0 { page := []; return; }
      if system.alone {
        PageIsOfThisPass(Looked(head), chainId, receiptChunkSize, db, middle, after, page);
      }
      ok := IncludedChunk(page, head, rows);
    }

    /** pollIncluded. The same statement as for pollSubmitted, for any final hashes, and besides: the
        transactions sent again are exactly the latest attempts of the rows that lost their receipt. */
    method PollIncluded(ghost seen: map<TxId, Transaction>)
      returns (done: bool, ghost cursor: Option<TxId>, ghost rows: map<TxId, Transaction>)
      requires At(seen) && receiptChunkSize >= 1
      modifies system`world, system.repo, system.client`faulted
      modifies system.client`sent, system.client`calls, system.client`sends
      ensures At(rows)
      ensures system.FaultsKept() && (system.alone && !done ==> system.Faulted())
      ensures system.alone ==>
                IncludedScan(Looked(system.client.head), chainId, old(Db()), Db(), old(system.client.sent),
                             system.client.sent, cursor, done, !system.repo.faulted)
    {
      ghost var db, sent := Db(), system.client.sent;
      rows := seen;
      if confirmationBlocks == 0 {
        NoDepthNoScan(Looked(system.client.head), chainId, db, sent, !system.repo.faulted);
        return true, None, rows;
      }
      var head, read := system.client.BlockNumber();
      if !read {
        NothingScanned(Looked(system.client.head), chainId, db, sent, !system.repo.faulted);
        return false, None, rows;
      }
      done, cursor, rows := ScanIncluded(head, seen);
      if system.alone {
        ScanResult(Looked(head), chainId, db, Db(), sent, system.client.sent, cursor, done, !system.repo.faulted);
      }
    }

    /** Undisturbed: how far the scan has come. */
    ghost predicate InScan(head: Uint64, db: Db, sent: set<Delivery>, after: Option<TxId>, done: bool)
      reads system.repo, system.client
    {
      system.alone ==>
        IncludedSoFar(Looked(head), chainId, db, Db(), sent, system.client.sent, after, done, !system.repo.faulted)
    }

    /** One round of the loop; `more` unless the page was the last one. */
    method ScanIncludedPage(head: Uint64, after: Option<TxId>, ghost seen: map<TxId, Transaction>, ghost db: Db,
                            ghost sent: set<Delivery>)
      returns (next: Option<TxId>, more: bool, ok: bool, ghost rows: map<TxId, Transaction>)
      requires At(seen) && receiptChunkSize >= 1 && confirmationBlocks != 0 && InScan(head, db, sent, after, false)
      modifies system`world, system.repo, system.client`faulted
      modifies system.client`sent, system.client`calls, system.client`sends
      ensures At(rows) && InScan(head, db, sent, next, ok && !more)
      ensures system.FaultsKept() && (!ok ==> system.Faulted())
      ensures system.alone && ok && more ==> Above(db, next) < Above(db, after)
    {
      next, more := after, false;
      ghost var middle, sentMiddle, clean := Db(), system.client.sent, !system.repo.faulted;
      var page;
      page, ok, rows := IncludedPage(db, after, head, seen);
      if !ok { return; }
      if system.alone {
        IncludedRound(Looked(head), chainId, receiptChunkSize, db, middle, Db(), sent, sentMiddle,
                      system.client.sent, after, page, clean, !system.repo.faulted);
      }
      if |page| == 0 { return; }
      next, more := CursorAfter(page), |page| >= receiptChunkSize;
    }

    method ScanIncluded(head: Uint64, ghost seen: map<TxId, Transaction>)
      returns (done: bool, ghost cursor: Option<TxId>, ghost rows: map<TxId, Transaction>)
      requires At(seen) && receiptChunkSize >= 1 && confirmationBlocks != 0
      modifies system`world, system.repo, system.client`faulted
      modifies system.client`sent, system.client`calls, system.client`sends
      ensures At(rows) && InScan(head, old(Db()), old(system.client.sent), cursor, done)
      ensures system.FaultsKept() && (system.alone && !done ==> system.Faulted())
    {
      ghost var db, sent := Db(), system.client.sent;
      rows := seen;
      var after: Option<TxId> := None;
      var pages := PagesUntilStopped();
      IncludedStarts(Looked(head), chainId, db, sent, !system.repo.faulted);
      while true
        invariant At(rows) && InScan(head, db, sent, after, false)
        invariant system.FaultsKept()
        decreases if system.alone then Above(db, after) else {}, pages
      {
        if !system.alone {
          if pages == 0 { return false, after, rows; }
          pages := pages - 1;
        }
        var next, more, ok;
        next, more, ok, rows := ScanIncludedPage(head, after, rows, db, sent);
        if !ok || !more {
          return ok, next, rows;
        }
        after := next;
      }
    }
  }

  /** The poller has read every row of the page, with this status. */
  ghost predicate Remembers(rows: map<TxId, Transaction>, page: seq<Transaction>, status: TxStatus) {
    forall t :: t in page ==> t.id in rows && rows[t.id] == t && t.status == status
  }

  ghost predicate IsCurrent(t: Transaction, db: Db) {
    t.id in db.txs && db.txs[t.id] == t
  }

  predicate Readable(db: Db, chainId: nat, ids: set<TxId>) {
    forall id :: id in ids ==>
      id in db.txs && db.txs[id].pair.chainId == chainId && db.txs[id].status in {Submitted, Included}
  }

  lemma PageIsReadable(db: Db, page: seq<Transaction>, status: TxStatus, chainId: nat, limit: nat,
                       after: Option<TxId>, ids: set<TxId>)
    requires db.IsPage(page, status, chainId, limit, after) && ids == set t | t in page :: t.id
    requires status in {Submitted, Included}
    ensures Readable(db, chainId, ids)
    ensures Remembers(map id | id in ids :: db.txs[id], page, status)
  {
  }

  /** The transaction's attempts are these now, the rest of it is as it was. */
  ghost predicate MarkedTo(db: Db, d: Db, id: TxId, attempts: seq<Attempt>) {
    id in db.txs && id in d.txs && d.EntityOf(id) == db.EntityOf(id).(attempts := attempts)
  }

  function BackToSubmitted(e: Entity, actor: Actor): Entity {
    Entity(ClearReceipt(e.tx), e.attempts, L.Logged(e, Included, Submitted, actor))
  }

  /** The row's outcome is that of a receipt that is gone. */
  ghost predicate GoneIn(k: int, head: Uint64, id: TxId, db: Db, d: Db) {
    id in db.txs && id in d.txs && RecheckedTo(k, head, db.EntityOf(id), None, d.EntityOf(id))
  }

  lemma BackIsRechecked(k: int, head: Uint64, e: Entity, actor: Actor)
    requires IsReady(k, head, e.tx) && actor == PollerOf(e.tx.pair.chainId)
    ensures RecheckedTo(k, head, e, None, BackToSubmitted(e, actor))
  {
  }

  lemma RevertedAndLogged(db: Db, id: TxId, actor: Actor)
    requires id in db.txs
    ensures var d := db.RevertToSubmitted(id).LogTransition(id, LogEntry(Some(Included), Submitted, actor));
            && OnlyChanges(db, d, id) && d.AttemptsOf(id) == db.AttemptsOf(id)
            && d.EntityOf(id) == BackToSubmitted(db.EntityOf(id), actor)
  {
    PutTouches(db, id, ClearReceipt(db.txs[id]));
    LogTouches(db.RevertToSubmitted(id), id, LogEntry(Some(Included), Submitted, actor));
  }

  lemma MarkedAndLogged(db: Db, id: TxId, from: TxStatus, status: TxStatus, hash: TxHash, r: Receipt, actor: Actor)
    requires id in db.txs
    ensures var d := db.MarkWithReceipt(id, status, hash, r).LogTransition(id, LogEntry(Some(from), status, actor));
            && OnlyChanges(db, d, id) && d.AttemptsOf(id) == db.AttemptsOf(id)
            && d.EntityOf(id) == Entity(SetReceipt(db.txs[id], status, hash, r), db.AttemptsOf(id),
                                        L.Logged(db.EntityOf(id), from, status, actor))
  {
    PutTouches(db, id, SetReceipt(db.txs[id], status, hash, r));
    LogTouches(db.MarkWithReceipt(id, status, hash, r), id, LogEntry(Some(from), status, actor));
  }
}