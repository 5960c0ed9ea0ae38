/** What the receipt poller's paged scans amount to: passes over rows whose status the scan itself
    changes (internal/pipeline/receipt.go). */
module Passes {
  import opened Domain
  import opened Tables
  import opened Attempts
  import opened Lifecycle
  import opened Repository

  function FindReceipt(receipts: map<TxHash, Receipt>, t: Transaction): Option<Receipt> {
    if t.finalHash.Some? && t.finalHash.value in receipts
    then Some(receipts[t.finalHash.value]) else None
  }

  // ---- one unpaged pass, as a specification ----

  /** A pass over all SUBMITTED rows, or over all INCLUDED rows, with the node's answers fixed. */
  datatype Pass =
    | SubmittedPass(k: int, receipts: map<TxHash, Receipt>)
    | IncludedPass(k: int, receipts: map<TxHash, Receipt>, head: Uint64)
  {
    function Status(): TxStatus {
      if SubmittedPass? then Submitted else Included
    }

    function Lookup(t: Transaction): Option<Receipt> {
      FindReceipt(receipts, t)
    }

    /** What the pass makes of one row and of the attempts and audit entries that belong to it. */
    ghost function Effect(e: Entity): Entity {
      if IncludedPass? then AfterRecheck(k, head, e, Lookup(e.tx))
      else if Lookup(e.tx).Some? then AfterReceipt(k, e, Lookup(e.tx).value)
      else e
    }

    /** Every row of the chain in the pass's status with an id up to the cursor was handled once, from
        the state it had at the start; no other row changed. */
    ghost predicate HandledUpTo(chainId: nat, before: Db, after: Db, cursor: Option<TxId>) {
      && after.txs.Keys == before.txs.Keys && after.cursors == before.cursors
      && forall id :: id in before.txs ==>
           after.EntityOf(id)
           == if before.Matches(id, Status(), chainId, None) && cursor.Some? && id <= cursor.value
              then Effect(before.EntityOf(id)) else before.EntityOf(id)
    }

    /** The whole pass at once. */
    ghost predicate Handled(chainId: nat, before: Db, after: Db) {
      && after.txs.Keys == before.txs.Keys && after.cursors == before.cursors
      && forall id :: id in before.txs ==>
           after.EntityOf(id)
           == if before.Matches(id, Status(), chainId, None)
              then Effect(before.EntityOf(id)) else before.EntityOf(id)
    }

    /** Rows outside the pass keep everything, whatever fails. */
    ghost predicate LeavesOthersAlone(chainId: nat, before: Db, after: Db) {
      && after.txs.Keys == before.txs.Keys && after.cursors == before.cursors
      && forall id :: id in before.txs && !before.Matches(id, Status(), chainId, None) ==>
           after.EntityOf(id) == before.EntityOf(id)
    }
  }

  /** A pass moves every row of its own by at most one Poll or Recheck of the row's life, so tables
      whose rows are sound stay so. */
  lemma PassIsOneMoveEach(p: Pass, chainId: nat, before: Db, after: Db, id: TxId) returns (m: Move)
    requires p.Handled(chainId, before, after) && id in before.txs && Sound(before.EntityOf(id))
    ensures Sound(after.EntityOf(id))
    ensures var (e, e') := (before.EntityOf(id), after.EntityOf(id));
            || e' == e
            || (&& before.Matches(id, p.Status(), chainId, None) && (m.Poll? || m.Recheck?)
                && CanMove(e, m) && e' == Act(p.k, e, m))
  {
    var e := before.EntityOf(id);
    m := Restart;
    if before.Matches(id, p.Status(), chainId, None) {
      if p.IncludedPass? {
        m := Recheck(p.head, p.Lookup(e.tx));
        ActKeepsSound(p.k, e, m);
      } else if p.Lookup(e.tx).Some? {
        m := Poll(p.Lookup(e.tx).value);
        ActKeepsSound(p.k, e, m);
      }
    }
  }

  /** With the node's answers fixed, a second pass over the SUBMITTED rows changes nothing. */
  lemma SubmittedPassTwice(p: Pass, chainId: nat, before: Db, middle: Db, after: Db, id: TxId)
    requires p.SubmittedPass? && p.Handled(chainId, before, middle) && p.Handled(chainId, middle, after)
    requires id in before.txs
    ensures after.EntityOf(id) == middle.EntityOf(id)
  {
    var e := before.EntityOf(id);
    if before.Matches(id, Submitted, chainId, None) && p.Lookup(e.tx).Some? {
      assert middle.txs[id] == middle.EntityOf(id).tx;
    } else {
      assert middle.EntityOf(id) == e && middle.txs[id] == e.tx;
    }
  }

  ghost predicate OnPage(page: seq<Transaction>, id: TxId) {
    exists i :: 0 <= i < |page| && page[i].id == id
  }

  ghost predicate Covers(cursor: Option<TxId>, status: TxStatus, chainId: nat, db: Db) {
    forall id: TxId :: db.Matches(id, status, chainId, None) ==> cursor.Some? && id <= cursor.value
  }

  /** The chunk's effect: rows on the page are handled, the rest is as it was. */
  ghost predicate ChunkDone(p: Pass, page: seq<Transaction>, before: Db, after: Db) {
    && after.txs.Keys == before.txs.Keys && after.cursors == before.cursors
    && forall id :: id in before.txs ==>
         after.EntityOf(id)
         == if OnPage(page, id) then p.Effect(before.EntityOf(id)) else before.EntityOf(id)
  }

  function CursorAfter(page: seq<Transaction>): Option<TxId>
    requires page != []
  {
    Some(page[|page| - 1].id)
  }

  /** No row above the cursor has been touched yet. */
  ghost predicate AboveIsFresh(before: Db, now: Db, cursor: Option<TxId>) {
    && now.txs.Keys == before.txs.Keys
    && forall id :: id in before.txs && (cursor.None? || cursor.value < id) ==>
         now.EntityOf(id) == before.EntityOf(id)
  }

  /** Rows leave the status while the scan runs, but only at or below the cursor; the next page
      therefore starts exactly where the handled rows end. */
  lemma ChunkAdvances(p: Pass, chainId: nat, limit: nat, before: Db, middle: Db, after: Db,
                      cursor: Option<TxId>, page: seq<Transaction>)
    requires p.HandledUpTo(chainId, before, middle, cursor)
    requires middle.IsPage(page, p.Status(), chainId, limit, cursor) && page != []
    requires ChunkDone(p, page, middle, after)
    ensures p.HandledUpTo(chainId, before, after, CursorAfter(page))
  {
    forall id | id in before.txs
      ensures after.EntityOf(id)
              == if before.Matches(id, p.Status(), chainId, None) && id <= page[|page| - 1].id
                 then p.Effect(before.EntityOf(id)) else before.EntityOf(id)
    {
      PageIsNextRows(p, chainId, limit, before, middle, cursor, page, id);
    }
  }

  /** A page holds the unhandled rows of the pass up to its last row. */
  lemma PageIsNextRows(p: Pass, chainId: nat, limit: nat, before: Db, middle: Db,
                       cursor: Option<TxId>, page: seq<Transaction>, id: TxId)
    requires p.HandledUpTo(chainId, before, middle, cursor) && id in before.txs
    requires middle.IsPage(page, p.Status(), chainId, limit, cursor) && page != []
    ensures OnPage(page, id) <==>
              && before.Matches(id, p.Status(), chainId, None) && (cursor.Some? ==> cursor.value < id)
              && id <= page[|page| - 1].id
    ensures cursor.Some? ==> cursor.value < page[|page| - 1].id
  {
    assert middle.Matches(page[|page| - 1].id, p.Status(), chainId, cursor);
    if cursor.None? || cursor.value < id {
      assert middle.EntityOf(id) == before.EntityOf(id);
      assert middle.Matches(id, p.Status(), chainId, cursor) <==> before.Matches(id, p.Status(), chainId, None);
    }
    if OnPage(page, id) {
      var i :| 0 <= i < |page| && page[i].id == id;
      assert middle.Matches(page[i].id, p.Status(), chainId, cursor);
    }
  }

  /** A page that is not full is the last one. */
  lemma ShortPageCovers(p: Pass, chainId: nat, limit: nat, before: Db, middle: Db,
                        cursor: Option<TxId>, page: seq<Transaction>)
    requires AboveIsFresh(before, middle, cursor)
    requires middle.IsPage(page, p.Status(), chainId, limit, cursor) && |page| < limit
    ensures Covers(if page == [] then cursor else CursorAfter(page), p.Status(), chainId, before)
  {
    var last := if page == [] then cursor else CursorAfter(page);
    if page != [] {
      assert middle.Matches(page[|page| - 1].id, p.Status(), chainId, cursor);
    }
    forall id: TxId | before.Matches(id, p.Status(), chainId, None)
      ensures last.Some? && id <= last.value
    {
      if cursor.None? || cursor.value < id {
        assert middle.EntityOf(id) == before.EntityOf(id);
        assert middle.Matches(id, p.Status(), chainId, cursor);
        var i :| 0 <= i < |page| && page[i].id == id;
        assert i < |page| - 1 ==> page[i].id < page[|page| - 1].id;
      }
    }
  }

  lemma CoveredMeansHandled(p: Pass, chainId: nat, before: Db, after: Db, cursor: Option<TxId>)
    requires p.HandledUpTo(chainId, before, after, cursor)
    requires Covers(cursor, p.Status(), chainId, before)
    ensures p.Handled(chainId, before, after)
  {
  }

  // ---- statements touch one transaction at a time ----

  ghost predicate OnlyChanges(before: Db, after: Db, id: TxId) {
    && after.txs.Keys == before.txs.Keys && after.cursors == before.cursors
    && forall j :: j in before.txs && j != id ==> after.EntityOf(j) == before.EntityOf(j)
  }

  lemma PutTouches(db: Db, id: TxId, row: Transaction)
    requires id in db.txs
    ensures OnlyChanges(db, db.Put(id, row), id)
    ensures db.Put(id, row).EntityOf(id) == db.EntityOf(id).(tx := row)
  {
  }

  lemma LogTouches(db: Db, id: TxId, e: LogEntry)
    requires id in db.txs
    ensures OnlyChanges(db, db.LogTransition(id, e), id)
    ensures db.LogTransition(id, e).EntityOf(id)
            == db.EntityOf(id).(log := db.EntityOf(id).log + [e])
  {
  }

  lemma MarkAttemptTouches(db: Db, id: TxId, n: nat, status: AttemptStatus)
    requires id in db.txs
    ensures OnlyChanges(db, db.MarkAttempt(id, n, status), id)
    ensures db.MarkAttempt(id, n, status).EntityOf(id)
            == db.EntityOf(id).(attempts := SetAttemptStatus(db.AttemptsOf(id), n, status))
  {
  }

  // ---- one row ----

  function Recorded(e: Entity, from: TxStatus, status: TxStatus, hash: TxHash, r: Receipt, actor: Actor): Entity {
    Entity(SetReceipt(e.tx, status, hash, r),
           if status == Confirmed then ConfirmAttempts(e.attempts, hash) else e.attempts,
           Logged(e, from, status, actor))
  }

  // ---- a page and its chunk ----

  ghost predicate DistinctFinals(page: seq<Transaction>) {
    forall i, j :: 0 <= i < j < |page| && page[i].finalHash.Some? ==> page[i].finalHash != page[j].finalHash
  }

  ghost predicate Indexes(m: map<TxHash, Transaction>, page: seq<Transaction>) {
    && (forall h :: h in m ==> m[h] in page && m[h].finalHash == Some(h))
    && (forall j :: 0 <= j < |page| && page[j].finalHash.Some? ==>
          page[j].finalHash.value in m && m[page[j].finalHash.value] == page[j])
  }

  ghost predicate TouchesOnlyPage(page: seq<Transaction>, before: Db, after: Db) {
    && after.txs.Keys == before.txs.Keys && after.cursors == before.cursors
    && forall id :: id in before.txs && !OnPage(page, id) ==> after.EntityOf(id) == before.EntityOf(id)
  }

  ghost predicate FreshPage(page: seq<Transaction>, chainId: nat, db: Db) {
    forall i :: 0 <= i < |page| ==>
      page[i].id in db.txs && db.txs[page[i].id] == page[i] && page[i].pair.chainId == chainId
  }

  /** Final hashes tell the chain's SUBMITTED rows apart. */
  ghost predicate DistinctFinalHashes(chainId: nat, db: Db) {
    forall i: TxId, j: TxId ::
      (db.Matches(i, Submitted, chainId, None) && db.Matches(j, Submitted, chainId, None)
       && db.txs[i].finalHash.Some? && db.txs[i].finalHash == db.txs[j].finalHash) ==> i == j
  }

  /** The state of a scan: rows above the cursor and rows outside the pass are untouched; if no
      write failed, the rows up to the cursor are handled. */
  ghost predicate ScanSoFar(p: Pass, chainId: nat, before: Db, now: Db, cursor: Option<TxId>, clean: bool) {
    && p.LeavesOthersAlone(chainId, before, now)
    && AboveIsFresh(before, now, cursor)
    && (clean ==> p.HandledUpTo(chainId, before, now, cursor))
  }

  ghost function Above(db: Db, cursor: Option<TxId>): set<TxId> {
    set id | id in db.txs && (cursor.None? || cursor.value < id)
  }

  /** The page holds rows of the pass that the scan has not touched yet. */
  lemma PageIsOfThisPass(p: Pass, chainId: nat, limit: nat, before: Db, middle: Db,
                         cursor: Option<TxId>, page: seq<Transaction>)
    requires AboveIsFresh(before, middle, cursor)
    requires middle.IsPage(page, p.Status(), chainId, limit, cursor)
    ensures FreshPage(page, chainId, middle) && FreshPage(page, chainId, before)
    ensures forall i :: 0 <= i < |page| ==>
              && before.Matches(page[i].id, p.Status(), chainId, None)
              && (cursor.None? || cursor.value < page[i].id)
  {
    forall i | 0 <= i < |page|
      ensures before.Matches(page[i].id, p.Status(), chainId, None)
      ensures cursor.None? || cursor.value < page[i].id
      ensures before.txs[page[i].id] == page[i]
    {
      assert middle.Matches(page[i].id, p.Status(), chainId, cursor);
      assert middle.EntityOf(page[i].id) == before.EntityOf(page[i].id);
    }
  }

  lemma PageHashesDistinct(chainId: nat, before: Db, page: seq<Transaction>)
    requires DistinctFinalHashes(chainId, before) && FreshPage(page, chainId, before)
    requires forall i :: 0 <= i < |page| ==> before.Matches(page[i].id, Submitted, chainId, None)
    requires forall i, j :: 0 <= i < j < |page| ==> page[i].id < page[j].id
    ensures DistinctFinals(page)
  {
  }

  lemma FrameStep(p: Pass, chainId: nat, limit: nat, before: Db, middle: Db, after: Db,
                  cursor: Option<TxId>, page: seq<Transaction>)
    requires p.LeavesOthersAlone(chainId, before, middle) && AboveIsFresh(before, middle, cursor)
    requires middle.IsPage(page, p.Status(), chainId, limit, cursor) && page != []
    requires TouchesOnlyPage(page, middle, after)
    ensures p.LeavesOthersAlone(chainId, before, after)
    ensures AboveIsFresh(before, after, CursorAfter(page))
  {
    PageIsUpToTheCursor(p, chainId, limit, before, middle, cursor, page);
    forall id | id in before.txs && (CursorAfter(page).value < id || !before.Matches(id, p.Status(), chainId, None))
      ensures after.EntityOf(id) == middle.EntityOf(id)
    {
      assert !OnPage(page, id);
    }
  }

  lemma PageIsUpToTheCursor(p: Pass, chainId: nat, limit: nat, before: Db, middle: Db,
                            cursor: Option<TxId>, page: seq<Transaction>)
    requires AboveIsFresh(before, middle, cursor)
    requires middle.IsPage(page, p.Status(), chainId, limit, cursor) && page != []
    ensures cursor.Some? ==> cursor.value < page[|page| - 1].id
    ensures forall id: TxId :: OnPage(page, id) ==>
              && id <= page[|page| - 1].id && before.Matches(id, p.Status(), chainId, None)
              && SameEntity(before, middle, id)
  {
    PageIsOfThisPass(p, chainId, limit, before, middle, cursor, page);
    forall id: TxId | OnPage(page, id)
      ensures id <= page[|page| - 1].id && before.Matches(id, p.Status(), chainId, None)
      ensures SameEntity(before, middle, id)
    {
      var i :| 0 <= i < |page| && page[i].id == id;
      assert i < |page| - 1 ==> page[i].id < page[|page| - 1].id;
      assert middle.EntityOf(id) == before.EntityOf(id);
    }
  }

  /** The scan's measure: the rows above the cursor. */
  lemma CursorMoves(p: Pass, chainId: nat, limit: nat, before: Db, middle: Db, cursor: Option<TxId>,
                    page: seq<Transaction>)
    requires AboveIsFresh(before, middle, cursor)
    requires middle.IsPage(page, p.Status(), chainId, limit, cursor) && page != []
    ensures Above(before, CursorAfter(page)) < Above(before, cursor)
  {
    PageIsOfThisPass(p, chainId, limit, before, middle, cursor, page);
    var last := page[|page| - 1].id;
    assert last in Above(before, cursor) && last !in Above(before, CursorAfter(page));
  }

  lemma ScanStep(p: Pass, chainId: nat, limit: nat, before: Db, middle: Db, after: Db,
                 cursor: Option<TxId>, page: seq<Transaction>, clean: bool)
    requires ScanSoFar(p, chainId, before, middle, cursor, clean)
    requires middle.IsPage(page, p.Status(), chainId, limit, cursor) && page != []
    requires TouchesOnlyPage(page, middle, after)
    requires clean ==> ChunkDone(p, page, middle, after)
    ensures ScanSoFar(p, chainId, before, after, CursorAfter(page), clean)
  {
    FrameStep(p, chainId, limit, before, middle, after, cursor, page);
    if clean {
      ChunkAdvances(p, chainId, limit, before, middle, after, cursor, page);
    }
  }

  function NextCursor(cursor: Option<TxId>, page: seq<Transaction>): Option<TxId> {
    if page == [] then cursor else CursorAfter(page)
  }

  /** One round of a scan: the handled prefix grows by the page; a page that is not full ends it. */
  lemma ScanRound(p: Pass, chainId: nat, limit: nat, before: Db, middle: Db, after: Db,
                  cursor: Option<TxId>, page: seq<Transaction>, clean: bool)
    requires ScanSoFar(p, chainId, before, middle, cursor, clean) && limit >= 1
    requires middle.IsPage(page, p.Status(), chainId, limit, cursor)
    requires TouchesOnlyPage(page, middle, after) && (page == [] ==> after == middle)
    requires clean ==> ChunkDone(p, page, middle, after)
    ensures ScanSoFar(p, chainId, before, after, NextCursor(cursor, page), clean)
    ensures page != [] ==> Above(before, NextCursor(cursor, page)) < Above(before, cursor)
    ensures |page| < limit ==> Covers(NextCursor(cursor, page), p.Status(), chainId, before)
    ensures |page| < limit && clean ==> p.Handled(chainId, before, after)
  {
    if page != [] {
      ScanStep(p, chainId, limit, before, middle, after, cursor, page, clean);
      CursorMoves(p, chainId, limit, before, middle, cursor, page);
    }
    if |page| < limit {
      ShortPageCovers(p, chainId, limit, before, middle, cursor, page);
      if clean { CoveredMeansHandled(p, chainId, before, after, NextCursor(cursor, page)); }
    }
  }

  // ---- rounds of pollSubmitted ----

  /** The scan of SUBMITTED rows up to the cursor, `done` when it has seen them all. */
  ghost predicate SubmittedSoFar(p: Pass, chainId: nat, before: Db, now: Db, cursor: Option<TxId>, done: bool,
                                 clean: bool)
  {
    && ScanSoFar(p, chainId, before, now, cursor, clean)
    && (done && clean ==> p.Handled(chainId, before, now))
  }

  lemma SubmittedStarts(p: Pass, chainId: nat, db: Db, clean: bool)
    ensures SubmittedSoFar(p, chainId, db, db, None, false, clean)
  {
  }

  lemma SubmittedRound(p: Pass, chainId: nat, limit: nat, before: Db, middle: Db, after: Db, cursor: Option<TxId>,
                       page: seq<Transaction>, clean: bool, stillClean: bool)
    requires SubmittedSoFar(p, chainId, before, middle, cursor, false, clean) && limit >= 1
    requires middle.IsPage(page, p.Status(), chainId, limit, cursor)
    requires TouchesOnlyPage(page, middle, after) && (page == [] ==> after == middle)
    requires stillClean ==> clean && ChunkDone(p, page, middle, after)
    ensures SubmittedSoFar(p, chainId, before, after, NextCursor(cursor, page), |page| < limit, stillClean)
    ensures page != [] ==> Above(before, NextCursor(cursor, page)) < Above(before, cursor)
  {
    ScanRound(p, chainId, limit, before, middle, after, cursor, page, stillClean);
  }

  // ---- inside a chunk of pollSubmitted ----

  ghost predicate SameEntity(before: Db, now: Db, id: TxId) {
    id in before.txs && id in now.txs && now.EntityOf(id) == before.EntityOf(id)
  }

  ghost predicate HandledEntity(p: Pass, before: Db, now: Db, t: Transaction, r: Receipt) {
    && t.id in before.txs && t.id in now.txs && before.txs[t.id] == t && t.finalHash.Some?
    && now.EntityOf(t.id) == AfterReceipt(p.k, before.EntityOf(t.id), r)
  }

  /** Found receipts outside `rest` have been handled; every other row is as it was. */
  ghost predicate ChunkSoFar(p: Pass, m: map<TxHash, Transaction>, found: map<TxHash, Receipt>,
                             rest: set<TxHash>, before: Db, now: Db, clean: bool)
  {
    && now.txs.Keys == before.txs.Keys && now.cursors == before.cursors
    && (forall h :: h in found ==> h in m)
    && (forall h :: h in found && h in rest ==> SameEntity(before, now, m[h].id))
    && (clean ==> forall h :: h in found && h !in rest ==> HandledEntity(p, before, now, m[h], found[h]))
    && (forall id :: id in before.txs && (forall h :: h in found ==> m[h].id != id) ==>
          SameEntity(before, now, id))
  }

  lemma IndexedRow(page: seq<Transaction>, chainId: nat, db: Db, m: map<TxHash, Transaction>, h: TxHash)
    requires FreshPage(page, chainId, db) && Indexes(m, page) && h in m
    ensures m[h].id in db.txs && db.txs[m[h].id] == m[h] && m[h].finalHash == Some(h)
    ensures m[h].pair.chainId == chainId && OnPage(page, m[h].id)
  {
    var i :| 0 <= i < |page| && page[i] == m[h];
  }

  lemma ChunkStarts(p: Pass, chainId: nat, page: seq<Transaction>, m: map<TxHash, Transaction>,
                    found: map<TxHash, Receipt>, db: Db, clean: bool)
    requires FreshPage(page, chainId, db) && Indexes(m, page) && found.Keys <= m.Keys
    ensures ChunkSoFar(p, m, found, found.Keys, db, db, clean)
  {
    forall h | h in found ensures SameEntity(db, db, m[h].id) {
      IndexedRow(page, chainId, db, m, h);
    }
  }

  lemma FoundIsFresh(p: Pass, chainId: nat, page: seq<Transaction>, m: map<TxHash, Transaction>,
                     found: map<TxHash, Receipt>, rest: set<TxHash>, before: Db, now: Db, clean: bool, h: TxHash)
    requires FreshPage(page, chainId, before) && Indexes(m, page) && h in found && h in rest
    requires ChunkSoFar(p, m, found, rest, before, now, clean)
    ensures m[h].id in now.txs && now.txs[m[h].id] == m[h] && m[h].finalHash.Some?
    ensures m[h].pair.chainId == chainId
  {
    IndexedRow(page, chainId, before, m, h);
    assert SameEntity(before, now, m[h].id);
  }

  lemma StaysHandled(p: Pass, before: Db, middle: Db, after: Db, t: Transaction, r: Receipt)
    requires || (HandledEntity(p, before, middle, t, r) && SameEntity(middle, after, t.id))
             || (SameEntity(before, middle, t.id) && HandledEntity(p, middle, after, t, r))
    ensures HandledEntity(p, before, after, t, r)
  {
  }

  lemma ChunkStepAt(p: Pass, m: map<TxHash, Transaction>, found: map<TxHash, Receipt>, rest: set<TxHash>,
                    before: Db, middle: Db, after: Db, clean: bool, stillClean: bool, h: TxHash, g: TxHash)
    requires ChunkSoFar(p, m, found, rest, before, middle, clean)
    requires h in found && h in rest && g in found && (stillClean ==> clean)
    requires g != h ==> SameEntity(middle, after, m[g].id)
    requires stillClean ==> HandledEntity(p, middle, after, m[h], found[h])
    ensures g in rest && g != h ==> SameEntity(before, after, m[g].id)
    ensures stillClean && (g !in rest || g == h) ==> HandledEntity(p, before, after, m[g], found[g])
  {
    if g in rest {
      assert SameEntity(before, middle, m[g].id);
      if g == h && stillClean {
        StaysHandled(p, before, middle, after, m[g], found[g]);
      }
    } else if stillClean {
      assert HandledEntity(p, before, middle, m[g], found[g]);
      StaysHandled(p, before, middle, after, m[g], found[g]);
    }
  }

  lemma ChunkStep(p: Pass, chainId: nat, page: seq<Transaction>, m: map<TxHash, Transaction>,
                  found: map<TxHash, Receipt>, rest: set<TxHash>, before: Db, middle: Db, after: Db,
                  clean: bool, stillClean: bool, h: TxHash)
    requires FreshPage(page, chainId, before) && Indexes(m, page) && h in found && h in rest
    requires ChunkSoFar(p, m, found, rest, before, middle, clean)
    requires OnlyChanges(middle, after, m[h].id) && (stillClean ==> clean)
    requires stillClean ==> HandledEntity(p, middle, after, m[h], found[h])
    ensures ChunkSoFar(p, m, found, rest - {h}, before, after, stillClean)
  {
    IndexedRow(page, chainId, before, m, h);
    forall g | g in found
      ensures g in rest - {h} ==> SameEntity(before, after, m[g].id)
      ensures stillClean && g !in rest - {h} ==> HandledEntity(p, before, after, m[g], found[g])
    {
      IndexedRow(page, chainId, before, m, g);
      if g != h { assert SameEntity(middle, after, m[g].id); }
      ChunkStepAt(p, m, found, rest, before, middle, after, clean, stillClean, h, g);
    }
    forall id | id in before.txs && (forall g :: g in found ==> m[g].id != id)
      ensures SameEntity(before, after, id)
    {
      assert m[h].id != id && SameEntity(before, middle, id);
    }
  }

  /** A chunk of fresh rows, indexed by hash, in which the receipts outside `rest` are handled. */
  ghost predicate Chunk(p: Pass, chainId: nat, page: seq<Transaction>, m: map<TxHash, Transaction>,
                        found: map<TxHash, Receipt>, rest: set<TxHash>, before: Db, now: Db, clean: bool)
  {
    && FreshPage(page, chainId, before) && Indexes(m, page)
    && ChunkSoFar(p, m, found, rest, before, now, clean)
  }

  /** What handling one found receipt does. */
  ghost predicate FoundHandled(p: Pass, db: Db, d: Db, t: Transaction, r: Receipt, clean: bool) {
    && OnlyChanges(db, d, t.id)
    && (clean && t.id in db.txs && db.txs[t.id] == t ==> HandledEntity(p, db, d, t, r))
  }

  lemma ChunkRound(p: Pass, chainId: nat, page: seq<Transaction>, m: map<TxHash, Transaction>,
                   found: map<TxHash, Receipt>, rest: set<TxHash>, before: Db, middle: Db, after: Db,
                   clean: bool, stillClean: bool, h: TxHash)
    requires Chunk(p, chainId, page, m, found, rest, before, middle, clean) && h in found && h in rest
    requires FoundHandled(p, middle, after, m[h], found[h], stillClean) && (stillClean ==> clean)
    ensures Chunk(p, chainId, page, m, found, rest - {h}, before, after, stillClean)
  {
    FoundIsFresh(p, chainId, page, m, found, rest, before, middle, clean, h);
    ChunkStep(p, chainId, page, m, found, rest, before, middle, after, clean, stillClean, h);
  }

  lemma IndexedChunkIsDone(p: Pass, chainId: nat, page: seq<Transaction>, m: map<TxHash, Transaction>,
                           found: map<TxHash, Receipt>, before: Db, after: Db, clean: bool)
    requires p.SubmittedPass? && FreshPage(page, chainId, before) && Indexes(m, page)
    requires found == map h | h in m.Keys && h in p.receipts :: p.receipts[h]
    requires ChunkSoFar(p, m, found, {}, before, after, clean)
    ensures TouchesOnlyPage(page, before, after)
    ensures clean ==> ChunkDone(p, page, before, after)
  {
    forall h | h in found ensures OnPage(page, m[h].id) {
      IndexedRow(page, chainId, before, m, h);
    }
    if clean {
      forall id | id in before.txs
        ensures after.EntityOf(id)
                == if OnPage(page, id) then p.Effect(before.EntityOf(id)) else before.EntityOf(id)
      {
        if h :| h in found && m[h].id == id {
          IndexedRow(page, chainId, before, m, h);
          assert HandledEntity(p, before, after, m[h], found[h]);
        } else if OnPage(page, id) {
          var i :| 0 <= i < |page| && page[i].id == id;
          assert p.Lookup(page[i]).None?;
        }
      }
    }
  }

  // ---- inside a chunk of pollIncluded ----

  predicate IsReady(k: int, head: Uint64, t: Transaction) {
    k != 0 && t.blockNumber.Some? && DeepEnough(k, head, t.blockNumber.value)
  }

  ghost predicate ReadyOf(k: int, head: Uint64, page: seq<Transaction>, ready: seq<Transaction>) {
    && (forall t :: t in ready <==> t in page && t.blockNumber.Some? && DeepEnough(k, head, t.blockNumber.value))
    && (forall i, j :: 0 <= i < j < |ready| ==> ready[i].id < ready[j].id)
  }

  /** The first n ready rows are handled, every other row is as it was. */
  ghost predicate ReadySoFar(p: Pass, ready: seq<Transaction>, n: nat, before: Db, now: Db, clean: bool)
    requires n <= |ready|
  {
    && now.txs.Keys == before.txs.Keys && now.cursors == before.cursors
    && (forall i :: 0 <= i < n ==> ready[i].id in before.txs)
    && (clean ==> forall i :: 0 <= i < n ==> now.EntityOf(ready[i].id) == p.Effect(before.EntityOf(ready[i].id)))
    && (forall id :: id in before.txs && !OnPage(ready[..n], id) ==> SameEntity(before, now, id))
  }

  lemma NotYetOnPage(ready: seq<Transaction>, n: nat)
    requires n < |ready| && forall i, j :: 0 <= i < j < |ready| ==> ready[i].id < ready[j].id
    ensures !OnPage(ready[..n], ready[n].id)
  {
  }

  lemma ReadyIsFresh(p: Pass, chainId: nat, page: seq<Transaction>, ready: seq<Transaction>, n: nat,
                     before: Db, now: Db, clean: bool)
    requires p.IncludedPass? && p.k != 0 && n < |ready|
    requires FreshPage(page, chainId, before) && ReadyOf(p.k, p.head, page, ready)
    requires ReadySoFar(p, ready, n, before, now, clean)
    ensures ready[n].id in now.txs && now.txs[ready[n].id] == ready[n] == before.txs[ready[n].id]
    ensures ready[n].pair.chainId == chainId && IsReady(p.k, p.head, ready[n])
    ensures SameEntity(before, now, ready[n].id)
  {
    NotYetOnPage(ready, n);
    assert ready[n] in page;
    var i :| 0 <= i < |page| && page[i] == ready[n];
    assert SameEntity(before, now, ready[n].id);
  }

  lemma OnLongerPage(ready: seq<Transaction>, n: nat, id: TxId)
    requires n < |ready|
    ensures OnPage(ready[..n + 1], id) <==> OnPage(ready[..n], id) || ready[n].id == id
  {
    assert ready[..n + 1] == ready[..n] + [ready[n]];
    if i :| 0 <= i < n && ready[..n][i].id == id { assert ready[..n + 1][i].id == id; }
    if ready[n].id == id { assert ready[..n + 1][n].id == id; }
  }

  lemma ReadyStep(p: Pass, ready: seq<Transaction>, n: nat, before: Db, middle: Db, after: Db,
                  clean: bool, stillClean: bool)
    requires n < |ready| && forall i, j :: 0 <= i < j < |ready| ==> ready[i].id < ready[j].id
    requires ReadySoFar(p, ready, n, before, middle, clean) && (stillClean ==> clean)
    requires SameEntity(before, middle, ready[n].id) && OnlyChanges(middle, after, ready[n].id)
    requires stillClean ==> after.EntityOf(ready[n].id) == p.Effect(middle.EntityOf(ready[n].id))
    ensures ReadySoFar(p, ready, n + 1, before, after, stillClean)
  {
    forall i | 0 <= i < n + 1
      ensures ready[i].id in before.txs
      ensures stillClean ==> after.EntityOf(ready[i].id) == p.Effect(before.EntityOf(ready[i].id))
    {
      if i < n {
        assert ready[i].id < ready[n].id;
        assert after.EntityOf(ready[i].id) == middle.EntityOf(ready[i].id);
      } else {
        assert middle.EntityOf(ready[n].id) == before.EntityOf(ready[n].id);
      }
    }
    forall id | id in before.txs && !OnPage(ready[..n + 1], id) ensures SameEntity(before, after, id) {
      OnLongerPage(ready, n, id);
      assert SameEntity(before, middle, id);
    }
  }

  lemma ReadyChunkIsDone(p: Pass, page: seq<Transaction>, ready: seq<Transaction>, before: Db, after: Db, clean: bool)
    requires p.IncludedPass? && ReadyOf(p.k, p.head, page, ready)
    requires forall i :: 0 <= i < |page| ==> page[i].id in before.txs && before.txs[page[i].id] == page[i]
    requires ReadySoFar(p, ready, |ready|, before, after, clean)
    ensures TouchesOnlyPage(page, before, after)
    ensures clean ==> ChunkDone(p, page, before, after)
  {
    assert ready[..|ready|] == ready;
    forall id | id in before.txs && OnPage(ready, id) ensures OnPage(page, id) {
      var i :| 0 <= i < |ready| && ready[i].id == id;
      assert ready[i] in page;
    }
    forall id | id in before.txs && OnPage(page, id) && !OnPage(ready, id)
      ensures p.Effect(before.EntityOf(id)) == before.EntityOf(id)
    {
      var i :| 0 <= i < |page| && page[i].id == id;
      assert page[i] !in ready;
    }
  }

  // ---- what is sent again ----

  /** The row's inclusion is deep enough but its receipt is gone. */
  ghost predicate Reorged(p: Pass, e: Entity) {
    p.IncludedPass? && IsReady(p.k, p.head, e.tx) && p.Lookup(e.tx).None?
  }

  ghost predicate WasSent(sent: set<Delivery>, id: TxId, raw: SignedTx) {
    Delivery(id, raw, true) in sent || Delivery(id, raw, false) in sent
  }

  /** At most the row's latest attempt was sent, and only if it was to be; surely if nothing failed. */
  ghost predicate SentFor(db: Db, id: TxId, wanted: bool, before: set<Delivery>, after: set<Delivery>, clean: bool) {
    var s := db.AttemptsOf(id);
    && before <= after
    && (forall d :: d in after && d !in before ==> wanted && s != [] && d.id == id && d.raw == s[|s| - 1].raw)
    && (clean && wanted && s != [] ==> WasSent(after, id, s[|s| - 1].raw))
  }

  /** `d` sends the latest attempt of a reorganised row again. */
  ghost predicate Resends(p: Pass, db: Db, d: Delivery) {
    && d.id in db.txs && Reorged(p, db.EntityOf(d.id))
    && db.AttemptsOf(d.id) != [] && d.raw == db.AttemptsOf(d.id)[|db.AttemptsOf(d.id)| - 1].raw
  }

  ghost predicate ResentTo(db: Db, id: TxId, sent: set<Delivery>) {
    var s := db.AttemptsOf(id);
    s != [] ==> WasSent(sent, id, s[|s| - 1].raw)
  }

  ghost predicate ReadySent(p: Pass, ready: seq<Transaction>, n: nat, db: Db, before: set<Delivery>,
                            after: set<Delivery>, clean: bool)
    requires n <= |ready|
  {
    && before <= after
    && (forall d :: d in after && d !in before ==> Resends(p, db, d) && OnPage(ready[..n], d.id))
    && (clean ==> forall i :: 0 <= i < n && ready[i].id in db.txs && Reorged(p, db.EntityOf(ready[i].id)) ==>
                    ResentTo(db, ready[i].id, after))
  }

  lemma ReadySentStep(p: Pass, ready: seq<Transaction>, n: nat, db: Db, middle: Db, before: set<Delivery>,
                      sent: set<Delivery>, after: set<Delivery>, clean: bool, stillClean: bool)
    requires p.IncludedPass? && n < |ready| && ReadySent(p, ready, n, db, before, sent, clean)
    requires SameEntity(db, middle, ready[n].id) && db.txs[ready[n].id] == ready[n] && IsReady(p.k, p.head, ready[n])
    requires SentFor(middle, ready[n].id, p.Lookup(ready[n]).None?, sent, after, stillClean)
    requires stillClean ==> clean
    ensures ReadySent(p, ready, n + 1, db, before, after, stillClean)
  {
    var id := ready[n].id;
    SameAttempts(db, middle, id);
    forall d | d in after && d !in before ensures Resends(p, db, d) && OnPage(ready[..n + 1], d.id) {
      if d in sent {
        var i :| 0 <= i < n && ready[..n][i].id == d.id;
        assert ready[..n + 1][i].id == d.id;
      } else {
        assert ready[..n + 1][n].id == d.id;
      }
    }
    if stillClean {
      forall i | 0 <= i < n + 1 && ready[i].id in db.txs && Reorged(p, db.EntityOf(ready[i].id))
        ensures ResentTo(db, ready[i].id, after)
      {
        if i < n { assert ResentTo(db, ready[i].id, sent); }
      }
    }
  }

  ghost predicate ChunkSent(p: Pass, page: seq<Transaction>, db: Db, before: set<Delivery>,
                            after: set<Delivery>, clean: bool)
  {
    && before <= after
    && (forall d :: d in after && d !in before ==> Resends(p, db, d) && OnPage(page, d.id))
    && (clean ==> forall id :: id in db.txs && OnPage(page, id) && Reorged(p, db.EntityOf(id)) ==>
                    ResentTo(db, id, after))
  }

  lemma ReadySentIsChunkSent(p: Pass, page: seq<Transaction>, ready: seq<Transaction>, db: Db,
                             before: set<Delivery>, after: set<Delivery>, clean: bool)
    requires p.IncludedPass? && ReadyOf(p.k, p.head, page, ready)
    requires forall i :: 0 <= i < |page| ==> page[i].id in db.txs && db.txs[page[i].id] == page[i]
    requires ReadySent(p, ready, |ready|, db, before, after, clean)
    ensures ChunkSent(p, page, db, before, after, clean)
  {
    assert ready[..|ready|] == ready;
    forall d | d in after && d !in before ensures OnPage(page, d.id) {
      var i :| 0 <= i < |ready| && ready[i].id == d.id;
      assert ready[i] in page;
    }
    if clean {
      forall id | id in db.txs && OnPage(page, id) && Reorged(p, db.EntityOf(id))
        ensures ResentTo(db, id, after)
      {
        var i :| 0 <= i < |page| && page[i].id == id;
        assert page[i] in ready;
      }
    }
  }

  /** Up to the cursor: only latest attempts of reorganised rows were sent, and all of them were. */
  ghost predicate ScanSent(p: Pass, chainId: nat, db: Db, before: set<Delivery>, after: set<Delivery>,
                           cursor: Option<TxId>, clean: bool)
  {
    && before <= after
    && (forall d :: d in after && d !in before ==>
          Resends(p, db, d) && db.Matches(d.id, Included, chainId, None) && cursor.Some? && d.id <= cursor.value)
    && (clean ==> forall id: TxId ::
          (db.Matches(id, Included, chainId, None) && cursor.Some? && id <= cursor.value
           && Reorged(p, db.EntityOf(id))) ==> ResentTo(db, id, after))
  }

  lemma ScanSentStep(p: Pass, chainId: nat, limit: nat, db: Db, middle: Db, before: set<Delivery>,
                     sent: set<Delivery>, after: set<Delivery>, cursor: Option<TxId>,
                     page: seq<Transaction>, clean: bool, stillClean: bool)
    requires p.IncludedPass? && AboveIsFresh(db, middle, cursor)
    requires ScanSent(p, chainId, db, before, sent, cursor, clean) && (stillClean ==> clean)
    requires middle.IsPage(page, p.Status(), chainId, limit, cursor) && page != []
    requires ChunkSent(p, page, middle, sent, after, stillClean)
    ensures ScanSent(p, chainId, db, before, after, CursorAfter(page), stillClean)
  {
    var last := page[|page| - 1].id;
    PageIsUpToTheCursor(p, chainId, limit, db, middle, cursor, page);
    forall d | d in after && d !in before
      ensures Resends(p, db, d) && db.Matches(d.id, Included, chainId, None) && d.id <= last
    {
      if d !in sent {
        assert SameEntity(db, middle, d.id);
        SameAttempts(db, middle, d.id);
      }
    }
    if stillClean {
      forall id: TxId | db.Matches(id, Included, chainId, None) && id <= last && Reorged(p, db.EntityOf(id))
        ensures ResentTo(db, id, after)
      {
        if cursor.Some? && id <= cursor.value {
          assert ResentTo(db, id, sent);
        } else {
          NewlyResent(p, chainId, limit, db, middle, sent, after, cursor, page, id);
        }
      }
    }
  }

  lemma NewlyResent(p: Pass, chainId: nat, limit: nat, db: Db, middle: Db, sent: set<Delivery>,
                    after: set<Delivery>, cursor: Option<TxId>, page: seq<Transaction>, id: TxId)
    requires p.IncludedPass? && AboveIsFresh(db, middle, cursor)
    requires middle.IsPage(page, p.Status(), chainId, limit, cursor) && page != []
    requires ChunkSent(p, page, middle, sent, after, true)
    requires db.Matches(id, Included, chainId, cursor) && id <= page[|page| - 1].id && Reorged(p, db.EntityOf(id))
    ensures ResentTo(db, id, after)
  {
    assert middle.EntityOf(id) == db.EntityOf(id);
    assert middle.Matches(id, Included, chainId, cursor);
    assert ResentTo(middle, id, after);
    SameAttempts(db, middle, id);
  }

  lemma SameAttempts(before: Db, now: Db, id: TxId)
    requires SameEntity(before, now, id)
    ensures now.AttemptsOf(id) == before.AttemptsOf(id)
  {
    assert now.EntityOf(id).attempts == before.EntityOf(id).attempts;
  }

  /** The first n attempts marked. */
  function MarkedSoFar(s: seq<Attempt>, n: nat, hash: TxHash): seq<Attempt>
    requires n <= |s|
  {
    ConfirmAttempts(s[..n], hash) + s[n..]
  }

  function MarkedOne(s: seq<Attempt>, a: Attempt, hash: TxHash): seq<Attempt> {
    if a.Hash() == hash then SetAttemptStatus(s, a.number, AttemptConfirmed)
    else if a.status == Broadcast then SetAttemptStatus(s, a.number, Replaced)
    else s
  }

  lemma MarkOneMore(s: seq<Attempt>, i: nat, hash: TxHash)
    requires Ordered(s) && i < |s|
    ensures MarkedSoFar(s, i + 1, hash) == MarkedOne(MarkedSoFar(s, i, hash), s[i], hash)
  {
    var marked := MarkedSoFar(s, i, hash);
    assert forall j :: 0 <= j < |s| ==> marked[j].number == s[j].number;
  }

  // ---- rounds of pollIncluded ----

  /** A chunk of fresh rows of which the first n that are deep enough have been handled. */
  ghost predicate Ready(p: Pass, chainId: nat, page: seq<Transaction>, ready: seq<Transaction>, n: nat,
                        before: Db, now: Db, sent: set<Delivery>, sentNow: set<Delivery>, clean: bool)
  {
    && n <= |ready| && p.IncludedPass? && p.k != 0
    && FreshPage(page, chainId, before) && ReadyOf(p.k, p.head, page, ready)
    && ReadySoFar(p, ready, n, before, now, clean)
    && ReadySent(p, ready, n, before, sent, sentNow, clean)
  }

  /** What handling one deep enough row does. */
  ghost predicate Rechecked(p: Pass, t: Transaction, db: Db, d: Db, sent: set<Delivery>, sentNow: set<Delivery>,
                            clean: bool)
  {
    && OnlyChanges(db, d, t.id)
    && (clean ==> t.id in db.txs && t.id in d.txs && d.EntityOf(t.id) == p.Effect(db.EntityOf(t.id)))
    && SentFor(db, t.id, p.Lookup(t).None?, sent, sentNow, clean)
  }

  lemma ReadyRow(p: Pass, chainId: nat, page: seq<Transaction>, ready: seq<Transaction>, n: nat,
                 before: Db, now: Db, sent: set<Delivery>, sentNow: set<Delivery>, clean: bool)
    requires Ready(p, chainId, page, ready, n, before, now, sent, sentNow, clean) && n < |ready|
    ensures ready[n].id in now.txs && now.txs[ready[n].id] == ready[n] && IsReady(p.k, p.head, ready[n])
  {
    ReadyIsFresh(p, chainId, page, ready, n, before, now, clean);
  }

  lemma ReadyRound(p: Pass, chainId: nat, page: seq<Transaction>, ready: seq<Transaction>, n: nat,
                   before: Db, middle: Db, after: Db, sent: set<Delivery>, sentMiddle: set<Delivery>,
                   sentNow: set<Delivery>, clean: bool, stillClean: bool)
    requires Ready(p, chainId, page, ready, n, before, middle, sent, sentMiddle, clean) && n < |ready|
    requires Rechecked(p, ready[n], middle, after, sentMiddle, sentNow, stillClean) && (stillClean ==> clean)
    ensures Ready(p, chainId, page, ready, n + 1, before, after, sent, sentNow, stillClean)
  {
    ReadyIsFresh(p, chainId, page, ready, n, before, middle, clean);
    ReadyStep(p, ready, n, before, middle, after, clean, stillClean);
    ReadySentStep(p, ready, n, before, middle, sent, sentMiddle, sentNow, clean, stillClean);
  }

  lemma ReadyEnds(p: Pass, chainId: nat, page: seq<Transaction>, ready: seq<Transaction>, before: Db, now: Db,
                  sent: set<Delivery>, sentNow: set<Delivery>, clean: bool)
    requires Ready(p, chainId, page, ready, |ready|, before, now, sent, sentNow, clean)
    ensures TouchesOnlyPage(page, before, now) && (clean ==> ChunkDone(p, page, before, now))
    ensures ChunkSent(p, page, before, sent, sentNow, clean)
  {
    ReadyChunkIsDone(p, page, ready, before, now, clean);
    ReadySentIsChunkSent(p, page, ready, before, sent, sentNow, clean);
  }

  /** What one page of the scan of INCLUDED rows does. */
  ghost predicate PageRechecked(p: Pass, chainId: nat, limit: nat, cursor: Option<TxId>, page: seq<Transaction>,
                                db: Db, d: Db, sent: set<Delivery>, sentNow: set<Delivery>, clean: bool)
  {
    && db.IsPage(page, Included, chainId, limit, cursor) && TouchesOnlyPage(page, db, d)
    && (page == [] ==> d == db && sentNow == sent)
    && (clean ==> ChunkDone(p, page, db, d))
    && ChunkSent(p, page, db, sent, sentNow, clean)
  }

  /** The scan of INCLUDED rows up to the cursor, `done` when it has seen them all. */
  ghost predicate IncludedSoFar(p: Pass, chainId: nat, before: Db, now: Db, sent: set<Delivery>,
                                sentNow: set<Delivery>, cursor: Option<TxId>, done: bool, clean: bool)
  {
    && p.IncludedPass? && ScanSoFar(p, chainId, before, now, cursor, clean)
    && ScanSent(p, chainId, before, sent, sentNow, cursor, clean)
    && (done ==> Covers(cursor, Included, chainId, before) && (clean ==> p.Handled(chainId, before, now)))
  }

  lemma IncludedStarts(p: Pass, chainId: nat, db: Db, sent: set<Delivery>, clean: bool)
    requires p.IncludedPass?
    ensures IncludedSoFar(p, chainId, db, db, sent, sent, None, false, clean)
  {
  }

  lemma IncludedRound(p: Pass, chainId: nat, limit: nat, before: Db, middle: Db, after: Db, sent: set<Delivery>,
                      sentMiddle: set<Delivery>, sentNow: set<Delivery>, cursor: Option<TxId>,
                      page: seq<Transaction>, clean: bool, stillClean: bool)
    requires IncludedSoFar(p, chainId, before, middle, sent, sentMiddle, cursor, false, clean) && limit >= 1
    requires PageRechecked(p, chainId, limit, cursor, page, middle, after, sentMiddle, sentNow, stillClean)
    requires stillClean ==> clean
    ensures IncludedSoFar(p, chainId, before, after, sent, sentNow, NextCursor(cursor, page), |page| < limit,
                          stillClean)
    ensures page != [] ==> Above(before, NextCursor(cursor, page)) < Above(before, cursor)
  {
    ScanRound(p, chainId, limit, before, middle, after, cursor, page, stillClean);
    if page != [] {
      ScanSentStep(p, chainId, limit, before, middle, sent, sentMiddle, sentNow, cursor, page, clean, stillClean);
    }
  }
}
