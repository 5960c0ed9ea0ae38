/** Where the fine-grained protocol leaves the documented status graph. Status updates name the row by
    its id only, so a worker can write over a status it has not seen. */
module StaleWrites {
  import opened Domain
  import opened Tables
  import opened Attempts
  import opened Repository
  import opened Lifecycle
  import opened Protocol
  import opened Invariants
  import opened Collisions

  /** The copy of the row that the writing worker has in its memory, for steps that write a status. */
  function Remembered(w: World, e: Event): Option<Transaction> {
    match e
    case Submit(p, _, _) => if w.Pipe(p).Accepted? then Some(w.Pipe(p).tx) else None
    case Fail(p, _) => if w.Pipe(p).Failing? then Some(w.Pipe(p).tx) else None
    case GiveUp(c, _) => if w.Det(c).bump.Looked? then Some(w.Det(c).bump.tx) else None
    case Resubmit(c, _, _) => if w.Det(c).bump.BumpAccepted? then Some(w.Det(c).bump.tx) else None
    case Mark(c, id, _, _, _) => if id in w.Poll(c).rows then Some(w.Poll(c).rows[id]) else None
    case Revert(c, id, _) => if id in w.Poll(c).rows then Some(w.Poll(c).rows[id]) else None
    case _ => None
  }

  /** The writer's copy of the row has a status the row no longer has. */
  predicate IsStale(w: World, e: Event, id: TxId)
    requires id in w.db.txs
  {
    var r := Remembered(w, e);
    (e.Resubmit? || e.GiveUp? || e.Mark? || e.Revert?)
    && r.Some? && r.value.id == id && r.value.status != w.db.txs[id].status
  }

  ghost predicate Follows(w: World, e: Event, w': World, id: TxId)
    requires id in w.db.txs && id in w'.db.txs
  {
    IsStep(w.db.txs[id].status, w'.db.txs[id].status, e.Reset?)
  }

  predicate IsStep(from: TxStatus, to: TxStatus, reset: bool) {
    from == to || Edge(from, to) || (reset && from == Pending && to == Queued)
  }

  /** The status a worker's update writes, whatever the row's status is by then. */
  function Written(e: Event): Option<TxStatus> {
    match e
    case GiveUp(_, _) => Some(Failed)
    case Resubmit(_, _, _) => Some(Submitted)
    case Mark(_, _, status, _, _) => Some(status)
    case Revert(_, _, _) => Some(Submitted)
    case _ => None
  }

  /** The step is a detector's or poller's update of row `id`, and it takes effect. */
  predicate Writes(w: World, e: Event, id: TxId) {
    && Written(e).Some? && !e.o.Lost?
    && Remembered(w, e).Some? && Remembered(w, e).value.id == id
  }

  /** No guard would let this update through: the row is terminal with another status, or it is
      INCLUDED and the update says FAILED or REVERTED. */
  predicate IsForbidden(status: TxStatus, written: TxStatus) {
    || (status.IsTerminal() && written != status)
    || (status == Included && written in {Failed, Reverted})
  }

  /** One row got a new status. */
  predicate OnlyStatusOf(db: Db, db': Db, id: TxId, status: TxStatus) {
    && db'.txs.Keys >= db.txs.Keys
    && (id in db.txs ==> db'.txs[id].status == status)
    && forall j :: j in db.txs && j != id ==> db'.txs[j].status == db.txs[j].status
  }

  lemma DetectorWritesOneStatus(db: Db, id: TxId, h: TxHash, now: nat, code: ErrorCode)
    ensures OnlyStatusOf(db, db.MarkSubmitted(id, h, now), id, Submitted)
    ensures OnlyStatusOf(db, db.MarkFailed(id, code), id, Failed)
  {
  }

  lemma PollerWritesOneStatus(db: Db, id: TxId, h: TxHash, s: TxStatus, r: Receipt)
    ensures OnlyStatusOf(db, db.MarkWithReceipt(id, s, h, r), id, s)
    ensures OnlyStatusOf(db, db.RevertToSubmitted(id), id, Submitted)
  {
  }

  lemma PipeHoldsPending(w: World, e: Event)
    requires Inv(w) && PipeEnabled(w, e) && (e.Submit? || e.Fail?)
    ensures w.pipes[e.p].tx.id in w.db.txs && w.db.txs[w.pipes[e.p].tx.id].status == Pending
  {
    assert StageOk(e.p, w.pipes[e.p], w.db);
  }

  lemma PipeWriteFollows(w: World, e: Event, id: TxId)
    requires PipeEnabled(w, e) && (e.Submit? || e.Fail?) && id in w.db.txs
    requires w.pipes[e.p].tx.id in w.db.txs && w.db.txs[w.pipes[e.p].tx.id].status == Pending
    ensures id in PipeStep(w, e).db.txs && Follows(w, e, PipeStep(w, e), id)
  {
    var g := w.pipes[e.p];
    if e.Submit? {
      assert PipeStep(w, e).db == Settle(e.o, w.db, w.db.MarkSubmitted(g.tx.id, g.a.Hash(), e.now));
    } else {
      assert PipeStep(w, e).db == Settle(e.o, w.db, w.db.MarkFailed(g.tx.id, g.code));
    }
  }

  lemma ClaimFollows(w: World, e: Event, id: TxId)
    requires PipeEnabled(w, e) && e.Claim? && id in w.db.txs
    ensures id in PipeStep(w, e).db.txs && Follows(w, e, PipeStep(w, e), id)
  {
    assert PipeStep(w, e).db == Settle(e.o, w.db, w.db.Claim(e.id));
  }

  lemma AssignFollows(w: World, e: Event, id: TxId)
    requires PipeEnabled(w, e) && (e.Assign? || e.Create?) && id in w.db.txs
    ensures id in PipeStep(w, e).db.txs && Follows(w, e, PipeStep(w, e), id)
  {
  }

  lemma QuietFollows(w: World, e: Event, id: TxId)
    requires PipeEnabled(w, e) && (e.Log? || e.Refuse? || e.Sign? || e.StoreFirst? || e.Send?) && id in w.db.txs
    ensures PipeStep(w, e).db.txs == w.db.txs
  {
    match e {
      case StoreFirst(_, _) =>
      case _ =>
    }
  }

  lemma OtherPipeFollows(w: World, e: Event, id: TxId)
    requires PipeEnabled(w, e) && !e.Submit? && !e.Fail? && id in w.db.txs
    ensures id in PipeStep(w, e).db.txs && Follows(w, e, PipeStep(w, e), id)
  {
    if e.Create? || e.Assign? {
      AssignFollows(w, e, id);
    } else if e.Claim? {
      ClaimFollows(w, e, id);
    } else {
      QuietFollows(w, e, id);
    }
  }

  lemma PipeFollows(w: World, e: Event, id: TxId)
    requires Inv(w) && PipeEnabled(w, e) && id in w.db.txs
    ensures id in PipeStep(w, e).db.txs && Follows(w, e, PipeStep(w, e), id)
  {
    if e.Submit? || e.Fail? {
      PipeHoldsPending(w, e);
      PipeWriteFollows(w, e, id);
    } else {
      OtherPipeFollows(w, e, id);
    }
  }

  lemma DetRemembers(w: World, e: Event)
    requires Inv(w) && DetEnabled(w, e) && (e.GiveUp? || e.Resubmit?)
    ensures w.Det(e.c).bump.tx.status == Submitted
  {
    assert DetOk(e.c, w.dets[e.c], w.db, w.submitted);
  }

  /** A detector's or poller's update writes its status to its row and to no other. */
  lemma DetWrites(w: World, e: Event, id: TxId)
    requires DetEnabled(w, e) && (e.GiveUp? || e.Resubmit?) && id in w.db.txs
    ensures id in DetStep(w, e).db.txs
    ensures DetStep(w, e).db.txs[id].status
            == if Writes(w, e, id) then Written(e).value else w.db.txs[id].status
  {
    var b := w.Det(e.c).bump;
    if e.GiveUp? {
      DetectorWritesOneStatus(w.db, b.tx.id, HashOf(b.tx.Sign(0, NO_GAS)), 0, MaxRetriesExceeded);
    } else {
      DetectorWritesOneStatus(w.db, b.tx.id, b.a.Hash(), e.now, MaxRetriesExceeded);
    }
  }

  const ANY_RECEIPT := Receipt(0, 0, 0, 0, [])

  lemma DetKeepsRows(w: World, e: Event)
    requires DetEnabled(w, e) && !e.GiveUp? && !e.Resubmit?
    ensures DetStep(w, e).db.txs == w.db.txs
  {
  }

  lemma PollRemembers(w: World, e: Event)
    requires Inv(w) && PollEnabled(w, e) && (e.Mark? || e.Revert?)
    ensures w.Poll(e.c).rows[e.id].status in {Submitted, Included} && w.Poll(e.c).rows[e.id].id == e.id
  {
    assert PollOk(e.c, w.polls[e.c], w.db, w.submitted);
    assert SeenOk(e.c, e.id, w.Poll(e.c).rows[e.id], w.db, w.submitted);
  }

  lemma PollWrites(w: World, e: Event, id: TxId)
    requires PollEnabled(w, e) && (e.Mark? || e.Revert?) && id in w.db.txs
    requires w.Poll(e.c).rows[e.id].id == e.id
    ensures id in PollStep(w, e).db.txs
    ensures PollStep(w, e).db.txs[id].status
            == if Writes(w, e, id) then Written(e).value else w.db.txs[id].status
  {
    if e.Mark? {
      PollerWritesOneStatus(w.db, e.id, w.Poll(e.c).rows[e.id].finalHash.value, e.status, e.r);
    } else {
      PollerWritesOneStatus(w.db, e.id, HashOf(w.Poll(e.c).rows[e.id].Sign(0, NO_GAS)), Failed, ANY_RECEIPT);
    }
  }

  lemma PollKeepsRows(w: World, e: Event)
    requires PollEnabled(w, e) && !e.Mark? && !e.Revert?
    ensures PollStep(w, e).db.txs == w.db.txs
  {
  }

  lemma BootFollows(pairs: set<Pair>, w: World, e: Event, id: TxId)
    requires BootEnabled(pairs, w, e) && id in w.db.txs
    ensures id in BootStep(pairs, w, e).db.txs && Follows(w, e, BootStep(pairs, w, e), id)
  {
  }

  /** Every detector's or poller's update goes to a row that was submitted. */
  lemma WritersHaveSubmittedRows(w: World, e: Event, id: TxId)
    requires Inv(w) && (DetEnabled(w, e) || PollEnabled(w, e)) && Writes(w, e, id) && id in w.db.txs
    ensures w.db.txs[id].status != Queued && w.db.txs[id].status != Pending
    ensures Written(e).value in {Submitted, Included, Confirmed, Reverted, Failed}
  {
    if DetEnabled(w, e) {
      assert DetOk(e.c, w.dets[e.c], w.db, w.submitted);
    } else {
      PollRemembers(w, e);
      assert PollOk(e.c, w.polls[e.c], w.db, w.submitted);
      assert SeenOk(e.c, e.id, w.Poll(e.c).rows[e.id], w.db, w.submitted);
    }
    assert RowOk(w.db.txs[id], w.db.AttemptsOf(id), true);
  }

  ghost predicate StatusBecomes(w: World, e: Event, w': World, id: TxId)
    requires id in w.db.txs
  {
    && id in w'.db.txs
    && if Writes(w, e, id)
       then && w'.db.txs[id].status == Written(e).value
            && w.db.txs[id].status != Queued && w.db.txs[id].status != Pending
            && Written(e).value in {Submitted, Included, Confirmed, Reverted, Failed}
       else Follows(w, e, w', id)
  }

  lemma ForbiddenIff(from: TxStatus, to: TxStatus, reset: bool)
    requires from != Queued && from != Pending && to in {Submitted, Included, Confirmed, Reverted, Failed}
    ensures !IsStep(from, to, reset) <==> IsForbidden(from, to)
  {
  }

  /** What one step does to the status of a row that is there: nothing, an edge of the graph, or a
      detector's or poller's unconditional write. */
  lemma StatusAfter(pairs: set<Pair>, w: World, e: Event, id: TxId)
    requires Inv(w) && Enabled(pairs, w, e) && id in w.db.txs
    ensures StatusBecomes(w, e, Step(pairs, w, e), id)
  {
    if BootEnabled(pairs, w, e) {
      BootStatus(pairs, w, e, id);
    } else if PipeEnabled(w, e) {
      PipeStatus(w, e, id);
    } else if DetEnabled(w, e) {
      DetStatus(w, e, id);
    } else {
      PollStatus(w, e, id);
    }
  }

  lemma BootStatus(pairs: set<Pair>, w: World, e: Event, id: TxId)
    requires BootEnabled(pairs, w, e) && id in w.db.txs
    ensures StatusBecomes(w, e, BootStep(pairs, w, e), id)
  {
    BootFollows(pairs, w, e, id);
  }

  lemma PipeStatus(w: World, e: Event, id: TxId)
    requires Inv(w) && PipeEnabled(w, e) && id in w.db.txs
    ensures StatusBecomes(w, e, PipeStep(w, e), id)
  {
    PipesWriteUnderGuard(w, e);
    PipeFollows(w, e, id);
    QuietStatus(w, e, PipeStep(w, e), id);
  }

  lemma PipesWriteUnderGuard(w: World, e: Event)
    requires PipeEnabled(w, e)
    ensures Written(e).None?
  {
  }

  lemma QuietStatus(w: World, e: Event, w': World, id: TxId)
    requires Written(e).None? && id in w.db.txs && id in w'.db.txs && Follows(w, e, w', id)
    ensures StatusBecomes(w, e, w', id)
  {
  }

  lemma DetStatus(w: World, e: Event, id: TxId)
    requires Inv(w) && DetEnabled(w, e) && id in w.db.txs
    ensures StatusBecomes(w, e, DetStep(w, e), id)
  {
    if Writes(w, e, id) { WritersHaveSubmittedRows(w, e, id); }
    if e.GiveUp? || e.Resubmit? { DetWrites(w, e, id); } else { DetKeepsRows(w, e); }
  }

  lemma PollStatus(w: World, e: Event, id: TxId)
    requires Inv(w) && PollEnabled(w, e) && id in w.db.txs
    ensures StatusBecomes(w, e, PollStep(w, e), id)
  {
    if Writes(w, e, id) { WritersHaveSubmittedRows(w, e, id); }
    if e.Mark? || e.Revert? {
      PollRemembers(w, e);
      PollWrites(w, e, id);
    } else {
      PollKeepsRows(w, e);
    }
  }

  /** In every run, a step takes a row's status off the documented graph if and only if it is a
      detector's or poller's update that takes effect on a status it must not replace: a terminal one,
      or INCLUDED when it writes FAILED or REVERTED. An update that named the statuses it may replace
      would never leave the graph. */
  lemma LeavesTheGraphIff(pairs: set<Pair>, w: World, e: Event, id: TxId)
    requires Inv(w) && Enabled(pairs, w, e) && id in w.db.txs
    ensures id in Step(pairs, w, e).db.txs
    ensures !Follows(w, e, Step(pairs, w, e), id) <==>
              Writes(w, e, id) && IsForbidden(w.db.txs[id].status, Written(e).value)
  {
    StatusAfter(pairs, w, e, id);
    if Writes(w, e, id) { ForbiddenIff(w.db.txs[id].status, Written(e).value, e.Reset?); }
  }

  /** When a terminal status changes: exactly when a detector or poller writes another one over it. */
  lemma TerminalChangesIff(pairs: set<Pair>, w: World, e: Event, id: TxId)
    requires Inv(w) && Enabled(pairs, w, e) && id in w.db.txs && w.db.txs[id].status.IsTerminal()
    ensures id in Step(pairs, w, e).db.txs
    ensures Step(pairs, w, e).db.txs[id].status != w.db.txs[id].status <==>
              Writes(w, e, id) && Written(e).value != w.db.txs[id].status
  {
    StatusAfter(pairs, w, e, id);
    TerminalIsLast(w.db.txs[id].status, Step(pairs, w, e).db.txs[id].status, e.Reset?);
  }

  lemma TerminalIsLast(from: TxStatus, to: TxStatus, reset: bool)
    requires from.IsTerminal()
    ensures IsStep(from, to, reset) <==> to == from
  {
  }

  /** And then the writer's copy of the row is out of date: it read SUBMITTED or INCLUDED. */
  lemma OnlyStaleWritesLeaveTheGraph(pairs: set<Pair>, w: World, e: Event, id: TxId)
    requires Inv(w) && Enabled(pairs, w, e) && id in w.db.txs
    ensures id in Step(pairs, w, e).db.txs
    ensures Follows(w, e, Step(pairs, w, e), id) || IsStale(w, e, id)
  {
    LeavesTheGraphIff(pairs, w, e, id);
    if Writes(w, e, id) {
      if e.GiveUp? || e.Resubmit? { DetRemembers(w, e); } else { PollRemembers(w, e); }
    }
  }

  lemma PollerReads(pairs: set<Pair>, w: World, id: TxId)
    requires w.phase.Running? && id in w.db.txs && w.db.txs[id].status == Submitted
    ensures var c := w.db.txs[id].pair.chainId;
            && Enabled(pairs, w, Read(c, {id}))
            && var w' := Step(pairs, w, Read(c, {id}));
            && w' == w.(polls := w'.polls) && c in w'.polls && w'.polls[c].rows == map[id := w.db.txs[id]]
  {
    var w' := Step(pairs, w, Read(w.db.txs[id].pair.chainId, {id}));
    assert w'.polls[w.db.txs[id].pair.chainId].rows.Keys == {id};
  }

  lemma DetectorScans(pairs: set<Pair>, w: World, c: nat, id: TxId)
    requires w.phase.Running? && id in w.db.txs && w.db.txs[id].status == Submitted
    requires w.db.txs[id].pair.chainId == c && w.db.txs[id].submittedAt.Some? && w.Det(c).bump.NoBump?
    ensures var e := Scan(c, w.db.txs[id].submittedAt.value + 1);
            && Enabled(pairs, w, e)
            && var w' := Step(pairs, w, e);
            && w' == w.(dets := w'.dets) && w'.Det(c).bump.NoBump?
            && id in w'.Det(c).rows && w'.Det(c).rows[id] == w.db.txs[id]
  {
  }

  lemma DetectorReadsAttempts(pairs: set<Pair>, w: World, c: nat, id: TxId)
    requires w.phase.Running? && w.Det(c).bump.NoBump? && id in w.Det(c).rows
    ensures Enabled(pairs, w, Look(c, id))
    ensures var w' := Step(pairs, w, Look(c, id));
            && w' == w.(dets := w'.dets) && w'.Det(c).bump == Looked(w.Det(c).rows[id], w.db.AttemptsOf(id))
  {
  }

  /** The detector and a poller read a stuck row; the detector reads its attempts. */
  lemma DetectorLooks(pairs: set<Pair>, w: World, id: TxId) returns (w': World, es: seq<Event>, ws: seq<World>)
    requires w.phase.Running? && id in w.db.txs && w.db.txs[id].status == Submitted
    requires w.db.txs[id].submittedAt.Some? && w.Det(w.db.txs[id].pair.chainId).bump.NoBump?
    ensures var c := w.db.txs[id].pair.chainId;
            && w'.Det(c).bump == Looked(w.db.txs[id], w.db.AttemptsOf(id))
            && c in w'.polls && w'.polls[c].rows == map[id := w.db.txs[id]]
            && w'.db == w.db && w'.phase.Running? && w'.sent == w.sent
    ensures IsRun(pairs, ws, es) && ws[0] == w && ws[|es|] == w'
  {
    var c := w.db.txs[id].pair.chainId;
    PollerReads(pairs, w, id);
    var w1 := Step(pairs, w, Read(c, {id}));
    var e2 := Scan(c, w.db.txs[id].submittedAt.value + 1);
    DetectorScans(pairs, w1, c, id);
    var w2 := Step(pairs, w1, e2);
    DetectorReadsAttempts(pairs, w2, c, id);
    w' := Step(pairs, w2, Look(c, id));
    ThreeSteps(pairs, w, Read(c, {id}), w1, e2, w2, Look(c, id), w');
    ws, es := [w, w1, w2, w'], [Read(c, {id}), e2, Look(c, id)];
  }

  lemma ThreeSteps(pairs: set<Pair>, w: World, e1: Event, w1: World, e2: Event, w2: World, e3: Event, w3: World)
    requires Enabled(pairs, w, e1) && w1 == Step(pairs, w, e1)
    requires Enabled(pairs, w1, e2) && w2 == Step(pairs, w1, e2)
    requires Enabled(pairs, w2, e3) && w3 == Step(pairs, w2, e3)
    ensures IsRun(pairs, [w, w1, w2, w3], [e1, e2, e3])
  {
  }

  /** It stores and sends a replacement. */
  lemma DetectorBumps(pairs: set<Pair>, w: World, c: nat) returns (w': World, es: seq<Event>, ws: seq<World>)
    requires w.phase.Running? && w.Det(c).bump.Looked? && DetEnabled(w, StoreNext(c, Done, 0))
    requires var b := w.Det(c).bump; w.db.CanStore(b.tx.id, |b.attempts| + 1)
    ensures w'.Det(c).bump.BumpAccepted? && w'.Det(c).bump.tx == w.Det(c).bump.tx
    ensures w'.polls == w.polls && w'.db.txs == w.db.txs && w'.phase.Running?
    ensures var b := w.Det(c).bump;
            w'.sent == w.sent + {Delivery(b.tx.id, Replacement(b.tx, b.tx.nonce.value, b.attempts, 0).raw, true)}
    ensures IsRun(pairs, ws, es) && ws[0] == w && ws[|es|] == w'
  {
    var w1 := Step(pairs, w, StoreNext(c, Done, 0));
    w' := Step(pairs, w1, SendNext(c, true));
    ws, es := [w, w1, w'], [StoreNext(c, Done, 0), SendNext(c, true)];
  }

  /** The poller confirms the row; the detector's update comes last. */
  lemma PollerConfirmsInBetween(pairs: set<Pair>, w: World, id: TxId, r: Receipt)
    returns (mid: World, w': World, es: seq<Event>, ws: seq<World>)
    requires w.phase.Running? && id in w.db.txs && w.db.txs[id].status == Submitted
    requires var c := w.db.txs[id].pair.chainId;
             && w.Det(c).bump.BumpAccepted? && w.Det(c).bump.tx.id == id && w.Det(c).bump.tx.status == Submitted
             && c in w.polls && id in w.polls[c].rows && w.polls[c].rows[id].finalHash.Some?
    ensures id in mid.db.txs && mid.db.txs[id].status == Confirmed
    ensures id in w'.db.txs && w'.db.txs[id].status == Submitted
    ensures IsRun(pairs, ws, es) && |es| == 2 && ws == [w, mid, w']
    ensures IsStale(mid, es[1], id) && Writes(mid, es[1], id)
  {
    var c := w.db.txs[id].pair.chainId;
    mid := Step(pairs, w, Mark(c, id, Confirmed, r, Done));
    w' := Step(pairs, mid, Resubmit(c, Done, 0));
    ws, es := [w, mid, w'], [Mark(c, id, Confirmed, r, Done), Resubmit(c, Done, 0)];
  }

  /** It happens: from any world with a stuck row, a poller confirms it while the detector is
      between its broadcast and its update, and the update reopens the CONFIRMED row. */
  lemma ConfirmedIsReopened(pairs: set<Pair>, w: World, id: TxId, r: Receipt)
    returns (ws: seq<World>, es: seq<Event>)
    requires Inv(w) && w.phase.Running? && id in w.db.txs && w.db.txs[id].status == Submitted
    requires w.db.txs[id].submittedAt.Some? && |w.db.AttemptsOf(id)| <= MAX_GAS_BUMPS
    requires w.Det(w.db.txs[id].pair.chainId).bump.NoBump?
    ensures IsRun(pairs, ws, es) && ws[0] == w && |es| >= 2
    ensures id in ws[|es| - 1].db.txs && ws[|es| - 1].db.txs[id].status == Confirmed
    ensures id in ws[|es|].db.txs && ws[|es|].db.txs[id].status == Submitted
    ensures IsStale(ws[|es| - 1], es[|es| - 1], id) && Writes(ws[|es| - 1], es[|es| - 1], id)
  {
    var (t, s, c) := (w.db.txs[id], w.db.AttemptsOf(id), w.db.txs[id].pair.chainId);
    assert RowOk(t, s, id in w.submitted);
    ChainIsOrdered(t, s);
    var w1, es1, ws1 := DetectorLooks(pairs, w, id);
    var w2, es2, ws2 := DetectorBumps(pairs, w1, c);
    var mid, w3, es3, ws3 := PollerConfirmsInBetween(pairs, w2, id, r);
    RunsConcatenate(pairs, ws1, es1, ws2, es2);
    RunsConcatenate(pairs, ws1 + ws2[1..], es1 + es2, ws3, es3);
    ws, es := ws1 + ws2[1..] + ws3[1..], es1 + es2 + es3;
    assert ws[|es| - 1] == mid;
  }
}
