/** The send protocol in its finest grain: every database statement and every call to the node is a
    step of its own, the workers interleave freely, and the process may die between any two steps.

    Workers may do more here than the code lets them (a poller may mark any row it has read, with any
    receipt; time never holds a detector back), so what is proved for every run of this model holds
    for every run of the program. */
module Protocol {
  import opened Domain
  import opened Fees
  import opened Tables
  import opened Attempts
  import opened Repository

  // ---- what the workers remember between steps ----

  /** processTx (internal/pipeline/pipeline.go) between two steps. */
  datatype Stage =
    | Idle
    | Claimed(tx: Transaction)
    | Assigned(tx: Transaction, nonce: nat)
    | Signed(tx: Transaction, a: Attempt)
    | Stored(tx: Transaction, a: Attempt, tries: nat)
    | Accepted(tx: Transaction, a: Attempt)
    | Failing(tx: Transaction, code: ErrorCode)

  /** bumpGas (internal/pipeline/stuck.go) between two steps. */
  datatype Bumping =
    | NoBump
    | Looked(tx: Transaction, attempts: seq<Attempt>)
    | BumpStored(tx: Transaction, a: Attempt)
    | BumpAccepted(tx: Transaction, a: Attempt)

  datatype Detector = Detector(rows: map<TxId, Transaction>, bump: Bumping)

  datatype Poller = Poller(rows: map<TxId, Transaction>, resend: Option<(TxId, SignedTx)>)

  /** Startup (internal/pipeline/manager.go): reset the PENDING rows, align each pair's cursor, run. */
  datatype Phase = Booting | Aligning(done: set<Pair>) | Running

  /** A claim of this process run: the row, the rows that waited with it, the nonce it was given. */
  datatype ClaimRecord = ClaimRecord(id: TxId, waiting: set<TxId>, nonce: Option<nat>)

  datatype World = World(
    db: Db,
    phase: Phase,
    pipes: map<Pair, Stage>,
    dets: map<nat, Detector>,
    polls: map<nat, Poller>,
    // history
    sent: set<Delivery>,
    submitted: set<TxId>,              // rows a MarkSubmitted ever took effect on
    start: map<Pair, nat>,             // the cursor each pair was aligned to
    claims: map<Pair, seq<ClaimRecord>>)
  {
    function Det(c: nat): Detector {
      if c in dets then dets[c] else Detector(map[], NoBump)
    }

    function Poll(c: nat): Poller {
      if c in polls then polls[c] else Poller(map[], None)
    }

    function Pipe(p: Pair): Stage {
      if p in pipes then pipes[p] else Idle
    }

    function At(p: Pair, s: Stage): World {
      this.(pipes := pipes[p := s])
    }

    function Bumps(c: nat, b: Bumping): World {
      this.(dets := dets[c := Det(c).(bump := b)])
    }

    function ClaimsOf(p: Pair): seq<ClaimRecord> {
      if p in claims then claims[p] else []
    }
  }

  function Initial(): World {
    World(Db(map[], map[], map[], map[]), Booting, map[], map[], map[], {}, {}, map[], map[])
  }

  const MAX_BROADCAST_RETRIES: nat := 5

  // ---- steps ----

  datatype Event =
    // the API inserts a row; anyone writes audit entries
    | Create(t: Transaction)
    | Log(id: TxId, entry: LogEntry)
    // the process dies and comes up again
    | Crash
    | Reset(o: Outcome)
    | Align(p: Pair, pending: nat, o: Outcome)
    | Start
    // the pipeline of a pair
    | Claim(p: Pair, id: TxId, o: Outcome)
    | Assign(p: Pair, o: Outcome)
    | Refuse(p: Pair, code: ErrorCode)
    | Sign(p: Pair, fees: ChainFees, quote: Quote, gasLimit: nat, now: nat)
    | StoreFirst(p: Pair, o: Outcome)
    | Send(p: Pair, ok: bool)
    | Submit(p: Pair, o: Outcome, now: nat)
    | Fail(p: Pair, o: Outcome)
    // the stuck detector of a chain
    | Scan(c: nat, submittedBefore: nat)
    | Look(c: nat, id: TxId)
    | Skip(c: nat)
    | GiveUp(c: nat, o: Outcome)
    | StoreNext(c: nat, o: Outcome, now: nat)
    | SendNext(c: nat, ok: bool)
    | Resubmit(c: nat, o: Outcome, now: nat)
    // the receipt poller of a chain
    | Read(c: nat, ids: set<TxId>)
    | Mark(c: nat, id: TxId, status: TxStatus, r: Receipt, o: Outcome)
    | Revert(c: nat, id: TxId, o: Outcome)
    | LookBack(c: nat, id: TxId)
    | Resend(c: nat, ok: bool)
    | MarkAttempt(c: nat, id: TxId, n: nat, mark: AttemptStatus, o: Outcome)

  /** The API's rows: queued, without nonce, hash or receipt. */
  predicate NewRow(t: Transaction) {
    && t.status == Queued && t.nonce.None? && t.finalHash.None? && t.submittedAt.None?
    && t.blockNumber.None? && t.blockHash.None? && t.receiptStatus.None? && t.gasUsed.None? && t.errorCode.None?
  }

  predicate BootEnabled(pairs: set<Pair>, w: World, e: Event) {
    match e
    case Crash => true
    case Reset(_) => w.phase.Booting?
    case Align(p, _, _) => w.phase.Aligning? && p in pairs && p !in w.phase.done
    case Start => w.phase == Aligning(pairs)
    case _ => false
  }

  predicate PipeEnabled(w: World, e: Event) {
    match e
    case Create(t) => NewRow(t) && w.db.CanCreate(t)
    case Log(_, _) => true
    case Claim(p, id, _) => p in w.pipes && w.pipes[p].Idle? && w.db.ClaimsNext(p, id)
    case Assign(p, _) => p in w.pipes && w.pipes[p].Claimed?
    case Refuse(p, _) => p in w.pipes && w.pipes[p].Assigned?
    case Sign(p, fees, q, limit, _) =>
      p in w.pipes && w.pipes[p].Assigned? && Estimate(fees, q, w.pipes[p].tx.priority, limit).Some?
    case StoreFirst(p, _) => p in w.pipes && w.pipes[p].Signed?
    case Send(p, _) => p in w.pipes && w.pipes[p].Stored?
    case Submit(p, _, _) => p in w.pipes && w.pipes[p].Accepted?
    case Fail(p, _) => p in w.pipes && w.pipes[p].Failing?
    case _ => false
  }

  predicate DetEnabled(w: World, e: Event) {
    match e
    case Scan(c, _) => w.Det(c).bump.NoBump?
    case Look(c, id) => w.Det(c).bump.NoBump? && id in w.Det(c).rows
    case Skip(c) => true
    case GiveUp(c, _) => w.Det(c).bump.Looked? && |w.Det(c).bump.attempts| > MAX_GAS_BUMPS
    case StoreNext(c, _, _) =>
      var b := w.Det(c).bump;
      // an empty list would panic here; NoPanic in module Safety shows that it never is
      b.Looked? && b.tx.nonce.Some? && 1 <= |b.attempts| <= MAX_GAS_BUMPS
    case SendNext(c, _) => w.Det(c).bump.BumpStored?
    case Resubmit(c, _, _) => w.Det(c).bump.BumpAccepted?
    case _ => false
  }

  predicate PollEnabled(w: World, e: Event) {
    match e
    case Read(c, ids) =>
      forall id :: id in ids ==>
        id in w.db.txs && w.db.txs[id].pair.chainId == c && w.db.txs[id].status in {Submitted, Included}
    case Mark(c, id, s, _, _) =>
      // a row read as SUBMITTED may be included, confirmed or reverted, one read as INCLUDED may be
      // confirmed or included again
      && id in w.Poll(c).rows && w.Poll(c).rows[id].finalHash.Some? && s in {Included, Confirmed, Reverted}
      && (s == Reverted ==> w.Poll(c).rows[id].status == Submitted)
    case Revert(c, id, _) => id in w.Poll(c).rows && w.Poll(c).rows[id].status == Included
    case LookBack(c, id) => id in w.Poll(c).rows && w.db.AttemptsOf(id) != []
    case Resend(c, _) => w.Poll(c).resend.Some?
    case MarkAttempt(c, id, _, _, _) => id in w.Poll(c).rows
    case _ => false
  }

  predicate Enabled(pairs: set<Pair>, w: World, e: Event) {
    BootEnabled(pairs, w, e) || (w.phase.Running? && (PipeEnabled(w, e) || DetEnabled(w, e) || PollEnabled(w, e)))
  }

  function BootStep(pairs: set<Pair>, w: World, e: Event): World
    requires BootEnabled(pairs, w, e)
  {
    match e
    case Crash =>
      w.(phase := Booting, pipes := map[], dets := map[], polls := map[], start := map[], claims := map[])
    case Reset(o) =>
      w.(db := Settle(o, w.db, w.db.ResetPending()), phase := if o.Done? then Aligning({}) else Booting)
    case Align(p, pending, o) =>
      w.(db := Settle(o, w.db, w.db.SetCursor(p, pending)),
         phase := if o.Done? then Aligning(w.phase.done + {p}) else Booting,
         start := w.start[p := pending])
    case Start => w.(phase := Running, pipes := map p | p in pairs :: Idle)
  }

  /** The last claim gets the nonce. */
  function WithNonce(s: seq<ClaimRecord>, n: nat): seq<ClaimRecord> {
    if s == [] then s else s[..|s| - 1] + [s[|s| - 1].(nonce := Some(n))]
  }

  // ---- the pipeline's steps ----

  function AfterClaim(w: World, p: Pair, id: TxId, o: Outcome): World
    requires p in w.pipes && w.db.ClaimsNext(p, id)
  {
    var db' := Settle(o, w.db, w.db.Claim(id));
    if o.Done?
    then w.(db := db', pipes := w.pipes[p := Claimed(db'.txs[id])],
            claims := w.claims[p := w.ClaimsOf(p) + [ClaimRecord(id, w.db.Queue(p), None)]])
    else w.(db := db')
  }

  function AfterAssign(w: World, p: Pair, o: Outcome): World
    requires p in w.pipes && w.pipes[p].Claimed?
  {
    var tx := w.pipes[p].tx;
    if p !in w.db.cursors then w.At(p, Failing(tx, InternalError)) else
    var n := w.db.cursors[p];
    w.(db := Settle(o, w.db, w.db.AssignNonce(tx.id, p)),
       claims := Settle(o, w.claims, w.claims[p := WithNonce(w.ClaimsOf(p), n)]),
       pipes := w.pipes[p := if o.Done? then Assigned(tx, n) else Failing(tx, InternalError)])
  }

  function AfterSign(w: World, p: Pair, gas: GasParams, now: nat): World
    requires p in w.pipes && w.pipes[p].Assigned?
  {
    var (tx, n) := (w.pipes[p].tx, w.pipes[p].nonce);
    w.At(p, Signed(tx, FirstAttempt(tx, n, gas, now)))
  }

  function AfterStoreFirst(w: World, p: Pair, o: Outcome): World
    requires p in w.pipes && w.pipes[p].Signed?
  {
    var (tx, a) := (w.pipes[p].tx, w.pipes[p].a);
    if !w.db.CanStore(tx.id, 1) then w.At(p, Idle) else
    w.(db := Settle(o, w.db, w.db.StoreAttempt(tx.id, a)),
       pipes := w.pipes[p := if o.Done? then Stored(tx, a, 0) else Idle])
  }

  function AfterSend(w: World, p: Pair, ok: bool): World
    requires p in w.pipes && w.pipes[p].Stored?
  {
    var Stored(tx, a, tries) := w.pipes[p];
    w.(sent := w.sent + {Delivery(tx.id, a.raw, ok)},
       pipes := w.pipes[p := if ok then Accepted(tx, a)
                             else if tries + 1 < MAX_BROADCAST_RETRIES then Stored(tx, a, tries + 1)
                             else Failing(tx, BroadcastFailed)])
  }

  function AfterSubmit(w: World, p: Pair, o: Outcome, now: nat): World
    requires p in w.pipes && w.pipes[p].Accepted?
  {
    var (tx, a) := (w.pipes[p].tx, w.pipes[p].a);
    w.(db := Settle(o, w.db, w.db.MarkSubmitted(tx.id, a.Hash(), now)),
       submitted := Settle(o, w.submitted, w.submitted + {tx.id}),
       pipes := w.pipes[p := Idle])
  }

  function AfterFail(w: World, p: Pair, o: Outcome): World
    requires p in w.pipes && w.pipes[p].Failing?
  {
    w.(db := Settle(o, w.db, w.db.MarkFailed(w.pipes[p].tx.id, w.pipes[p].code)),
       pipes := w.pipes[p := Idle])
  }

  function PipeStep(w: World, e: Event): World
    requires PipeEnabled(w, e)
  {
    match e
    case Create(t) => w.(db := w.db.CreateTransaction(t))
    case Log(id, entry) => w.(db := w.db.LogTransition(id, entry))
    case Claim(p, id, o) => AfterClaim(w, p, id, o)
    case Assign(p, o) => AfterAssign(w, p, o)
    case Refuse(p, code) => w.At(p, Failing(w.pipes[p].tx, code))
    case Sign(p, fees, q, limit, now) =>
      AfterSign(w, p, Estimate(fees, q, w.pipes[p].tx.priority, limit).value, now)
    case StoreFirst(p, o) => AfterStoreFirst(w, p, o)
    case Send(p, ok) => AfterSend(w, p, ok)
    case Submit(p, o, now) => AfterSubmit(w, p, o, now)
    case Fail(p, o) => AfterFail(w, p, o)
  }

  // ---- the detector's steps ----

  function AfterScan(w: World, c: nat, before: nat): World {
    var rows := map id | id in w.db.txs && w.db.Stuck(id, c, before) :: w.db.txs[id];
    w.(dets := w.dets[c := Detector(rows, NoBump)])
  }

  function AfterGiveUp(w: World, c: nat, o: Outcome): World
    requires w.Det(c).bump.Looked?
  {
    w.(db := Settle(o, w.db, w.db.MarkFailed(w.Det(c).bump.tx.id, MaxRetriesExceeded)),
       dets := w.dets[c := w.Det(c).(bump := NoBump)])
  }

  function AfterStoreNext(w: World, c: nat, o: Outcome, now: nat): World
    requires var b := w.Det(c).bump; b.Looked? && b.tx.nonce.Some? && b.attempts != []
  {
    var Looked(tx, s) := w.Det(c).bump;
    var a := Replacement(tx, tx.nonce.value, s, now);
    if !w.db.CanStore(tx.id, a.number) then w.Bumps(c, NoBump) else
    w.(db := Settle(o, w.db, w.db.StoreAttempt(tx.id, a)),
       dets := w.dets[c := w.Det(c).(bump := if o.Done? then BumpStored(tx, a) else NoBump)])
  }

  function AfterSendNext(w: World, c: nat, ok: bool): World
    requires w.Det(c).bump.BumpStored?
  {
    var BumpStored(tx, a) := w.Det(c).bump;
    w.(sent := w.sent + {Delivery(tx.id, a.raw, ok)},
       dets := w.dets[c := w.Det(c).(bump := if ok then BumpAccepted(tx, a) else NoBump)])
  }

  function AfterResubmit(w: World, c: nat, o: Outcome, now: nat): World
    requires w.Det(c).bump.BumpAccepted?
  {
    var BumpAccepted(tx, a) := w.Det(c).bump;
    w.(db := Settle(o, w.db, w.db.MarkSubmitted(tx.id, a.Hash(), now)),
       submitted := Settle(o, w.submitted, w.submitted + {tx.id}),
       dets := w.dets[c := w.Det(c).(bump := NoBump)])
  }

  function DetStep(w: World, e: Event): World
    requires DetEnabled(w, e)
  {
    match e
    case Scan(c, before) => AfterScan(w, c, before)
    case Look(c, id) => w.Bumps(c, Looked(w.Det(c).rows[id], w.db.AttemptsOf(id)))
    case Skip(c) => w.Bumps(c, NoBump)
    case GiveUp(c, o) => AfterGiveUp(w, c, o)
    case StoreNext(c, o, now) => AfterStoreNext(w, c, o, now)
    case SendNext(c, ok) => AfterSendNext(w, c, ok)
    case Resubmit(c, o, now) => AfterResubmit(w, c, o, now)
  }

  // ---- the poller's steps ----

  function AfterRead(w: World, c: nat, ids: set<TxId>): World
    requires ids <= w.db.txs.Keys
  {
    w.(polls := w.polls[c := Poller(map id | id in ids :: w.db.txs[id], None)])
  }

  /** The latest attempt is about to be sent again. */
  function LookedBack(l: Poller, id: TxId, db: Db): Poller
    requires db.AttemptsOf(id) != []
  {
    var s := db.AttemptsOf(id);
    l.(resend := Some((id, s[|s| - 1].raw)))
  }

  function AfterLookBack(w: World, c: nat, id: TxId): World
    requires w.db.AttemptsOf(id) != []
  {
    w.(polls := w.polls[c := LookedBack(w.Poll(c), id, w.db)])
  }

  function AfterResend(w: World, c: nat, ok: bool): World
    requires w.Poll(c).resend.Some?
  {
    var (id, raw) := w.Poll(c).resend.value;
    w.(sent := w.sent + {Delivery(id, raw, ok)}, polls := w.polls[c := w.Poll(c).(resend := None)])
  }

  function PollStep(w: World, e: Event): World
    requires PollEnabled(w, e)
  {
    match e
    case Read(c, ids) => AfterRead(w, c, ids)
    case Mark(c, id, s, r, o) =>
      w.(db := Settle(o, w.db, w.db.MarkWithReceipt(id, s, w.Poll(c).rows[id].finalHash.value, r)))
    case Revert(c, id, o) => w.(db := Settle(o, w.db, w.db.RevertToSubmitted(id)))
    case LookBack(c, id) => AfterLookBack(w, c, id)
    case Resend(c, ok) => AfterResend(w, c, ok)
    case MarkAttempt(c, id, n, s, o) => w.(db := Settle(o, w.db, w.db.MarkAttempt(id, n, s)))
  }

  function Step(pairs: set<Pair>, w: World, e: Event): World
    requires Enabled(pairs, w, e)
  {
    if BootEnabled(pairs, w, e) then BootStep(pairs, w, e)
    else if PipeEnabled(w, e) then PipeStep(w, e)
    else if DetEnabled(w, e) then DetStep(w, e)
    else PollStep(w, e)
  }

  /** A run: its worlds and the events between them. */
  ghost predicate IsRun(pairs: set<Pair>, ws: seq<World>, es: seq<Event>) {
    && |ws| == |es| + 1
    && forall i :: 0 <= i < |es| ==> Enabled(pairs, ws[i], es[i]) && ws[i + 1] == Step(pairs, ws[i], es[i])
  }

  ghost predicate IsHistory(pairs: set<Pair>, ws: seq<World>, es: seq<Event>) {
    IsRun(pairs, ws, es) && ws[0] == Initial()
  }
}
