/** What every world of every run of the protocol satisfies. */
module Invariants {
  import opened Domain
  import opened Tables
  import opened Attempts
  import opened Repository
  import opened Protocol

  // ---- rows ----

  /** The columns no statement ever writes again. */
  predicate SamePayload(a: Transaction, b: Transaction) {
    && a.id == b.id && a.key == b.key && a.pair == b.pair && a.to == b.to && a.value == b.value
    && a.data == b.data && a.createdAt == b.createdAt
  }

  ghost predicate HasRaw(s: seq<Attempt>, raw: SignedTx) {
    exists i :: 0 <= i < |s| && s[i].raw == raw
  }

  /** One row and its attempts; `sub` says whether the row was ever submitted. */
  ghost predicate RowOk(t: Transaction, s: seq<Attempt>, sub: bool) {
    && Chain(t, s)
    && (t.status == Queued ==> t.nonce.None?)
    && (t.status in {Submitted, Included, Confirmed, Reverted} ==> sub)
    && (sub ==> && t.status != Queued && t.status != Pending
                && s != [] && t.nonce == Some(s[0].raw.nonce)
                && t.finalHash.Some? && HasHash(s, t.finalHash.value))
  }

  ghost predicate RowsOk(db: Db, submitted: set<TxId>) {
    && submitted <= db.txs.Keys
    && (forall id :: id in db.txs ==>
          db.txs[id].id == id && RowOk(db.txs[id], db.AttemptsOf(id), id in submitted))
    && (forall id :: id !in db.txs ==> db.AttemptsOf(id) == [])
  }

  // ---- what workers remember ----

  /** The pipeline has exclusive hold of its row: PENDING, with the nonce the pipeline was given; once
      attempt 1 is stored it is the row's only attempt and it is what gets sent. */
  ghost predicate StageOk(p: Pair, g: Stage, db: Db) {
    g.Idle? ||
    (&& g.tx.id in db.txs
     && var (t, s) := (db.txs[g.tx.id], db.AttemptsOf(g.tx.id));
        && SamePayload(g.tx, t) && t.pair == p && t.status == Pending
        && (g.Assigned? ==> t.nonce == Some(g.nonce))
        && (g.Signed? || g.Stored? || g.Accepted? ==>
              && t.nonce == Some(g.a.raw.nonce) && Chain(t, [g.a]) && g.a.status == Broadcast)
        && (g.Stored? || g.Accepted? ==> SameRaws([g.a], s)))
  }

  ghost predicate PipesOk(pipes: map<Pair, Stage>, db: Db) {
    forall p :: p in pipes ==> StageOk(p, pipes[p], db)
  }

  ghost predicate BumpOk(c: nat, b: Bumping, db: Db, submitted: set<TxId>) {
    b.NoBump? ||
    (&& b.tx.id in submitted && b.tx.id in db.txs
     && var (t, s) := (db.txs[b.tx.id], db.AttemptsOf(b.tx.id));
        && SamePayload(b.tx, t) && t.pair.chainId == c && b.tx.nonce == t.nonce && b.tx.status == Submitted
        && (b.Looked? ==> SameRaws(b.attempts, s))
        && (b.BumpStored? || b.BumpAccepted? ==> HasRaw(s, b.a.raw)))
  }

  ghost predicate SeenOk(c: nat, id: TxId, seen: Transaction, db: Db, submitted: set<TxId>) {
    && id in submitted && id in db.txs && SamePayload(seen, db.txs[id]) && seen.pair.chainId == c
    && seen.nonce == db.txs[id].nonce && seen.status in {Submitted, Included}
    && seen.finalHash.Some? && HasHash(db.AttemptsOf(id), seen.finalHash.value)
  }

  ghost predicate DetOk(c: nat, d: Detector, db: Db, submitted: set<TxId>) {
    && BumpOk(c, d.bump, db, submitted)
    && forall id :: id in d.rows ==> SeenOk(c, id, d.rows[id], db, submitted) && d.rows[id].status == Submitted
  }

  ghost predicate PollOk(c: nat, l: Poller, db: Db, submitted: set<TxId>) {
    && (forall id :: id in l.rows ==> SeenOk(c, id, l.rows[id], db, submitted))
    && (l.resend.Some? ==>
          l.resend.value.0 in submitted && HasRaw(db.AttemptsOf(l.resend.value.0), l.resend.value.1))
  }

  ghost predicate SentOk(sent: set<Delivery>, db: Db) {
    forall d :: d in sent ==> d.id in db.txs && HasRaw(db.AttemptsOf(d.id), d.raw)
  }

  ghost predicate Inv(w: World) {
    && RowsOk(w.db, w.submitted)
    && PipesOk(w.pipes, w.db)
    && (forall c :: c in w.dets ==> DetOk(c, w.dets[c], w.db, w.submitted))
    && (forall c :: c in w.polls ==> PollOk(c, w.polls[c], w.db, w.submitted))
    && SentOk(w.sent, w.db)
    && (!w.phase.Running? ==> w.pipes == map[] && w.dets == map[] && w.polls == map[])
  }

  // ---- how a step may change the tables under other workers' feet ----

  /** The row keeps its payload and its attempts, and, once submitted, its nonce. */
  ghost predicate Grows(t: Transaction, s: seq<Attempt>, t': Transaction, s': seq<Attempt>, sub: bool) {
    && SamePayload(t, t') && (sub ==> t'.nonce == t.nonce)
    && |s| <= |s'| && forall i :: 0 <= i < |s| ==> s'[i].raw == s[i].raw && s'[i].number == s[i].number
  }

  /** Only row `id` and its attempts changed, and they grew. */
  ghost predicate OneRow(db: Db, db': Db, id: TxId, sub: bool) {
    && id in db.txs && db'.txs.Keys == db.txs.Keys
    && Grows(db.txs[id], db.AttemptsOf(id), db'.txs[id], db'.AttemptsOf(id), sub)
    && (forall j :: j in db.txs && j != id ==> db'.txs[j] == db.txs[j])
    && (forall j :: j != id ==> db'.AttemptsOf(j) == db.AttemptsOf(j))
  }

  lemma RowWrite(db: Db, db': Db, id: TxId, row: Transaction, sub: bool)
    requires id in db.txs && db'.txs == db.txs[id := row] && db'.attempts == db.attempts
    requires SamePayload(db.txs[id], row) && (sub ==> row.nonce == db.txs[id].nonce)
    ensures OneRow(db, db', id, sub) && db'.txs[id] == row && db'.AttemptsOf(id) == db.AttemptsOf(id)
  {
  }

  lemma AttemptWrite(db: Db, db': Db, id: TxId, s: seq<Attempt>, sub: bool)
    requires id in db.txs && db'.txs == db.txs && db'.attempts == db.attempts[id := s]
    requires |db.AttemptsOf(id)| <= |s| && SameRaws(db.AttemptsOf(id), s[..|db.AttemptsOf(id)|])
    ensures OneRow(db, db', id, sub) && db'.AttemptsOf(id) == s
  {
    forall i | 0 <= i < |db.AttemptsOf(id)|
      ensures s[i].raw == db.AttemptsOf(id)[i].raw && s[i].number == db.AttemptsOf(id)[i].number
    {
      assert s[i] == s[..|db.AttemptsOf(id)|][i];
    }
  }

  lemma RowsStep(db: Db, db': Db, submitted: set<TxId>, submitted': set<TxId>, id: TxId)
    requires RowsOk(db, submitted) && OneRow(db, db', id, id in submitted)
    requires submitted <= submitted' <= submitted + {id}
    requires RowOk(db'.txs[id], db'.AttemptsOf(id), id in submitted')
    ensures RowsOk(db', submitted')
  {
  }

  lemma SeenStep(c: nat, j: TxId, seen: Transaction, db: Db, db': Db, submitted: set<TxId>,
                 submitted': set<TxId>, id: TxId)
    requires SeenOk(c, j, seen, db, submitted) && OneRow(db, db', id, id in submitted)
    requires submitted <= submitted'
    ensures SeenOk(c, j, seen, db', submitted')
  {
    if j == id {
      var h := seen.finalHash.value;
      var i :| 0 <= i < |db.AttemptsOf(id)| && db.AttemptsOf(id)[i].Hash() == h;
      assert db'.AttemptsOf(id)[i].Hash() == h;
    }
  }

  lemma RawStep(db: Db, db': Db, id: TxId, sub: bool, j: TxId, raw: SignedTx)
    requires OneRow(db, db', id, sub) && HasRaw(db.AttemptsOf(j), raw)
    ensures HasRaw(db'.AttemptsOf(j), raw)
  {
    if j == id {
      var i :| 0 <= i < |db.AttemptsOf(id)| && db.AttemptsOf(id)[i].raw == raw;
      assert db'.AttemptsOf(id)[i].raw == raw;
    }
  }

  lemma BumpStep(c: nat, b: Bumping, db: Db, db': Db, submitted: set<TxId>, submitted': set<TxId>, id: TxId)
    requires BumpOk(c, b, db, submitted) && OneRow(db, db', id, id in submitted)
    requires submitted <= submitted'
    requires b.Looked? && b.tx.id == id ==> |db'.AttemptsOf(id)| == |db.AttemptsOf(id)|
    ensures BumpOk(c, b, db', submitted')
  {
    if b.BumpStored? || b.BumpAccepted? {
      RawStep(db, db', id, id in submitted, b.tx.id, b.a.raw);
    }
  }

  /** Pollers, deliveries and the rows detectors have read survive any growth. */
  lemma MemoriesStep(w: World, db': Db, submitted': set<TxId>, id: TxId)
    requires Inv(w) && OneRow(w.db, db', id, id in w.submitted) && w.submitted <= submitted'
    ensures forall c :: c in w.polls ==> PollOk(c, w.polls[c], db', submitted')
    ensures forall c, j :: c in w.dets && j in w.dets[c].rows ==> SeenOk(c, j, w.dets[c].rows[j], db', submitted')
    ensures SentOk(w.sent, db')
  {
    forall c, j | c in w.dets && j in w.dets[c].rows
      ensures SeenOk(c, j, w.dets[c].rows[j], db', submitted')
    {
      assert DetOk(c, w.dets[c], w.db, w.submitted);
      SeenStep(c, j, w.dets[c].rows[j], w.db, db', w.submitted, submitted', id);
    }
    forall c | c in w.polls ensures PollOk(c, w.polls[c], db', submitted') {
      var l := w.polls[c];
      assert PollOk(c, l, w.db, w.submitted);
      forall j | j in l.rows ensures SeenOk(c, j, l.rows[j], db', submitted') {
        SeenStep(c, j, l.rows[j], w.db, db', w.submitted, submitted', id);
      }
      if l.resend.Some? {
        RawStep(w.db, db', id, id in w.submitted, l.resend.value.0, l.resend.value.1);
      }
    }
    forall d | d in w.sent ensures d.id in db'.txs && HasRaw(db'.AttemptsOf(d.id), d.raw) {
      RawStep(w.db, db', id, id in w.submitted, d.id, d.raw);
    }
  }

  /** A pipeline keeps its hold when someone else's row changes. */
  lemma PipesStep(pipes: map<Pair, Stage>, db: Db, db': Db, id: TxId, sub: bool, except: Option<Pair>)
    requires PipesOk(pipes, db) && OneRow(db, db', id, sub)
    requires || db.txs[id].status != Pending
             || (except.Some? && db.txs[id].pair == except.value)
    ensures forall p :: p in pipes && Some(p) != except ==> StageOk(p, pipes[p], db')
  {
    forall p | p in pipes && Some(p) != except ensures StageOk(p, pipes[p], db') {
      assert StageOk(p, pipes[p], db);
    }
  }

  /** A detector that has just looked is not disturbed by a row that keeps its number of attempts, nor
      by a row that was never submitted. */
  lemma BumpsStep(w: World, db': Db, submitted': set<TxId>, id: TxId, except: Option<nat>)
    requires Inv(w) && OneRow(w.db, db', id, id in w.submitted) && w.submitted <= submitted'
    requires || id !in w.submitted
             || |db'.AttemptsOf(id)| == |w.db.AttemptsOf(id)|
             || (except.Some? && w.db.txs[id].pair.chainId == except.value)
    ensures forall c :: c in w.dets && Some(c) != except ==> BumpOk(c, w.dets[c].bump, db', submitted')
  {
    forall c | c in w.dets && Some(c) != except ensures BumpOk(c, w.dets[c].bump, db', submitted') {
      assert DetOk(c, w.dets[c], w.db, w.submitted);
      BumpStep(c, w.dets[c].bump, w.db, db', w.submitted, submitted', id);
    }
  }

  // ---- two shapes of steps ----

  /** A step that writes no row and no attempt, and changes one worker's memory at most. */
  ghost predicate RowsUntouched(w: World, w': World) {
    && w'.db.txs == w.db.txs && w'.db.attempts == w.db.attempts
    && w'.submitted == w.submitted && w'.phase == w.phase && w.phase.Running?
  }

  ghost predicate OtherPipesSame(w: World, w': World, except: Option<Pair>) {
    && (forall p :: p in w'.pipes && Some(p) != except ==> p in w.pipes && w'.pipes[p] == w.pipes[p])
  }

  ghost predicate OtherDetsSame(w: World, w': World, except: Option<nat>) {
    && (forall c :: c in w'.dets && Some(c) != except ==> c in w.dets && w'.dets[c] == w.dets[c])
  }

  ghost predicate OtherPollsSame(w: World, w': World, except: Option<nat>) {
    && (forall c :: c in w'.polls && Some(c) != except ==> c in w.polls && w'.polls[c] == w.polls[c])
  }

  lemma MemoryChange(w: World, w': World, p: Option<Pair>, c: Option<nat>, l: Option<nat>)
    requires Inv(w) && RowsUntouched(w, w')
    requires OtherPipesSame(w, w', p) && OtherDetsSame(w, w', c) && OtherPollsSame(w, w', l)
    requires p.Some? ==> StageOk(p.value, w'.Pipe(p.value), w'.db)
    requires c.Some? ==> DetOk(c.value, w'.Det(c.value), w'.db, w'.submitted)
    requires l.Some? ==> PollOk(l.value, w'.Poll(l.value), w'.db, w'.submitted)
    requires SentOk(w'.sent, w'.db)
    ensures Inv(w')
  {
    SameAttemptsAgree(w.db, w'.db);
    forall q | q in w'.pipes ensures StageOk(q, w'.pipes[q], w'.db) {
      if Some(q) != p { assert StageOk(q, w.pipes[q], w.db); }
    }
    forall d | d in w'.dets ensures DetOk(d, w'.dets[d], w'.db, w'.submitted) {
      if Some(d) != c {
        assert DetOk(d, w.dets[d], w.db, w.submitted);
        SameRowsDet(d, w.dets[d], w.db, w'.db, w.submitted);
      }
    }
    forall d | d in w'.polls ensures PollOk(d, w'.polls[d], w'.db, w'.submitted) {
      if Some(d) != l {
        assert PollOk(d, w.polls[d], w.db, w.submitted);
        SameRowsPoll(d, w.polls[d], w.db, w'.db, w.submitted);
      }
    }
  }

  /** One pipeline moves to another stage. */
  lemma StageChange(w: World, p: Pair, g: Stage)
    requires Inv(w) && w.phase.Running? && p in w.pipes && StageOk(p, g, w.db)
    ensures Inv(w.(pipes := w.pipes[p := g]))
  {
    MemoryChange(w, w.(pipes := w.pipes[p := g]), Some(p), None, None);
  }

  /** One detector's memory changes. */
  lemma DetectorChange(w: World, c: nat, d: Detector)
    requires Inv(w) && w.phase.Running? && DetOk(c, d, w.db, w.submitted)
    ensures Inv(w.(dets := w.dets[c := d]))
  {
    MemoryChange(w, w.(dets := w.dets[c := d]), None, Some(c), None);
  }

  /** One poller's memory changes. */
  lemma PollerChange(w: World, c: nat, l: Poller)
    requires Inv(w) && w.phase.Running? && PollOk(c, l, w.db, w.submitted)
    ensures Inv(w.(polls := w.polls[c := l]))
  {
    MemoryChange(w, w.(polls := w.polls[c := l]), None, None, Some(c));
  }

  lemma SameAttemptsAgree(db: Db, db': Db)
    requires db'.attempts == db.attempts
    ensures forall id :: db'.AttemptsOf(id) == db.AttemptsOf(id)
  {
  }

  lemma SameRowsDet(c: nat, d: Detector, db: Db, db': Db, submitted: set<TxId>)
    requires db'.txs == db.txs && db'.attempts == db.attempts && DetOk(c, d, db, submitted)
    ensures DetOk(c, d, db', submitted)
  {
    SameAttemptsAgree(db, db');
    forall id | id in d.rows ensures SeenOk(c, id, d.rows[id], db', submitted) {
      assert SeenOk(c, id, d.rows[id], db, submitted);
    }
  }

  lemma SameRowsPoll(c: nat, l: Poller, db: Db, db': Db, submitted: set<TxId>)
    requires db'.txs == db.txs && db'.attempts == db.attempts && PollOk(c, l, db, submitted)
    ensures PollOk(c, l, db', submitted)
  {
    SameAttemptsAgree(db, db');
    forall id | id in l.rows ensures SeenOk(c, id, l.rows[id], db', submitted) {
      assert SeenOk(c, id, l.rows[id], db, submitted);
    }
  }

  /** A step that writes one row or its attempts. The acting pipeline owns the row; any other worker
      acts on a row that was submitted. */
  lemma RowChange(w: World, w': World, id: TxId, p: Option<Pair>, c: Option<nat>)
    requires Inv(w) && OneRow(w.db, w'.db, id, id in w.submitted)
    requires w.submitted <= w'.submitted <= w.submitted + {id}
    requires RowOk(w'.db.txs[id], w'.db.AttemptsOf(id), id in w'.submitted)
    requires w'.phase == w.phase && w.phase.Running? && w'.polls == w.polls && w'.sent == w.sent
    requires OtherPipesSame(w, w', p) && OtherDetsSame(w, w', c)
    requires if p.Some? then w.db.txs[id].pair == p.value else w.db.txs[id].status != Pending
    requires p.Some? ==> StageOk(p.value, w'.Pipe(p.value), w'.db)
    requires || id !in w.submitted || |w'.db.AttemptsOf(id)| == |w.db.AttemptsOf(id)|
             || (c.Some? && w.db.txs[id].pair.chainId == c.value)
    requires c.Some? ==> w'.Det(c.value).rows == w.Det(c.value).rows
                         && BumpOk(c.value, w'.Det(c.value).bump, w'.db, w'.submitted)
    ensures Inv(w')
  {
    RowsStep(w.db, w'.db, w.submitted, w'.submitted, id);
    PipesStep(w.pipes, w.db, w'.db, id, id in w.submitted, p);
    BumpsStep(w, w'.db, w'.submitted, id, c);
    MemoriesStep(w, w'.db, w'.submitted, id);
    DetectorsStep(w, w', c);
  }

  /** Every detector keeps the rows it has read; the acting one may be at another stage. */
  lemma DetectorsStep(w: World, w': World, c: Option<nat>)
    requires OtherDetsSame(w, w', c) && (c.Some? ==> w'.Det(c.value).rows == w.Det(c.value).rows)
    requires forall d, j :: d in w.dets && j in w.dets[d].rows ==>
               SeenOk(d, j, w.dets[d].rows[j], w'.db, w'.submitted) && w.dets[d].rows[j].status == Submitted
    requires forall d :: d in w.dets && Some(d) != c ==> BumpOk(d, w.dets[d].bump, w'.db, w'.submitted)
    requires c.Some? ==> BumpOk(c.value, w'.Det(c.value).bump, w'.db, w'.submitted)
    ensures forall d :: d in w'.dets ==> DetOk(d, w'.dets[d], w'.db, w'.submitted)
  {
    forall d | d in w'.dets ensures DetOk(d, w'.dets[d], w'.db, w'.submitted) {
      if d in w.dets {
        forall j | j in w'.dets[d].rows ensures SeenOk(d, j, w'.dets[d].rows[j], w'.db, w'.submitted) {
          assert w'.dets[d].rows == w.dets[d].rows;
        }
      }
    }
  }
}
