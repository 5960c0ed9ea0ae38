/** Concurrent requests and the pipelines' wake-up (internal/api/transfer.go, Create;
    internal/pipeline/pipeline.go, Run and Notify).

    A handler's lookup, insert, log entry, notification and reply are steps of their own. A pipeline
    loop claims, works, or waits on its one-slot channel and a timer. */
module Intake {
  import opened Domain
  import opened Tables
  import opened Repository
  import opened Transfers

  datatype Handler =
    | Looking(req: ValidRequest)
    | Inserting(req: ValidRequest, row: Transaction)
    | Logging(req: ValidRequest, row: Transaction)
    | Notifying(req: ValidRequest, row: Transaction)
    | Replying(req: ValidRequest, row: Transaction)

  datatype Loop = Claiming | Working | Waiting

  datatype Answer = Accepted(id: TxId) | Refused(error: ApiError)

  datatype Reply = Reply(req: ValidRequest, answer: Answer)

  datatype State = State(
    db: Db,
    up: bool,
    handlers: map<nat, Handler>,
    loops: map<Pair, Loop>,
    tokens: set<Pair>,            // pairs whose channel holds a token
    // history
    replies: set<Reply>,
    unconfirmed: set<TxId>)       // inserted, but the insert reported an error

  function Initial(): State {
    State(Db(map[], map[], map[], map[]), false, map[], map[], {}, {}, {})
  }

  datatype Event =
    | Arrive(h: nat, req: ValidRequest)
    | LookupFails(h: nat)
    | LookupFinds(h: nat, id: TxId)
    | LookupMisses(h: nat, id: TxId, now: nat)
    | Insert(h: nat, o: Outcome)
    | LogEntry(h: nat)
    | Notify(h: nat)
    | Answer(h: nat)
    | Claim(p: Pair, id: TxId, o: Outcome)
    | Empty(p: Pair)
    | Finish(p: Pair)
    | Wake(p: Pair)
    | Tick(p: Pair)
    | Work(id: TxId, row: Transaction)
    | Crash
    | Boot(pairs: set<Pair>)

  /** What no statement changes in a row, whatever happens to its status. */
  predicate SameRequest(a: Transaction, b: Transaction) {
    && a.id == b.id && a.key == b.key && a.pair == b.pair && a.recipient == b.recipient
    && a.token == b.token && a.amount == b.amount && a.createdAt == b.createdAt
  }

  predicate Enabled(chains: map<nat, ChainConfig>, signers: set<Address>, s: State, e: Event) {
    match e
    case Arrive(h, req) =>
      s.up && h !in s.handlers && Validate(req, chains, signers).None?
    case LookupFails(h) => h in s.handlers && s.handlers[h].Looking?
    case LookupFinds(h, id) =>
      h in s.handlers && s.handlers[h].Looking? && id in s.db.txs && s.db.txs[id].key == s.handlers[h].req.key
    case LookupMisses(h, _, _) =>
      h in s.handlers && s.handlers[h].Looking?
      && forall id :: id in s.db.txs ==> s.db.txs[id].key != s.handlers[h].req.key
    case Insert(h, _) => h in s.handlers && s.handlers[h].Inserting?
    case LogEntry(h) => h in s.handlers && s.handlers[h].Logging?
    case Notify(h) => h in s.handlers && s.handlers[h].Notifying?
    case Answer(h) => h in s.handlers && s.handlers[h].Replying?
    case Claim(p, id, _) => p in s.loops && s.loops[p].Claiming? && s.db.ClaimsNext(p, id)
    case Empty(p) =>
      p in s.loops && s.loops[p].Claiming? && forall id :: id in s.db.txs ==> !s.db.Waiting(p, id)
    case Finish(p) => p in s.loops && s.loops[p].Working?
    case Wake(p) => p in s.loops && s.loops[p].Waiting? && p in s.tokens
    case Tick(p) => p in s.loops && s.loops[p].Waiting?
    case Work(id, row) =>
      // any worker on any row it holds: rows enter the queue only by insert and by crash recovery
      id in s.db.txs && SameRequest(s.db.txs[id], row) && s.db.txs[id].status != Queued && row.status != Queued
    case Crash => true
    case Boot(_) => !s.up
  }

  function Answered(s: State, h: nat, a: Answer): State
    requires h in s.handlers
  {
    s.(handlers := s.handlers - {h}, replies := s.replies + {Reply(s.handlers[h].req, a)})
  }

  function ResolveOn(req: ValidRequest, chains: map<nat, ChainConfig>): Result<Resolved, ApiError> {
    if req.chainId in chains then Resolve(req, chains[req.chainId]) else Err(ApiError(InvalidChain, 400))
  }

  function AfterFinding(s: State, h: nat, id: TxId): State
    requires h in s.handlers && id in s.db.txs
  {
    Answered(s, h, if Matches(s.db.txs[id], s.handlers[h].req) then Accepted(id)
                   else Refused(ApiError(IdempotencyConflict, 409)))
  }

  function AfterMissing(chains: map<nat, ChainConfig>, s: State, h: nat, id: TxId, now: nat): State
    requires h in s.handlers
  {
    var req := s.handlers[h].req;
    var r := ResolveOn(req, chains);
    if r.Err? then Answered(s, h, Refused(r.error))
    else s.(handlers := s.handlers[h := Inserting(req, NewTransaction(req, r.value, id, now))])
  }

  /** A unique key that is already there, or any other error, is answered with 500. */
  function AfterInsert(s: State, h: nat, o: Outcome): State
    requires h in s.handlers && s.handlers[h].Inserting?
  {
    var Inserting(req, row) := s.handlers[h];
    if !s.db.CanCreate(row) || o.Lost? then Answered(s, h, Refused(ApiError(ApiInternalError, 500)))
    else if o.Hidden? then
      Answered(s, h, Refused(ApiError(ApiInternalError, 500))).(
        db := s.db.CreateTransaction(row), unconfirmed := s.unconfirmed + {row.id})
    else s.(db := s.db.CreateTransaction(row), handlers := s.handlers[h := Logging(req, row)])
  }

  /** The channel holds one token; a second one is dropped. A pair without pipeline has no channel. */
  function AfterNotify(s: State, h: nat): State
    requires h in s.handlers && s.handlers[h].Notifying?
  {
    var Notifying(req, row) := s.handlers[h];
    s.(handlers := s.handlers[h := Replying(req, row)],
       tokens := if row.pair in s.loops then s.tokens + {row.pair} else s.tokens)
  }

  function AfterClaim(s: State, p: Pair, id: TxId, o: Outcome): State
    requires p in s.loops
  {
    s.(db := Settle(o, s.db, s.db.Claim(id)), loops := if o.Done? then s.loops[p := Working] else s.loops)
  }

  function Step(chains: map<nat, ChainConfig>, signers: set<Address>, s: State, e: Event): State
    requires Enabled(chains, signers, s, e)
  {
    match e
    case Arrive(h, req) => s.(handlers := s.handlers[h := Looking(req)])
    case LookupFails(h) => Answered(s, h, Refused(ApiError(ApiInternalError, 500)))
    case LookupFinds(h, id) => AfterFinding(s, h, id)
    case LookupMisses(h, id, now) => AfterMissing(chains, s, h, id, now)
    case Insert(h, o) => AfterInsert(s, h, o)
    case LogEntry(h) => s.(handlers := s.handlers[h := Notifying(s.handlers[h].req, s.handlers[h].row)])
    case Notify(h) => AfterNotify(s, h)
    case Answer(h) => Answered(s, h, Accepted(s.handlers[h].row.id))
    case Claim(p, id, o) => AfterClaim(s, p, id, o)
    case Empty(p) => s.(loops := s.loops[p := Waiting])
    case Finish(p) => s.(loops := s.loops[p := Claiming])
    case Wake(p) => s.(loops := s.loops[p := Claiming], tokens := s.tokens - {p})
    case Tick(p) => s.(loops := s.loops[p := Claiming])
    case Work(id, row) => s.(db := s.db.Put(id, row))
    case Crash => s.(up := false, handlers := map[], loops := map[], tokens := {}, unconfirmed := {})
    case Boot(pairs) => s.(up := true, db := s.db.ResetPending(), loops := map p | p in pairs :: Claiming)
  }

  ghost predicate IsHistory(chains: map<nat, ChainConfig>, signers: set<Address>, ss: seq<State>, es: seq<Event>) {
    && |ss| == |es| + 1 && ss[0] == Initial()
    && forall i :: 0 <= i < |es| ==>
         Enabled(chains, signers, ss[i], es[i]) && ss[i + 1] == Step(chains, signers, ss[i], es[i])
  }

  // ---- what every state satisfies ----

  ghost predicate RowsOk(db: Db) {
    && (forall id :: id in db.txs ==> db.txs[id].id == id)
    && (forall i, j :: i in db.txs && j in db.txs && db.txs[i].key == db.txs[j].key ==> i == j)
  }

  /** The row is in the table under the request's key, and the request matches it. */
  ghost predicate Stands(db: Db, req: ValidRequest, id: TxId) {
    id in db.txs && db.txs[id].key == req.key && Matches(db.txs[id], req)
  }

  ghost predicate HandlerOk(h: Handler, db: Db) {
    match h
    case Looking(_) => true
    case Inserting(req, row) => row.key == req.key && Matches(row, req) && row.status == Queued
    case Logging(req, row) => Stands(db, req, row.id) && db.txs[row.id].pair == row.pair
    case Notifying(req, row) => Stands(db, req, row.id) && db.txs[row.id].pair == row.pair
    case Replying(req, row) => Stands(db, req, row.id) && db.txs[row.id].pair == row.pair
  }

  ghost predicate ReplyOk(r: Reply, db: Db) {
    match r.answer
    case Accepted(id) => Stands(db, r.req, id)
    case Refused(e) =>
      e.http == 409 ==> exists id :: id in db.txs && db.txs[id].key == r.req.key && !Matches(db.txs[id], r.req)
  }

  /** Somebody is about to put a token in the row's channel. */
  predicate ToNotify(h: Handler, id: TxId) {
    (h.Logging? || h.Notifying?) && h.row.id == id
  }

  ghost predicate WillBeNotified(handlers: map<nat, Handler>, id: TxId) {
    exists h :: h in handlers && ToNotify(handlers[h], id)
  }

  /** No wake-up is lost, except for rows whose insert reported an error. */
  ghost predicate Awake(s: State) {
    forall p, id :: p in s.loops && s.loops[p].Waiting? && p !in s.tokens && s.db.Waiting(p, id) ==>
      id in s.unconfirmed || WillBeNotified(s.handlers, id)
  }

  ghost predicate Inv(s: State) {
    && RowsOk(s.db)
    && (forall h :: h in s.handlers ==> HandlerOk(s.handlers[h], s.db))
    && (forall r :: r in s.replies ==> ReplyOk(r, s.db))
    && Awake(s)
    && (!s.up ==> s.loops == map[])
  }

  // ---- rows only grow ----

  ghost predicate Grows(db: Db, db': Db) {
    forall id :: id in db.txs ==> id in db'.txs && SameRequest(db.txs[id], db'.txs[id])
  }

  lemma RepliesStand(db: Db, db': Db, replies: set<Reply>)
    requires Grows(db, db') && forall r :: r in replies ==> ReplyOk(r, db)
    ensures forall r :: r in replies ==> ReplyOk(r, db')
  {
    forall r | r in replies ensures ReplyOk(r, db') {
      if r.answer.Refused? && r.answer.error.http == 409 {
        var id :| id in db.txs && db.txs[id].key == r.req.key && !Matches(db.txs[id], r.req);
        assert id in db'.txs && !Matches(db'.txs[id], r.req);
      }
    }
  }

  lemma HandlersStand(db: Db, db': Db, handlers: map<nat, Handler>)
    requires Grows(db, db') && forall h :: h in handlers ==> HandlerOk(handlers[h], db)
    ensures forall h :: h in handlers ==> HandlerOk(handlers[h], db')
  {
  }

  // ---- every step keeps it ----

  lemma AnsweredKeeps(s: State, h: nat, a: Answer)
    requires Inv(s) && h in s.handlers && !s.handlers[h].Logging? && !s.handlers[h].Notifying?
    requires ReplyOk(Reply(s.handlers[h].req, a), s.db)
    ensures Inv(Answered(s, h, a))
  {
    var s' := Answered(s, h, a);
    forall p, id | p in s'.loops && s'.loops[p].Waiting? && p !in s'.tokens && s'.db.Waiting(p, id)
      ensures id in s'.unconfirmed || WillBeNotified(s'.handlers, id)
    {
      if id !in s.unconfirmed {
        var g :| g in s.handlers && ToNotify(s.handlers[g], id);
        assert g in s'.handlers && ToNotify(s'.handlers[g], id);
      }
    }
  }

  lemma FindingKeeps(s: State, h: nat, id: TxId)
    requires Inv(s) && h in s.handlers && s.handlers[h].Looking?
    requires id in s.db.txs && s.db.txs[id].key == s.handlers[h].req.key
    ensures Inv(AfterFinding(s, h, id))
  {
    AnsweredKeeps(s, h, if Matches(s.db.txs[id], s.handlers[h].req) then Accepted(id)
                        else Refused(ApiError(IdempotencyConflict, 409)));
  }

  /** A handler that is not about to notify moves on; nobody's notification is lost. */
  lemma HandlerMoves(s: State, h: nat, g: Handler)
    requires Inv(s) && HandlerOk(g, s.db)
    requires h in s.handlers ==>
               (s.handlers[h].Logging? || s.handlers[h].Notifying?) ==> ToNotify(g, s.handlers[h].row.id)
    ensures Inv(s.(handlers := s.handlers[h := g]))
  {
    var handlers := s.handlers[h := g];
    forall id | WillBeNotified(s.handlers, id) ensures WillBeNotified(handlers, id) {
      var f :| f in s.handlers && ToNotify(s.handlers[f], id);
      assert f in handlers && ToNotify(handlers[f], id);
    }
  }

  lemma MissingKeeps(chains: map<nat, ChainConfig>, s: State, h: nat, id: TxId, now: nat)
    requires Inv(s) && h in s.handlers && s.handlers[h].Looking?
    ensures Inv(AfterMissing(chains, s, h, id, now))
  {
    var req := s.handlers[h].req;
    var r := ResolveOn(req, chains);
    if r.Err? {
      ResolveNeverConflicts(req, chains);
      AnsweredKeeps(s, h, Refused(r.error));
    } else {
      MatchesCreatedIff(req, r.value, id, now, req);
      HandlerMoves(s, h, Inserting(req, NewTransaction(req, r.value, id, now)));
    }
  }

  lemma ResolveNeverConflicts(req: ValidRequest, chains: map<nat, ChainConfig>)
    ensures ResolveOn(req, chains).Err? ==> ResolveOn(req, chains).error.http != 409
  {
  }

  /** The new row enters the queue together with its handler's duty to notify. */
  lemma CreatingKeeps(s: State, h: nat)
    requires Inv(s) && h in s.handlers && s.handlers[h].Inserting? && s.db.CanCreate(s.handlers[h].row)
    ensures Inv(AfterInsert(s, h, Done))
  {
    var (row, s') := (s.handlers[h].row, AfterInsert(s, h, Done));
    assert Grows(s.db, s'.db);
    RepliesStand(s.db, s'.db, s.replies);
    HandlersStand(s.db, s'.db, s.handlers);
    assert s'.handlers[h] == Logging(s.handlers[h].req, row);
    forall p, id | p in s'.loops && s'.loops[p].Waiting? && p !in s'.tokens && s'.db.Waiting(p, id)
      ensures id in s'.unconfirmed || WillBeNotified(s'.handlers, id)
    {
      if id == row.id {
        assert ToNotify(s'.handlers[h], id);
      } else if id !in s.unconfirmed {
        assert s.db.Waiting(p, id);
        var g :| g in s.handlers && ToNotify(s.handlers[g], id);
        assert ToNotify(s'.handlers[g], id);
      }
    }
  }

  lemma UnconfirmedKeeps(s: State, row: Transaction)
    requires Inv(s) && s.db.CanCreate(row)
    ensures Inv(s.(db := s.db.CreateTransaction(row), unconfirmed := s.unconfirmed + {row.id}))
  {
    var s' := s.(db := s.db.CreateTransaction(row), unconfirmed := s.unconfirmed + {row.id});
    assert Grows(s.db, s'.db);
    RepliesStand(s.db, s'.db, s.replies);
    HandlersStand(s.db, s'.db, s.handlers);
    forall p, id | p in s'.loops && s'.loops[p].Waiting? && p !in s'.tokens && s'.db.Waiting(p, id)
      ensures id in s'.unconfirmed || WillBeNotified(s'.handlers, id)
    {
      if id != row.id { assert s.db.Waiting(p, id); }
    }
  }

  lemma InsertKeeps(s: State, h: nat, o: Outcome)
    requires Inv(s) && h in s.handlers && s.handlers[h].Inserting?
    ensures Inv(AfterInsert(s, h, o))
  {
    var (row, failed) := (s.handlers[h].row, Refused(ApiError(ApiInternalError, 500)));
    if !s.db.CanCreate(row) || o.Lost? {
      AnsweredKeeps(s, h, failed);
    } else if o.Hidden? {
      AnsweredKeeps(s, h, failed);
      UnconfirmedKeeps(Answered(s, h, failed), row);
    } else {
      CreatingKeeps(s, h);
    }
  }

  lemma NotifyKeeps(s: State, h: nat)
    requires Inv(s) && h in s.handlers && s.handlers[h].Notifying?
    ensures Inv(AfterNotify(s, h))
  {
    var (row, s') := (s.handlers[h].row, AfterNotify(s, h));
    assert HandlerOk(s.handlers[h], s.db);
    forall p, id | p in s'.loops && s'.loops[p].Waiting? && p !in s'.tokens && s'.db.Waiting(p, id)
      ensures id in s'.unconfirmed || WillBeNotified(s'.handlers, id)
    {
      if id !in s.unconfirmed {
        assert s.db.Waiting(p, id);
        var g :| g in s.handlers && ToNotify(s.handlers[g], id);
        // had it been h's row, the token would be in p's channel
        assert g != h;
        assert ToNotify(s'.handlers[g], id);
      }
    }
  }

  /** Rows that are rewritten do not enter the queue. */
  lemma WritingKeeps(s: State, db': Db)
    requires Inv(s) && Grows(s.db, db') && db'.txs.Keys == s.db.txs.Keys
    requires forall id :: id in s.db.txs && db'.txs[id].status == Queued ==> s.db.txs[id].status == Queued
    ensures Inv(s.(db := db'))
  {
    RepliesStand(s.db, db', s.replies);
    HandlersStand(s.db, db', s.handlers);
    forall p, id | p in s.loops && s.loops[p].Waiting? && p !in s.tokens && db'.Waiting(p, id)
      ensures id in s.unconfirmed || WillBeNotified(s.handlers, id)
    {
      assert s.db.Waiting(p, id);
    }
  }

  lemma LoopMoves(s: State, p: Pair, l: Loop, tokens: set<Pair>)
    requires Inv(s) && p in s.loops && s.tokens - {p} <= tokens
    requires l.Waiting? ==> forall id :: id in s.db.txs ==> !s.db.Waiting(p, id)
    ensures Inv(s.(loops := s.loops[p := l], tokens := tokens))
  {
    var s' := s.(loops := s.loops[p := l], tokens := tokens);
    forall q, id | q in s'.loops && s'.loops[q].Waiting? && q !in s'.tokens && s'.db.Waiting(q, id)
      ensures id in s'.unconfirmed || WillBeNotified(s'.handlers, id)
    {
      if q != p { assert s.db.Waiting(q, id) && q !in s.tokens; }
    }
  }

  lemma ClaimKeeps(s: State, p: Pair, id: TxId, o: Outcome)
    requires Inv(s) && p in s.loops && s.db.ClaimsNext(p, id)
    ensures Inv(AfterClaim(s, p, id, o))
  {
    var t := s.(db := Settle(o, s.db, s.db.Claim(id)));
    WritingKeeps(s, t.db);
    if o.Done? { LoopMoves(t, p, Working, s.tokens); }
  }

  lemma BootKeeps(s: State, pairs: set<Pair>)
    requires Inv(s) && !s.up
    ensures Inv(s.(up := true, db := s.db.ResetPending(), loops := map p | p in pairs :: Claiming))
  {
    RepliesStand(s.db, s.db.ResetPending(), s.replies);
    HandlersStand(s.db, s.db.ResetPending(), s.handlers);
  }

  lemma StepKeepsInv(chains: map<nat, ChainConfig>, signers: set<Address>, s: State, e: Event)
    requires Inv(s) && Enabled(chains, signers, s, e)
    ensures Inv(Step(chains, signers, s, e))
  {
    match e
    case Arrive(h, req) => HandlerMoves(s, h, Looking(req));
    case LookupFails(h) => AnsweredKeeps(s, h, Refused(ApiError(ApiInternalError, 500)));
    case LookupFinds(h, id) => FindingKeeps(s, h, id);
    case LookupMisses(h, id, now) => MissingKeeps(chains, s, h, id, now);
    case Insert(h, o) => InsertKeeps(s, h, o);
    case LogEntry(h) => HandlerMoves(s, h, Notifying(s.handlers[h].req, s.handlers[h].row));
    case Notify(h) => NotifyKeeps(s, h);
    case Answer(h) => AnsweredKeeps(s, h, Accepted(s.handlers[h].row.id));
    case Claim(p, id, o) => ClaimKeeps(s, p, id, o);
    case Empty(p) => LoopMoves(s, p, Waiting, s.tokens);
    case Finish(p) => LoopMoves(s, p, Claiming, s.tokens);
    case Wake(p) => LoopMoves(s, p, Claiming, s.tokens - {p});
    case Tick(p) => LoopMoves(s, p, Claiming, s.tokens);
    case Work(id, row) => WritingKeeps(s, s.db.Put(id, row));
    case Crash =>
    case Boot(pairs) => BootKeeps(s, pairs);
  }

  lemma {:induction false} HistoryKeepsInv(chains: map<nat, ChainConfig>, signers: set<Address>,
                                           ss: seq<State>, es: seq<Event>, i: nat)
    requires IsHistory(chains, signers, ss, es) && i < |ss|
    ensures Inv(ss[i])
  {
    if i > 0 {
      HistoryKeepsInv(chains, signers, ss, es, i - 1);
      StepKeepsInv(chains, signers, ss[i - 1], es[i - 1]);
    }
  }

  // ---- idempotency ----

  /** In every interleaving, with any crashes and lost replies: two requests with one key that are
      both accepted were given the same transaction and ask for the same transfer; one that was
      refused with 409 asks for another transfer than every request accepted under its key. */
  lemma OneTransactionPerKey(chains: map<nat, ChainConfig>, signers: set<Address>,
                             ss: seq<State>, es: seq<Event>, i: nat, a: Reply, b: Reply)
    requires IsHistory(chains, signers, ss, es) && i < |ss|
    requires a in ss[i].replies && b in ss[i].replies && a.req.key == b.req.key && a.answer.Accepted?
    ensures a.answer.id in ss[i].db.txs && ss[i].db.txs[a.answer.id].key == a.req.key
    ensures b.answer.Accepted? ==> b.answer.id == a.answer.id && SameTransfer(a.req, b.req)
    ensures b.answer.Refused? && b.answer.error.http == 409 ==> !SameTransfer(a.req, b.req)
  {
    HistoryKeepsInv(chains, signers, ss, es, i);
    var db := ss[i].db;
    assert ReplyOk(a, db) && ReplyOk(b, db);
    if b.answer.Accepted? {
      MatchingIsShared(db.txs[a.answer.id], a.req, b.req);
    } else if b.answer.error.http == 409 {
      var id :| id in db.txs && db.txs[id].key == b.req.key && !Matches(db.txs[id], b.req);
      if SameTransfer(a.req, b.req) { MatchingIsTransferred(db.txs[id], a.req, b.req); }
    }
  }

  lemma MatchingIsTransferred(t: Transaction, a: ValidRequest, b: ValidRequest)
    requires Matches(t, a) && SameTransfer(a, b)
    ensures Matches(t, b)
  {
    UpperTwice(a.token);
    UpperTwice(b.token);
  }

  /** At most one row has a key, in every state of every history. */
  lemma KeysAreUnique(chains: map<nat, ChainConfig>, signers: set<Address>,
                      ss: seq<State>, es: seq<Event>, n: nat, i: TxId, j: TxId)
    requires IsHistory(chains, signers, ss, es) && n < |ss|
    requires i in ss[n].db.txs && j in ss[n].db.txs && ss[n].db.txs[i].key == ss[n].db.txs[j].key
    ensures i == j
  {
    HistoryKeepsInv(chains, signers, ss, es, n);
  }

  // ---- wake-up ----

  /** In every interleaving: while a pipeline waits with an empty channel, every QUEUED row of its
      pair belongs to a handler that has inserted it and not yet notified, or to an insert that
      reported an error although it took effect. */
  lemma NoLostWakeUp(chains: map<nat, ChainConfig>, signers: set<Address>,
                     ss: seq<State>, es: seq<Event>, i: nat, p: Pair, id: TxId) returns (h: nat)
    requires IsHistory(chains, signers, ss, es) && i < |ss|
    requires p in ss[i].loops && ss[i].loops[p].Waiting? && p !in ss[i].tokens && ss[i].db.Waiting(p, id)
    ensures id in ss[i].unconfirmed || (h in ss[i].handlers && ToNotify(ss[i].handlers[h], id))
  {
    HistoryKeepsInv(chains, signers, ss, es, i);
    h := 0;
    if id !in ss[i].unconfirmed {
      h :| h in ss[i].handlers && ToNotify(ss[i].handlers[h], id);
    }
  }

  /** The exception is real: an insert whose reply is lost leaves its row to the timer. */
  lemma LostReplyWaitsForTheTimer(chains: map<nat, ChainConfig>, signers: set<Address>, s: State, h: nat)
    requires Inv(s) && h in s.handlers && s.handlers[h].Inserting? && s.db.CanCreate(s.handlers[h].row)
    requires var p := s.handlers[h].row.pair; p in s.loops && s.loops[p].Waiting? && p !in s.tokens
    ensures Enabled(chains, signers, s, Insert(h, Hidden))
    ensures var (row, s') := (s.handlers[h].row, Step(chains, signers, s, Insert(h, Hidden)));
            && s'.loops[row.pair].Waiting? && row.pair !in s'.tokens && s'.db.Waiting(row.pair, row.id)
            && !WillBeNotified(s'.handlers, row.id)
  {
    var (row, s') := (s.handlers[h].row, AfterInsert(s, h, Hidden));
    assert HandlerOk(s.handlers[h], s.db);
    forall g | g in s'.handlers ensures !ToNotify(s'.handlers[g], row.id) {
      assert HandlerOk(s.handlers[g], s.db);
    }
  }
}
