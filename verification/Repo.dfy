/** The repository object and the node client the workers share.

    Every statement of the repository can fail, unless the repository is `reliable`. A failing statement
    may still have taken effect: the connection can break after the commit. `faulted` remembers that
    some statement, read or write, failed; a statement that a constraint refuses has not failed. The
    client of the nodes is modelled in the same way. */
module Repository {
  import opened Domain
  import opened Tables

  datatype Outcome =
    | Done      // took effect, success reported
    | Lost      // no effect, error reported
    | Hidden    // took effect, error reported

  /** The state after a statement whose effect would be `after`. */
  function Settle<T>(o: Outcome, before: T, after: T): T {
    if o.Lost? then before else after
  }

  class Repo {
    var transactions: map<TxId, Transaction>
    var attempts: map<TxId, seq<Attempt>>
    var cursors: map<Pair, nat>
    var log: map<TxId, seq<LogEntry>>
    var faulted: bool
    const reliable: bool

    function State(): Db
      reads this
    {
      Db(transactions, attempts, cursors, log)
    }

    constructor (reliable: bool)
      ensures State() == Db(map[], map[], map[], map[]) && !faulted && State().Valid()
      ensures this.reliable == reliable
    {
      transactions, attempts, cursors, log := map[], map[], map[], map[];
      faulted := false;
      this.reliable := reliable;
    }

    /** A statement's fate; failures are recorded. */
    method Attempted() returns (o: Outcome)
      modifies this`faulted
      ensures faulted == (old(faulted) || !o.Done?) && (reliable ==> o.Done?)
    {
      var fate: Outcome := *;
      o := if reliable then Done else fate;
      faulted := faulted || !o.Done?;
    }

    method UpdateRow(id: TxId, row: Transaction) returns (o: Outcome)
      modifies this`transactions, this`faulted
      ensures State() == Settle(o, old(State()), old(State()).Put(id, row))
      ensures faulted == (old(faulted) || !o.Done?) && (reliable ==> o.Done?)
    {
      o := Attempted();
      if !o.Lost? && id in transactions {
        transactions := transactions[id := row];
      }
    }

    method CreateTransaction(t: Transaction) returns (o: Outcome)
      modifies this`transactions, this`faulted
      ensures !old(State()).CanCreate(t) ==> o.Lost? && State() == old(State()) && faulted == old(faulted)
      ensures old(State()).CanCreate(t) ==>
                && State() == Settle(o, old(State()), old(State()).CreateTransaction(t))
                && faulted == (old(faulted) || !o.Done?) && (reliable ==> o.Done?)
    {
      if t.id in transactions || exists id :: id in transactions && transactions[id].key == t.key {
        return Lost;
      }
      o := Attempted();
      if !o.Lost? {
        transactions := transactions[t.id := t];
      }
    }

    method GetTransactionByIdempotencyKey(key: string) returns (found: Option<Transaction>, ok: bool)
      requires State().Keyed()
      modifies this`faulted
      ensures faulted == (old(faulted) || !ok) && (reliable ==> ok)
      ensures found.Some? ==> ok && found.value.key == key && found.value.id in transactions
                              && transactions[found.value.id] == found.value
      ensures ok && found.None? ==> forall id :: id in transactions ==> transactions[id].key != key
    {
      found := None;
      var o := Attempted();
      ok := o.Done?;
      if !ok { return; }
      var rest := transactions.Keys;
      while rest != {}
        invariant rest <= transactions.Keys
        invariant forall id :: id in transactions && id !in rest ==> transactions[id].key != key
        decreases rest
      {
        var id :| id in rest;
        if transactions[id].key == key {
          found := Some(transactions[id]);
          return;
        }
        rest := rest - {id};
      }
    }

    /** The oldest queued row of the pair; SKIP LOCKED has nothing to skip, since the pair has one
        pipeline. No row and no error means that the queue was empty. */
    method ClaimNextQueued(p: Pair) returns (claimed: Option<Transaction>, o: Outcome, id: TxId)
      modifies this`transactions, this`faulted
      ensures faulted == (old(faulted) || !o.Done?) && (reliable ==> o.Done?)
      ensures || State() == old(State())
              || (old(State()).ClaimsNext(p, id) && State() == old(State()).Claim(id))
      ensures claimed.Some? ==>
                && o.Done? && old(State()).ClaimsNext(p, id) && State() == old(State()).Claim(id)
                && claimed == Some(State().txs[id])
      ensures claimed.None? && o.Done? ==>
                State() == old(State()) && forall j :: j in State().txs ==> !State().Waiting(p, j)
    {
      id := 0;
      claimed := None;
      o := Attempted();
      var best := OldestQueued(p);
      if best.Some? {
        id := best.value;
        if !o.Lost? {
          transactions := transactions[best.value := transactions[best.value].(status := Pending)];
        }
        if o.Done? {
          claimed := Some(transactions[best.value]);
        }
      }
    }

    method OldestQueued(p: Pair) returns (best: Option<TxId>)
      ensures best.Some? ==> State().ClaimsNext(p, best.value)
      ensures best.None? ==> forall j :: j in transactions ==> !State().Waiting(p, j)
    {
      best := None;
      ghost var db := State();
      var rest := transactions.Keys;
      while rest != {}
        invariant rest <= transactions.Keys
        invariant best.Some? ==> db.Waiting(p, best.value)
        invariant forall j :: j in transactions && j !in rest && db.Waiting(p, j) ==>
                    best.Some? && db.txs[best.value].createdAt <= db.txs[j].createdAt
        decreases rest
      {
        var id :| id in rest;
        var row := transactions[id];
        if row.status == Queued && row.pair == p
           && (best.None? || row.createdAt < transactions[best.value].createdAt) {
          best := Some(id);
        }
        rest := rest - {id};
      }
    }

    /** Both updates in one database transaction. Without a cursor row nothing happens. */
    method AssignNonceAndMarkPending(id: TxId, p: Pair) returns (nonce: nat, o: Outcome)
      modifies this`transactions, this`cursors, this`faulted
      ensures p !in old(cursors) ==> o.Lost? && State() == old(State()) && faulted == old(faulted)
      ensures p in old(cursors) ==>
                && State() == Settle(o, old(State()), old(State()).AssignNonce(id, p))
                && (o.Done? ==> nonce == old(cursors)[p])
                && faulted == (old(faulted) || !o.Done?) && (reliable ==> o.Done?)
    {
      nonce := 0;
      if p !in cursors {
        return nonce, Lost;
      }
      o := Attempted();
      if !o.Lost? {
        nonce := cursors[p];
        cursors := cursors[p := nonce + 1];
        if id in transactions {
          transactions := transactions[id := transactions[id].(nonce := Some(nonce))];
        }
      }
    }

    method MarkSubmitted(id: TxId, hash: TxHash, now: nat) returns (o: Outcome)
      modifies this`transactions, this`faulted
      ensures State() == Settle(o, old(State()), old(State()).MarkSubmitted(id, hash, now))
      ensures faulted == (old(faulted) || !o.Done?) && (reliable ==> o.Done?)
    {
      if id in transactions {
        o := UpdateRow(id, SetSubmitted(transactions[id], hash, now));
      } else {
        o := Attempted();
      }
    }

    /** MarkIncluded, MarkConfirmed and MarkReverted: one statement each, differing in the status. */
    method MarkWithReceipt(id: TxId, status: TxStatus, hash: TxHash, r: Receipt) returns (o: Outcome)
      modifies this`transactions, this`faulted
      ensures State() == Settle(o, old(State()), old(State()).MarkWithReceipt(id, status, hash, r))
      ensures faulted == (old(faulted) || !o.Done?) && (reliable ==> o.Done?)
    {
      if id in transactions {
        o := UpdateRow(id, SetReceipt(transactions[id], status, hash, r));
      } else {
        o := Attempted();
      }
    }

    method RevertToSubmitted(id: TxId) returns (o: Outcome)
      modifies this`transactions, this`faulted
      ensures State() == Settle(o, old(State()), old(State()).RevertToSubmitted(id))
      ensures faulted == (old(faulted) || !o.Done?) && (reliable ==> o.Done?)
    {
      if id in transactions {
        o := UpdateRow(id, ClearReceipt(transactions[id]));
      } else {
        o := Attempted();
      }
    }

    method MarkFailed(id: TxId, code: ErrorCode) returns (o: Outcome)
      modifies this`transactions, this`faulted
      ensures State() == Settle(o, old(State()), old(State()).MarkFailed(id, code))
      ensures faulted == (old(faulted) || !o.Done?) && (reliable ==> o.Done?)
    {
      if id in transactions {
        o := UpdateRow(id, SetFailed(transactions[id], code));
      } else {
        o := Attempted();
      }
    }

    method ResetPendingToQueued() returns (count: nat, o: Outcome)
      modifies this`transactions, this`faulted
      ensures State() == Settle(o, old(State()), old(State()).ResetPending())
      ensures faulted == (old(faulted) || !o.Done?) && (reliable ==> o.Done?)
      ensures o.Done? ==> count == |set id | id in old(transactions) && old(transactions)[id].status == Pending|
    {
      count := |set id | id in transactions && transactions[id].status == Pending|;
      o := Attempted();
      if !o.Lost? {
        transactions := map id | id in transactions :: SetQueuedAgain(transactions[id]);
      }
    }

    /** The unique index on (transaction_id, attempt_number) and the foreign key refuse the row. */
    method CreateAttempt(id: TxId, a: Attempt) returns (o: Outcome)
      modifies this`attempts, this`faulted
      ensures !old(State()).CanStore(id, a.number) ==> o.Lost? && State() == old(State()) && faulted == old(faulted)
      ensures old(State()).CanStore(id, a.number) ==>
                && State() == Settle(o, old(State()), old(State()).StoreAttempt(id, a))
                && faulted == (old(faulted) || !o.Done?) && (reliable ==> o.Done?)
      ensures old(State()).Valid() ==> State().Valid()
    {
      if !State().CanStore(id, a.number) {
        return Lost;
      }
      o := Attempted();
      if !o.Lost? {
        if State().Valid() {
          InsertKeepsOrder(State().AttemptsOf(id), a);
        }
        attempts := attempts[id := InsertAttempt(State().AttemptsOf(id), a)];
      }
    }

    /** In attempt_number order. A failed read counts as a failed statement. */
    method GetAttemptsByTransactionID(id: TxId) returns (found: seq<Attempt>, ok: bool)
      modifies this`faulted
      ensures found == if ok then State().AttemptsOf(id) else []
      ensures faulted == (old(faulted) || !ok) && (reliable ==> ok)
    {
      var o := Attempted();
      ok := o.Done?;
      found := if ok then State().AttemptsOf(id) else [];
    }

    method MarkAttemptStatus(id: TxId, number: nat, status: AttemptStatus) returns (o: Outcome)
      modifies this`attempts, this`faulted
      ensures State() == Settle(o, old(State()), old(State()).MarkAttempt(id, number, status))
      ensures faulted == (old(faulted) || !o.Done?) && (reliable ==> o.Done?)
    {
      o := Attempted();
      if !o.Lost? {
        attempts := attempts[id := SetAttemptStatus(State().AttemptsOf(id), number, status)];
      }
    }

    method GetNonceCursor(p: Pair) returns (found: Option<nat>, ok: bool)
      modifies this`faulted
      ensures ok ==> found == State().CursorOf(p)
      ensures faulted == (old(faulted) || !ok) && (reliable ==> ok)
    {
      var o := Attempted();
      ok := o.Done?;
      found := if ok && p in cursors then Some(cursors[p]) else None;
    }

    /** INSERT, or on conflict the greater of the two values. */
    method InitNonceCursor(p: Pair, n: nat) returns (o: Outcome)
      modifies this`cursors, this`faulted
      ensures State() == Settle(o, old(State()), old(State()).InitCursor(p, n))
      ensures faulted == (old(faulted) || !o.Done?) && (reliable ==> o.Done?)
    {
      o := Attempted();
      if !o.Lost? && (p in cursors ==> cursors[p] < n) {
        cursors := cursors[p := n];
      }
    }

    /** UPDATE: a pair without a row stays without one. */
    method SetNonceCursor(p: Pair, n: nat) returns (o: Outcome)
      modifies this`cursors, this`faulted
      ensures State() == Settle(o, old(State()), old(State()).OverwriteCursor(p, n))
      ensures faulted == (old(faulted) || !o.Done?) && (reliable ==> o.Done?)
    {
      o := Attempted();
      if !o.Lost? && p in cursors {
        cursors := cursors[p := n];
      }
    }

    method LogStateTransition(id: TxId, e: LogEntry) returns (o: Outcome)
      modifies this`log, this`faulted
      ensures State() == Settle(o, old(State()), old(State()).LogTransition(id, e))
      ensures faulted == (old(faulted) || !o.Done?) && (reliable ==> o.Done?)
    {
      o := Attempted();
      if !o.Lost? {
        log := log[id := State().LogOf(id) + [e]];
      }
    }

    /** GetSubmittedTransactions and GetIncludedTransactions: ORDER BY id LIMIT after a cursor. */
    method GetPage(status: TxStatus, chainId: nat, limit: nat, after: Option<TxId>)
      returns (page: seq<Transaction>, ok: bool)
      requires State().Keyed()
      modifies this`faulted
      ensures ok ==> State().IsPage(page, status, chainId, limit, after)
      ensures faulted == (old(faulted) || !ok) && (reliable ==> ok)
    {
      var o := Attempted();
      ok := o.Done?;
      page := FirstRows(State(), status, chainId, limit, after);
    }

    method GetStuckTransactions(chainId: nat, before: nat) returns (rows: seq<Transaction>, ok: bool)
      requires State().Keyed()
      modifies this`faulted
      ensures faulted == (old(faulted) || !ok) && (reliable ==> ok)
      ensures ok ==> Lists(rows, State(), set id | id in transactions && State().Stuck(id, chainId, before))
    {
      var o := Attempted();
      ok := o.Done?;
      rows := ListRows(State(), set id | id in transactions && State().Stuck(id, chainId, before));
    }
  }

  /** The rows of `ids`, each once, by ascending id. */
  ghost predicate Lists(rows: seq<Transaction>, db: Db, ids: set<TxId>) {
    && (forall i :: 0 <= i < |rows| ==> rows[i].id in ids && rows[i].id in db.txs && rows[i] == db.txs[rows[i].id])
    && (forall i, j :: 0 <= i < j < |rows| ==> rows[i].id < rows[j].id)
    && (forall id :: id in ids ==> exists i :: 0 <= i < |rows| && rows[i].id == id)
  }

  method ListRows(db: Db, ids: set<TxId>) returns (rows: seq<Transaction>)
    requires ids <= db.txs.Keys && db.Keyed()
    ensures Lists(rows, db, ids)
  {
    rows := [];
    var rest := ids;
    while rest != {}
      invariant rest <= ids && Lists(rows, db, ids - rest)
      invariant forall i, id :: 0 <= i < |rows| && id in rest ==> rows[i].id < id
      decreases rest
    {
      var id := LeastOf(rest);
      ghost var longer := rows + [db.txs[id]];
      assert longer[|rows|].id == id;
      forall j | j in ids - (rest - {id}) ensures exists i :: 0 <= i < |longer| && longer[i].id == j {
        if j != id {
          assert j in ids - rest;
          var i :| 0 <= i < |rows| && rows[i].id == j;
          assert longer[i].id == j;
        }
      }
      rows := rows + [db.txs[id]];
      rest := rest - {id};
    }
    assert ids - rest == ids;
  }

  method FirstRows(db: Db, status: TxStatus, chainId: nat, limit: nat, after: Option<TxId>)
    returns (page: seq<Transaction>)
    requires db.Keyed()
    ensures db.IsPage(page, status, chainId, limit, after)
  {
    page := [];
    var rest := set id | id in db.txs && db.Matches(id, status, chainId, after);
    while rest != {} && |page| < limit
      invariant |page| <= limit
      invariant PageSoFar(db, page, rest, status, chainId, after)
      decreases rest
    {
      var id := LeastOf(rest);
      NextOnPage(db, page, rest, id, status, chainId, after);
      page := page + [db.txs[id]];
      rest := rest - {id};
    }
    PageIsFull(db, page, rest, status, chainId, limit, after);
  }

  /** The rows on the page come before the matching rows that are left. */
  ghost predicate PageSoFar(db: Db, page: seq<Transaction>, rest: set<TxId>, status: TxStatus,
                            chainId: nat, after: Option<TxId>)
  {
    && (forall id :: id in rest ==> db.Matches(id, status, chainId, after))
    && (forall i :: 0 <= i < |page| ==>
          db.Matches(page[i].id, status, chainId, after) && page[i] == db.txs[page[i].id])
    && (forall i, j :: 0 <= i < j < |page| ==> page[i].id < page[j].id)
    && (forall i, id :: 0 <= i < |page| && id in rest ==> page[i].id < id)
    && (forall id :: db.Matches(id, status, chainId, after) ==>
          id in rest || exists i :: 0 <= i < |page| && page[i].id == id)
  }

  lemma PageIsFull(db: Db, page: seq<Transaction>, rest: set<TxId>, status: TxStatus, chainId: nat,
                   limit: nat, after: Option<TxId>)
    requires PageSoFar(db, page, rest, status, chainId, after)
    requires |page| <= limit && (rest == {} || |page| == limit)
    ensures db.IsPage(page, status, chainId, limit, after)
  {
  }

  lemma NextOnPage(db: Db, page: seq<Transaction>, rest: set<TxId>, id: TxId, status: TxStatus,
                   chainId: nat, after: Option<TxId>)
    requires db.Keyed() && PageSoFar(db, page, rest, status, chainId, after)
    requires id in rest && forall x :: x in rest ==> id <= x
    ensures PageSoFar(db, page + [db.txs[id]], rest - {id}, status, chainId, after)
  {
    var longer := page + [db.txs[id]];
    assert longer[|page|].id == id;
    forall j | db.Matches(j, status, chainId, after)
      ensures j in rest - {id} || exists i :: 0 <= i < |longer| && longer[i].id == j
    {
      if j != id && j !in rest {
        var i :| 0 <= i < |page| && page[i].id == j;
        assert longer[i].id == j;
      }
    }
  }

  method LeastOf(s: set<TxId>) returns (m: TxId)
    requires s != {}
    ensures m in s && forall x :: x in s ==> m <= x
  {
    m :| m in s;
    var rest := s - {m};
    while rest != {}
      invariant m in s && rest <= s
      invariant forall x :: x in s && x !in rest ==> m <= x
      decreases rest
    {
      var x :| x in rest;
      if x < m { m := x; }
      rest := rest - {x};
    }
  }

  /** A raw transaction handed to the node for a transaction row. */
  datatype Delivery = Delivery(id: TxId, raw: SignedTx, accepted: bool)

  /** The node as the workers see it: what it knows, and whether it takes the i-th transaction the
      worker at hand sends. `sent` keeps every delivery; accepted means a nil error. */
  class EthClient {
    var receipts: map<TxHash, Receipt>
    var head: Uint64
    var pending: Pair -> nat
    const accepts: nat -> bool
    const reliable: bool
    var faulted: bool
    var sends: nat
    ghost var sent: set<Delivery>
    ghost var calls: seq<Delivery>       // what the worker at hand sends, in order

    constructor (receipts: map<TxHash, Receipt>, head: Uint64, pending: Pair -> nat, accepts: nat -> bool,
                 reliable: bool)
      ensures this.receipts == receipts && this.head == head && this.pending == pending
      ensures this.accepts == accepts && this.reliable == reliable
      ensures sent == {} && calls == [] && sends == 0 && !faulted
    {
      this.receipts, this.head, this.pending := receipts, head, pending;
      this.accepts, this.reliable := accepts, reliable;
      sends, faulted := 0, false;
      sent, calls := {}, [];
    }

    /** Whether a question is answered. */
    method Answered() returns (ok: bool)
      modifies this`faulted
      ensures faulted == (old(faulted) || !ok) && (reliable ==> ok)
    {
      ok := *;
      ok := ok || reliable;
      faulted := faulted || !ok;
    }

    method PendingNonceAt(p: Pair) returns (n: nat, ok: bool)
      modifies this`faulted
      ensures ok ==> n == pending(p)
      ensures faulted == (old(faulted) || !ok) && (reliable ==> ok)
    {
      n := pending(p);
      ok := Answered();
    }

    method BlockNumber() returns (n: Uint64, ok: bool)
      modifies this`faulted
      ensures ok ==> n == head
      ensures faulted == (old(faulted) || !ok) && (reliable ==> ok)
    {
      n := head;
      ok := Answered();
    }

    /** Receipts that are missing or failed to load are left out of the answer. */
    method BatchTransactionReceipts(hashes: set<TxHash>) returns (found: map<TxHash, Receipt>, ok: bool)
      modifies this`faulted
      ensures ok ==> found == map h | h in hashes && h in receipts :: receipts[h]
      ensures faulted == (old(faulted) || !ok) && (reliable ==> ok)
    {
      found := map h | h in hashes && h in receipts :: receipts[h];
      ok := Answered();
    }

    method SendTransaction(id: TxId, raw: SignedTx) returns (ok: bool)
      modifies this`sent, this`calls, this`sends
      ensures ok == accepts(old(sends)) && sends == old(sends) + 1
      ensures sent == old(sent) + {Delivery(id, raw, ok)}
      ensures calls == old(calls) + [Delivery(id, raw, ok)]
    {
      ok := accepts(sends);
      sends := sends + 1;
      sent, calls := sent + {Delivery(id, raw, ok)}, calls + [Delivery(id, raw, ok)];
    }
  }
}
