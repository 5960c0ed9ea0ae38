/** The database (internal/infrastructure/postgres/repo.go and migrations/001_init.sql) as a value:
    what each statement does to the four tables. Attempts and audit entries are grouped by the
    transaction they belong to. */
module Tables {
  import opened Domain

  // ---- what one UPDATE writes to one row ----

  function SetSubmitted(t: Transaction, hash: TxHash, now: nat): Transaction {
    t.(status := Submitted, finalHash := Some(hash), submittedAt := Some(now))
  }

  /** The columns every receipt write sets: MarkIncluded, MarkConfirmed and MarkReverted. */
  function SetReceipt(t: Transaction, status: TxStatus, hash: TxHash, r: Receipt): Transaction {
    t.(status := status, finalHash := Some(hash), blockNumber := Some(r.blockNumber),
       blockHash := Some(r.blockHash), gasUsed := Some(r.gasUsed),
       receiptStatus := Some(r.status % 256))
  }

  function ClearReceipt(t: Transaction): Transaction {
    t.(status := Submitted, blockNumber := None, blockHash := None, gasUsed := None,
       receiptStatus := None)
  }

  function SetFailed(t: Transaction, code: ErrorCode): Transaction {
    t.(status := Failed, errorCode := Some(code))
  }

  function SetQueuedAgain(t: Transaction): Transaction {
    if t.status == Pending then t.(status := Queued, nonce := None) else t
  }

  // ---- attempts of one transaction, in attempt_number order ----

  predicate HasNumber(s: seq<Attempt>, n: nat) {
    exists i :: 0 <= i < |s| && s[i].number == n
  }

  /** UNIQUE (transaction_id, attempt_number), with the rows kept in that order. */
  predicate Ordered(s: seq<Attempt>) {
    forall i, j :: 0 <= i < j < |s| ==> s[i].number < s[j].number
  }

  function InsertAttempt(s: seq<Attempt>, a: Attempt): seq<Attempt> {
    if s == [] || a.number < s[0].number then [a] + s else [s[0]] + InsertAttempt(s[1..], a)
  }

  function SetAttemptStatus(s: seq<Attempt>, n: nat, status: AttemptStatus): (r: seq<Attempt>)
    ensures |r| == |s|
    ensures forall i :: 0 <= i < |s| ==> r[i] == if s[i].number == n then s[i].(status := status) else s[i]
  {
    seq(|s|, i requires 0 <= i < |s| => if s[i].number == n then s[i].(status := status) else s[i])
  }

  lemma {:induction false} InsertAtEnd(s: seq<Attempt>, a: Attempt)
    requires forall i :: 0 <= i < |s| ==> s[i].number < a.number
    ensures InsertAttempt(s, a) == s + [a]
  {
    if s != [] {
      InsertAtEnd(s[1..], a);
      assert s == [s[0]] + s[1..];
    }
  }

  lemma {:induction false} InsertContents(s: seq<Attempt>, a: Attempt)
    ensures multiset(InsertAttempt(s, a)) == multiset(s) + multiset{a}
  {
    if s != [] && s[0].number <= a.number {
      InsertContents(s[1..], a);
      assert s == [s[0]] + s[1..];
    }
  }

  lemma {:induction false} InsertKeepsOrder(s: seq<Attempt>, a: Attempt)
    requires Ordered(s) && !HasNumber(s, a.number)
    ensures Ordered(InsertAttempt(s, a))
  {
    if s != [] && s[0].number <= a.number {
      assert s[0].number < a.number;
      var rest := s[1..];
      assert !HasNumber(rest, a.number);
      InsertKeepsOrder(rest, a);
      var r := InsertAttempt(rest, a);
      forall i | 0 <= i < |r| ensures s[0].number < r[i].number {
        InsertContents(rest, a);
        assert r[i] in multiset(r);
        assert r[i] in multiset(rest) || r[i] == a;
        if r[i] in rest {
          var j :| 0 <= j < |rest| && rest[j] == r[i];
          assert rest[j] == s[j + 1];
        }
      }
    }
  }

  // ---- the tables ----

  /** One transaction's rows in the three tables that mention it. */
  datatype Entity = Entity(tx: Transaction, attempts: seq<Attempt>, log: seq<LogEntry>)

  datatype Db = Db(
    txs: map<TxId, Transaction>,
    attempts: map<TxId, seq<Attempt>>,
    cursors: map<Pair, nat>,
    log: map<TxId, seq<LogEntry>>)
  {
    function AttemptsOf(id: TxId): seq<Attempt> {
      if id in attempts then attempts[id] else []
    }

    function LogOf(id: TxId): seq<LogEntry> {
      if id in log then log[id] else []
    }

    function CursorOf(p: Pair): Option<nat> {
      if p in cursors then Some(cursors[p]) else None
    }

    function EntityOf(id: TxId): Entity
      requires id in txs
    {
      Entity(txs[id], AttemptsOf(id), LogOf(id))
    }

    /** An UPDATE ... WHERE id = $1; a missing row is not an error. */
    function Put(id: TxId, row: Transaction): Db {
      if id in txs then this.(txs := txs[id := row]) else this
    }

    predicate CanCreate(t: Transaction) {
      t.id !in txs && forall id :: id in txs ==> txs[id].key != t.key
    }

    function CreateTransaction(t: Transaction): Db {
      this.(txs := txs[t.id := t])
    }

    predicate Waiting(p: Pair, id: TxId) {
      id in txs && txs[id].status == Queued && txs[id].pair == p
    }

    function Queue(p: Pair): set<TxId> {
      set id | id in txs && Waiting(p, id)
    }

    /** `id` is a row ClaimNextQueued may return: queued for the pair, none created earlier. */
    predicate ClaimsNext(p: Pair, id: TxId) {
      Waiting(p, id) && forall j :: j in txs && Waiting(p, j) ==> txs[id].createdAt <= txs[j].createdAt
    }

    function Claim(id: TxId): Db {
      if id in txs then Put(id, txs[id].(status := Pending)) else this
    }

    /** The two updates of AssignNonceAndMarkPending, in one database transaction. */
    function AssignNonce(id: TxId, p: Pair): Db
      requires p in cursors
    {
      var n := cursors[p];
      var d := this.(cursors := cursors[p := n + 1]);
      if id in txs then d.Put(id, txs[id].(nonce := Some(n))) else d
    }

    function MarkSubmitted(id: TxId, hash: TxHash, now: nat): Db {
      if id in txs then Put(id, SetSubmitted(txs[id], hash, now)) else this
    }

    function MarkWithReceipt(id: TxId, status: TxStatus, hash: TxHash, r: Receipt): Db {
      if id in txs then Put(id, SetReceipt(txs[id], status, hash, r)) else this
    }

    function RevertToSubmitted(id: TxId): Db {
      if id in txs then Put(id, ClearReceipt(txs[id])) else this
    }

    function MarkFailed(id: TxId, code: ErrorCode): Db {
      if id in txs then Put(id, SetFailed(txs[id], code)) else this
    }

    function ResetPending(): Db {
      this.(txs := map id | id in txs :: SetQueuedAgain(txs[id]))
    }

    /** The foreign key and the unique index on tx_attempts. */
    predicate CanStore(id: TxId, n: nat) {
      id in txs && !HasNumber(AttemptsOf(id), n)
    }

    function StoreAttempt(id: TxId, a: Attempt): Db {
      this.(attempts := attempts[id := InsertAttempt(AttemptsOf(id), a)])
    }

    function MarkAttempt(id: TxId, n: nat, status: AttemptStatus): Db {
      this.(attempts := attempts[id := SetAttemptStatus(AttemptsOf(id), n, status)])
    }

    function LogTransition(id: TxId, e: LogEntry): Db {
      this.(log := log[id := LogOf(id) + [e]])
    }

    function SetCursor(p: Pair, n: nat): Db {
      this.(cursors := cursors[p := n])
    }

    function InitCursor(p: Pair, n: nat): Db {
      if p in cursors && n <= cursors[p] then this else SetCursor(p, n)
    }

    function OverwriteCursor(p: Pair, n: nat): Db {
      if p in cursors then SetCursor(p, n) else this
    }

    ghost predicate Keyed() {
      forall id :: id in txs ==> txs[id].id == id
    }

    /** The unique keys and the order the attempts are kept in. */
    ghost predicate Valid() {
      && Keyed()
      && (forall i, j :: i in txs && j in txs && txs[i].key == txs[j].key ==> i == j)
      && (forall id :: id in attempts ==> Ordered(attempts[id]))
    }

    // ---- the workers' queries ----

    predicate Stuck(id: TxId, chainId: nat, before: nat) {
      && id in txs && txs[id].status == Submitted && txs[id].pair.chainId == chainId
      && txs[id].submittedAt.Some? && txs[id].submittedAt.value < before
    }

    predicate Matches(id: TxId, status: TxStatus, chainId: nat, after: Option<TxId>) {
      && id in txs && txs[id].status == status && txs[id].pair.chainId == chainId
      && (after.Some? ==> after.value < id)
    }

    /** A page: the first `limit` rows with the status on the chain after the cursor, by id. */
    ghost predicate IsPage(page: seq<Transaction>, status: TxStatus, chainId: nat, limit: nat,
                           after: Option<TxId>)
    {
      && |page| <= limit
      && (forall i :: 0 <= i < |page| ==>
            Matches(page[i].id, status, chainId, after) && page[i] == txs[page[i].id])
      && (forall i, j :: 0 <= i < j < |page| ==> page[i].id < page[j].id)
      && (forall id :: Matches(id, status, chainId, after) ==>
            || (exists i :: 0 <= i < |page| && page[i].id == id)
            || (|page| == limit && forall i :: 0 <= i < |page| ==> page[i].id < id))
    }
  }
}
