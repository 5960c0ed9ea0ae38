/** The endpoint as one request runs through it (internal/api/transfer.go, Create). */
module Endpoint {
  import opened Domain
  import opened Tables
  import opened Repository
  import opened Transfers
  import Intake
  import Lifecycle

  /** A request handled without a failed statement: what is answered, what the tables become and
      which pipeline is notified. */
  ghost predicate Handles(
      chains: map<nat, ChainConfig>, signers: set<Address>, db: Db, req: Request, id: TxId, now: nat,
      answer: Intake.Answer, d: Db, notified: Option<Pair>)
  {
    var invalid := Validate(req, chains, signers);
    if invalid.Some? then answer == Intake.Refused(invalid.value) && d == db && notified.None?
    else if !WellFormed(req) then false
    else if exists j :: j in db.txs && db.txs[j].key == req.key then
      && d == db && notified.None?
      && exists j :: j in db.txs && db.txs[j].key == req.key
           && answer == if Matches(db.txs[j], req) then Intake.Accepted(j)
                        else Intake.Refused(ApiError(IdempotencyConflict, 409))
    else
      var r := Intake.ResolveOn(req, chains);
      if r.Err? then answer == Intake.Refused(r.error) && d == db && notified.None?
      else
        var row := NewTransaction(req, r.value, id, now);
        if id in db.txs then answer == Intake.Refused(ApiError(ApiInternalError, 500)) && d == db && notified.None?
        else
          && answer == Intake.Accepted(id) && notified == Some(row.pair)
          && d == db.CreateTransaction(row).LogTransition(id, LogEntry(None, Queued, Api))
  }

  /** Without a failure an id or key that is taken is refused, and any other row stands with its entry. */
  ghost predicate Inserts(db: Db, row: Transaction, answer: Intake.Answer, d: Db, notified: Option<Pair>) {
    if db.CanCreate(row) then
      && answer == Intake.Accepted(row.id) && notified == Some(row.pair)
      && d == db.CreateTransaction(row).LogTransition(row.id, LogEntry(None, Queued, Api))
    else answer == Intake.Refused(ApiError(ApiInternalError, 500)) && d == db && notified.None?
  }

  lemma ValidIsWellFormed(req: Request, chains: map<nat, ChainConfig>, signers: set<Address>)
    requires Validate(req, chains, signers).None?
    ensures WellFormed(req) && req.chainId in chains
  {
  }

  class TransferHandler {
    const repo: Repo
    const chains: map<nat, ChainConfig>
    const signers: set<Address>
    var tokens: set<Pair>          // the pipelines' channels that hold a token

    constructor (repo: Repo, chains: map<nat, ChainConfig>, signers: set<Address>)
      ensures this.repo == repo && this.chains == chains && this.signers == signers && tokens == {}
    {
      this.repo, this.chains, this.signers := repo, chains, signers;
      tokens := {};
    }

    /** Failures stay on record, and where nothing can fail none is recorded. */
    twostate predicate FaultsKept()
      reads repo
    {
      && (old(repo.faulted) ==> repo.faulted)
      && (repo.reliable && !old(repo.faulted) ==> !repo.faulted)
    }

    method NotifyPipeline(p: Pair)
      modifies this
      ensures tokens == old(tokens) + {p}
    {
      tokens := tokens + {p};
    }

    /** `id` and `now` are the ULID and the clock this request draws. Whatever fails, an accepted
        request stands in the table under its key, and rows that were there stay as they were. Without
        a failure the answer, the tables and the notification are those of Handles. */
    method Create(req: Request, id: TxId, now: nat) returns (answer: Intake.Answer, ghost notified: Option<Pair>)
      requires Intake.RowsOk(repo.State())
      modifies this, repo
      ensures FaultsKept()
      ensures Intake.RowsOk(repo.State())
      ensures forall j :: j in old(repo.State()).txs ==>
                j in repo.State().txs && repo.State().txs[j] == old(repo.State()).txs[j]
      ensures answer.Accepted? ==> WellFormed(req) && Intake.Stands(repo.State(), req, answer.id)
      ensures tokens == old(tokens) + (if notified.Some? then {notified.value} else {})
      ensures !repo.faulted ==>
                Handles(chains, signers, old(repo.State()), req, id, now, answer, repo.State(), notified)
    {
      notified := None;
      var invalid := Validate(req, chains, signers);
      if invalid.Some? { return Intake.Refused(invalid.value), None; }
      ValidIsWellFormed(req, chains, signers);
      var existing, read := repo.GetTransactionByIdempotencyKey(req.key);
      if !read { return Intake.Refused(ApiError(ApiInternalError, 500)), None; }
      if existing.Some? {
        var same := Matches(existing.value, req);
        answer := if same then Intake.Accepted(existing.value.id)
                  else Intake.Refused(ApiError(IdempotencyConflict, 409));
        return;
      }
      var r := Resolve(req, chains[req.chainId]);
      if r.Err? { return Intake.Refused(r.error), None; }
      var row := NewTransaction(req, r.value, id, now);
      MatchesCreatedIff(req, r.value, id, now, req);
      answer, notified := Insert(req, row);
    }

    /** The insert, the creation entry, whose failure is only logged, and the notification. */
    method Insert(req: Request, row: Transaction) returns (answer: Intake.Answer, ghost notified: Option<Pair>)
      requires Intake.RowsOk(repo.State())
      requires WellFormed(req) && row.key == req.key && Matches(row, req)
      modifies this, repo
      ensures FaultsKept()
      ensures Intake.RowsOk(repo.State())
      ensures forall j :: j in old(repo.State()).txs ==>
                j in repo.State().txs && repo.State().txs[j] == old(repo.State()).txs[j]
      ensures answer.Accepted? ==> answer.id == row.id && Intake.Stands(repo.State(), req, row.id)
      ensures tokens == old(tokens) + (if notified.Some? then {notified.value} else {})
      ensures !repo.faulted ==> Inserts(old(repo.State()), row, answer, repo.State(), notified)
    {
      notified := None;
      var o := repo.CreateTransaction(row);
      if !o.Done? { return Intake.Refused(ApiError(ApiInternalError, 500)), None; }
      var logged := repo.LogStateTransition(row.id, LogEntry(None, Queued, Api));
      NotifyPipeline(row.pair);
      answer, notified := Intake.Accepted(row.id), Some(row.pair);
    }
  }

  // ---- what Handles promises ----

  /** Asking again, drawing any other id and time, gives the same answer, leaves the tables alone and
      wakes nobody: an accepted request is created once. */
  lemma AskingAgain(
      chains: map<nat, ChainConfig>, signers: set<Address>, db: Db, req: Request, id: TxId, now: nat,
      first: Intake.Answer, d: Db, notified: Option<Pair>,
      id': TxId, later: nat, second: Intake.Answer, d': Db, notified': Option<Pair>)
    requires Intake.RowsOk(db) && Handles(chains, signers, db, req, id, now, first, d, notified)
    requires Handles(chains, signers, d, req, id', later, second, d', notified')
    requires first.Accepted?
    ensures second == first && d' == d && notified'.None?
  {
    ValidIsWellFormed(req, chains, signers);
    var r := Intake.ResolveOn(req, chains);
    if notified.Some? {
      MatchesCreatedIff(req, r.value, id, now, req);
      assert d.txs[id].key == req.key;
    }
  }

  /** A new transaction starts its life as the lifecycle demands, says what was asked for, moves that,
      and names the contract and the decimals of the asset it moves. Its sender is one the service signs
      for. */
  lemma CreatedStartsALife(
      chains: map<nat, ChainConfig>, signers: set<Address>, db: Db, req: Request, id: TxId, now: nat,
      answer: Intake.Answer, d: Db, p: Pair, asset: Asset, units: nat)
    requires Handles(chains, signers, db, req, id, now, answer, d, Some(p))
    requires db.AttemptsOf(id) == [] && db.LogOf(id) == []
    ensures WellFormed(req) && req.chainId in chains && id in d.txs && d.txs[id].pair == p
    ensures Lifecycle.Created(d.EntityOf(id))
    ensures var t := d.txs[id];
            && Records(t, req, now) && p.sender in signers && t.recipient != 0
            && Describes(t.to, t.value, t.data, t.tokenContract, t.recipient)
            && AssetOf(req.token, chains[req.chainId]).Some?
            && t.decimals == AssetOf(req.token, chains[req.chainId]).value.1
    ensures Permits(req, chains[req.chainId], asset, units) <==>
              EffectOf(d.txs[id].to, d.txs[id].value, d.txs[id].data)
              == Moves(asset, HexToAddress(req.recipient), units)
  {
    ValidIsWellFormed(req, chains, signers);
    ValidIff(req, chains, signers);
    var r := Intake.ResolveOn(req, chains);
    MatchesCreatedIff(req, r.value, id, now, req);
    NewTransactionRecords(req, r.value, id, now);
    ResolvesIffPermitted(req, chains[req.chainId], asset, units);
  }
}
