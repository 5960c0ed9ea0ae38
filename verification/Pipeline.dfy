/** The pipeline of one (sender, chain) pair (internal/pipeline/pipeline.go). */
module Pipelines {
  import opened Domain
  import opened Fees
  import opened Tables
  import opened Attempts
  import opened Repository
  import opened Protocol
  import opened Invariants
  import opened Workers
  import Lifecycle

  class Pipeline {
    const system: System
    const pair: Pair
    const fees: ChainFees

    constructor (system: System, pair: Pair, fees: ChainFees)
      ensures this.system == system && this.pair == pair && this.fees == fees
    {
      this.system, this.pair, this.fees := system, pair, fees;
    }

    /** The process runs and this pipeline is at stage g. */
    ghost predicate At(g: Stage)
      reads system, system.repo, system.client
    {
      && system.Valid() && system.world.phase.Running?
      && pair in system.world.pipes && system.world.pipes[pair] == g
    }

    function Db(): Db
      reads system.repo
    {
      system.repo.State()
    }

    /** Nobody acts in between and no statement has failed. */
    predicate Calm()
      reads system.repo
    {
      system.alone && !system.repo.faulted
    }

    // ---- what the answers to come mean for the next row ----

    /** The price the pipeline will offer: this chain's estimate from the next quote. */
    ghost function NextPrice(p: Priority): Option<GasParams>
      reads system`used
    {
      var (quote, limit) := (system.answers.quote(system.used.asks), system.answers.gasLimit(system.used.asks));
      if limit.None? then None else Estimate(fees, quote, p, limit.value)
    }

    /** How many of the next five tries the node refuses before it takes one. */
    ghost function NextRefusals(): nat
      reads system.client`sends
    {
      Refusals(system.client.accepts, system.client.sends, MAX_BROADCAST_RETRIES)
    }

    /** What becomes of a row with a nonce: refused without a price or a signature, else processed. */
    ghost function NextMove(p: Priority): Lifecycle.Move
      reads system`used, system.client`sends
    {
      var (price, clocks) := (NextPrice(p), system.used.clocks);
      if price.None? then Lifecycle.Refuse(EstimationReverted)
      else if !system.answers.signer(system.used.signs) then Lifecycle.Refuse(SigningFailed)
      else Lifecycle.Process(price.value, NextRefusals() < MAX_BROADCAST_RETRIES,
                             system.answers.clock(clocks), system.answers.clock(clocks + 1))
    }

    /** The price offered lies within this chain's bounds, for the quote, the priority and the limit. */
    lemma OfferIsWithinBounds(p: Priority)
      requires Sane(fees.bounds) && NextMove(p).Process?
      ensures WithinBounds(fees, system.answers.quote(system.used.asks), p, NextMove(p).gas)
      ensures Some(NextMove(p).gas.gasLimit) == system.answers.gasLimit(system.used.asks)
    {
      EstimateIsWithinBounds(fees, system.answers.quote(system.used.asks), p,
                             system.answers.gasLimit(system.used.asks).value);
    }

    /** The pipeline itself writes nothing and nothing of its own fails. */
    twostate predicate OnlyOthersWrite()
      reads system.repo, system.client
    {
      && system.FaultsKept()
      && (system.alone ==> Db() == old(Db()) && system.repo.faulted == old(system.repo.faulted))
    }

    /** The pipeline has the row to itself. */
    lemma HoldsItsRow(g: Stage)
      requires At(g) && !g.Idle?
      ensures var t := g.tx;
              && t.id in Db().txs && SamePayload(t, Db().txs[t.id]) && Db().txs[t.id].pair == pair
              && Db().txs[t.id].status == Pending
    {
      ReachableInv(system.pairs, system.world);
      assert StageOk(pair, g, system.world.db);
    }

    method Step(e: Event, ghost g: Stage)
      requires Reachable(system.pairs, system.world) && system.world.phase.Running?
      requires PipeEnabled(system.world, e) && !BootEnabled(system.pairs, system.world, e)
      requires var w' := PipeStep(system.world, e);
               && w'.phase.Running? && pair in w'.pipes && w'.pipes[pair] == g
               && w'.db == Db() && w'.sent == system.client.sent
      modifies system`world, system.repo, system.client`sent
      ensures At(g)
      ensures system.FaultsKept()
      ensures old(system.client.sent) <= system.client.sent
      ensures system.alone ==>
                && Db() == old(Db()) && system.repo.faulted == old(system.repo.faulted)
                && system.client.sent == old(system.client.sent)
    {
      system.Took(e);
      system.Others(ThePipeline(pair));
    }

    method LogTransition(id: TxId, from: TxStatus, to: TxStatus, ghost g: Stage)
      requires At(g)
      modifies system`world, system.repo, system.client`sent
      ensures At(g)
      ensures system.FaultsKept()
      ensures Calm() ==> Db() == old(Db()).LogTransition(id, LogEntry(Some(from), to, PipelineOf(pair)))
    {
      var entry := LogEntry(Some(from), to, PipelineOf(pair));
      var o := system.repo.LogStateTransition(id, entry);
      if !o.Lost? {
        Step(Log(id, entry), g);
      }
    }

    method AssignNonce(tx: Transaction) returns (nonce: nat, ok: bool)
      requires At(Claimed(tx))
      modifies system`world, system.repo, system.client`sent
      ensures At(if ok then Assigned(tx, nonce) else Failing(tx, InternalError))
      ensures system.FaultsKept()
      ensures Calm() ==>
                && (ok <==> pair in old(Db()).cursors)
                && if ok then nonce == old(Db()).cursors[pair] && Db() == old(Db()).AssignNonce(tx.id, pair)
                   else Db() == old(Db())
    {
      var o;
      nonce, o := system.repo.AssignNonceAndMarkPending(tx.id, pair);
      ok := o.Done?;
      Step(Assign(pair, o), if ok then Assigned(tx, nonce) else Failing(tx, InternalError));
    }

    /** Gas estimation and signing. Without a price or a signature there is no attempt, and the code
        says which was missing; otherwise the attempt offers this chain's estimate. */
    method EstimateAndSign(tx: Transaction, nonce: nat) returns (a: Option<Attempt>, code: ErrorCode)
      requires At(Assigned(tx, nonce))
      modifies system`world, system`used, system.repo, system.client`sent
      ensures At(if a.Some? then Signed(tx, a.value) else Failing(tx, code))
      ensures Offers(old(NextMove(tx.priority)), tx, nonce, a, code)
      ensures a.Some? ==> system.used.clocks == old(system.used.clocks) + 1
      ensures system.FaultsKept()
      ensures system.alone ==> Db() == old(Db()) && system.repo.faulted == old(system.repo.faulted)
    {
      a, code := None, EstimationReverted;
      var quote, limit := system.AskNode();
      if limit.None? || Estimate(fees, quote, tx.priority, limit.value).None? {
        Step(Refuse(pair, code), Failing(tx, code));
        return;
      }
      var params := Estimate(fees, quote, tx.priority, limit.value).value;
      EstimateIsValid(fees, quote, tx.priority, limit.value);
      var signed := system.SignerWorks();
      if !signed {
        code := SigningFailed;
        Step(Refuse(pair, code), Failing(tx, code));
        return;
      }
      var time := system.Clock();
      a := Some(FirstAttempt(tx, nonce, params, time));
      Step(Sign(pair, fees, quote, limit.value, time), Signed(tx, a.value));
    }

    /** Refused when attempt 1 is already there: then the pipeline lets go of the row. */
    method StoreAttempt(tx: Transaction, a: Attempt) returns (ok: bool)
      requires At(Signed(tx, a)) && a.number == 1
      modifies system`world, system.repo, system.client`sent
      ensures At(if ok then Stored(tx, a, 0) else Idle)
      ensures system.FaultsKept()
      ensures !old(Db()).CanStore(tx.id, 1) ==> !ok && (system.alone ==> Db() == old(Db()))
      ensures Calm() && old(Db()).CanStore(tx.id, 1) ==> ok && Db() == old(Db()).StoreAttempt(tx.id, a)
    {
      var o := system.repo.CreateAttempt(tx.id, a);
      ok := o.Done?;
      Step(StoreFirst(pair, o), if ok then Stored(tx, a, 0) else Idle);
    }

    /** Up to five tries, stopping at the first that the node takes. */
    method Broadcast(tx: Transaction, a: Attempt) returns (ok: bool)
      requires At(Stored(tx, a, 0))
      modifies system`world, system.repo, system.client`sent, system.client`calls, system.client`sends
      ensures At(if ok then Accepted(tx, a) else Failing(tx, BroadcastFailed))
      ensures ok <==> old(NextRefusals()) < MAX_BROADCAST_RETRIES
      ensures system.client.calls == old(system.client.calls) + Tries(tx.id, a.raw, old(NextRefusals()), ok)
      ensures OnlyOthersWrite()
    {
      ok := false;
      var tries := 0;
      ghost var n, from, calls := 0, system.client.sends, system.client.calls;
      while !ok && tries < MAX_BROADCAST_RETRIES
        invariant tries <= MAX_BROADCAST_RETRIES && tries == (if ok then n + 1 else n)
        invariant At(AfterTries(tx, a, tries, ok))
        invariant HasTried(tx, a, n, ok, from, calls)
        invariant OnlyOthersWrite()
        decreases MAX_BROADCAST_RETRIES - tries
      {
        ok := TryAgain(tx, a, tries, from, calls);
        tries := tries + 1;
        if !ok { n := n + 1; }
      }
    }

    ghost predicate HasTried(tx: Transaction, a: Attempt, n: nat, ok: bool, from: nat, calls: seq<Delivery>)
      reads system.client
    {
      TriedSoFar(system.client.accepts, tx.id, a.raw, n, ok, from, system.client.sends, calls, system.client.calls)
    }

    method TryAgain(tx: Transaction, a: Attempt, tries: nat, ghost from: nat, ghost calls: seq<Delivery>)
      returns (ok: bool)
      requires At(Stored(tx, a, tries)) && tries < MAX_BROADCAST_RETRIES && HasTried(tx, a, tries, false, from, calls)
      modifies system`world, system.repo, system.client`sent, system.client`calls, system.client`sends
      ensures At(AfterTries(tx, a, tries + 1, ok))
      ensures HasTried(tx, a, if ok then tries else tries + 1, ok, from, calls)
      ensures OnlyOthersWrite()
    {
      ghost var sends, before := system.client.sends, system.client.calls;
      ok := TryOnce(tx, a, tries);
      TriedOnce(system.client.accepts, tx.id, a.raw, tries, from, sends, calls, before);
    }

    /** The stage after so many tries. */
    function AfterTries(tx: Transaction, a: Attempt, tries: nat, ok: bool): Stage {
      if ok then Accepted(tx, a)
      else if tries < MAX_BROADCAST_RETRIES then Stored(tx, a, tries)
      else Failing(tx, BroadcastFailed)
    }

    method TryOnce(tx: Transaction, a: Attempt, tries: nat) returns (ok: bool)
      requires At(Stored(tx, a, tries)) && tries < MAX_BROADCAST_RETRIES
      modifies system`world, system.repo, system.client`sent, system.client`calls, system.client`sends
      ensures At(AfterTries(tx, a, tries + 1, ok))
      ensures ok == system.client.accepts(old(system.client.sends))
      ensures system.client.sends == old(system.client.sends) + 1
      ensures system.client.calls == old(system.client.calls) + [Delivery(tx.id, a.raw, ok)]
      ensures OnlyOthersWrite()
    {
      ok := system.client.SendTransaction(tx.id, a.raw);
      Step(Send(pair, ok), AfterTries(tx, a, tries + 1, ok));
    }

    method MarkSubmitted(tx: Transaction, a: Attempt) returns (ok: bool)
      requires At(Accepted(tx, a))
      modifies system`world, system`used, system.repo, system.client`sent
      ensures At(Idle)
      ensures system.FaultsKept()
      ensures Calm() ==>
                ok && Db() == old(Db()).MarkSubmitted(tx.id, a.Hash(), old(system.answers.clock(system.used.clocks)))
    {
      var time := system.Clock();
      var o := system.repo.MarkSubmitted(tx.id, a.Hash(), time);
      ok := o.Done?;
      Step(Submit(pair, o, time), Idle);
    }

    /** failTx: the entry goes from the status the row had when it was claimed. */
    method FailTx(tx: Transaction, code: ErrorCode)
      requires At(Failing(tx, code))
      modifies system`world, system.repo, system.client`sent
      ensures At(Idle)
      ensures system.FaultsKept()
      ensures Calm() ==> Db() == old(Db()).MarkFailed(tx.id, code)
                                 .LogTransition(tx.id, LogEntry(Some(tx.status), Failed, PipelineOf(pair)))
    {
      var o := system.repo.MarkFailed(tx.id, code);
      Step(Fail(pair, o), Idle);
      LogTransition(tx.id, tx.status, Failed, Idle);
    }

    /** Store, broadcast, mark: nothing is sent before the attempt is stored, and nothing at all when it
        is refused. */
    method SendAndSubmit(tx: Transaction, a: Attempt)
      requires At(Signed(tx, a)) && a.number == 1 && tx.status == Pending
      modifies system`world, system`used, system.repo
      modifies system.client`sent, system.client`calls, system.client`sends
      ensures At(Idle)
      ensures system.FaultsKept()
      ensures system.alone && !old(Db()).CanStore(tx.id, 1) ==> system.client.calls == old(system.client.calls)
      ensures Calm() ==>
                SentIn(old(Db()), pair, tx.id, a, old(NextRefusals()), old(system.answers.clock(system.used.clocks)),
                       Db(), old(system.client.calls), system.client.calls)
    {
      var stored := StoreAttempt(tx, a);
      if stored { SendStored(tx, a); }
    }

    method SendStored(tx: Transaction, a: Attempt)
      requires At(Stored(tx, a, 0)) && tx.status == Pending
      modifies system`world, system`used, system.repo
      modifies system.client`sent, system.client`calls, system.client`sends
      ensures At(Idle)
      ensures system.FaultsKept()
      ensures system.client.calls == old(system.client.calls)
              + Tries(tx.id, a.raw, old(NextRefusals()), old(NextRefusals()) < MAX_BROADCAST_RETRIES)
      ensures Calm() ==>
                Db() == AfterTrying(old(Db()), pair, tx.id, a, old(NextRefusals()) < MAX_BROADCAST_RETRIES,
                                    old(system.answers.clock(system.used.clocks)))
    {
      var sent := Broadcast(tx, a);
      if !sent {
        FailTx(tx, BroadcastFailed);
        return;
      }
      var marked := MarkSubmitted(tx, a);
      if !marked { return; }
      LogTransition(tx.id, Pending, Submitted, Idle);
    }

    /** From the claim to SUBMITTED, FAILED or a row let go. Whoever acts in between, the pipeline's
        statements are steps of the protocol. Undisturbed and without a failed statement, the nonce is
        the pair's cursor and the row makes the moves of its life: Assign, then the Refuse or Process
        that the answers of node, signer and clock determine; and the node is handed exactly its tries. */
    method ProcessTx(tx: Transaction, ghost move: Lifecycle.Move, ghost n: nat)
      requires At(Claimed(tx)) && tx.status == Pending
      requires move == NextMove(tx.priority) && n == NextRefusals()
      modifies system`world, system`used, system.repo
      modifies system.client`sent, system.client`calls, system.client`sends
      ensures At(Idle)
      ensures system.FaultsKept()
      ensures tx.id in old(Db()).txs
      ensures Calm() ==>
                RowIsDone(old(Db()), pair, tx, move, n, Db(), old(system.client.calls), system.client.calls)
    {
      ghost var db, calls := Db(), system.client.calls;
      HoldsItsRow(Claimed(tx));
      var nonce, given := Number(tx);
      ghost var middle := Db();
      GoOn(tx, nonce, given, move, n);
      if Calm() { RowDone(db, pair, tx, nonce, given, middle, move, n, Db(), calls, system.client.calls); }
    }

    /** With a nonce the row is priced, signed and sent; without one it fails. */
    method GoOn(tx: Transaction, nonce: nat, given: bool, ghost move: Lifecycle.Move, ghost n: nat)
      requires At(if given then Assigned(tx, nonce) else Failing(tx, InternalError)) && tx.status == Pending
      requires move == NextMove(tx.priority) && n == NextRefusals()
      modifies system`world, system`used, system.repo
      modifies system.client`sent, system.client`calls, system.client`sends
      ensures At(Idle)
      ensures system.FaultsKept()
      ensures Calm() ==>
                GoneOn(old(Db()), pair, tx, nonce, given, move, n, Db(), old(system.client.calls), system.client.calls)
    {
      if given {
        SignAndSend(tx, nonce, move, n);
      } else {
        FailTx(tx, InternalError);
      }
    }

    /** One turn of Run: claim the oldest queued row and process it. `idle` says that there was
        nothing to claim, and that the loop now waits. Undisturbed and without a failed statement a row
        that waits is claimed, and it makes the moves Claim, Assign and then what the answers say. */
    method RunOnce() returns (claimed: Option<Transaction>, idle: bool)
      requires At(Idle)
      modifies system`world, system`used, system.repo
      modifies system.client`sent, system.client`calls, system.client`sends
      ensures At(Idle)
      ensures system.FaultsKept()
      ensures idle ==> claimed.None? && Db() == old(Db()) && forall j :: j in Db().txs ==> !Db().Waiting(pair, j)
      ensures claimed.Some? ==> TakenFrom(old(Db()), pair, claimed.value)
      ensures Calm() && claimed.Some? ==>
                TurnIsDone(old(Db()), pair, claimed.value, old(NextMove(claimed.value.priority)), old(NextRefusals()),
                           Db(), old(system.client.calls), system.client.calls)
      ensures Calm() && claimed.None? ==> idle
    {
      ghost var db, n, calls := Db(), NextRefusals(), system.client.calls;
      claimed, idle := ClaimNext();
      if claimed.Some? {
        ghost var move := NextMove(claimed.value.priority);
        ProcessTx(claimed.value, move, n);
        if Calm() { ClaimedRow(db, pair, claimed.value, move, n, Db(), calls, system.client.calls); }
      }
    }

    method ClaimNext() returns (claimed: Option<Transaction>, idle: bool)
      requires At(Idle)
      modifies system`world, system.repo, system.client`sent
      ensures At(if claimed.Some? then Claimed(claimed.value) else Idle)
      ensures system.FaultsKept()
      ensures idle ==> claimed.None? && Db() == old(Db()) && forall j :: j in Db().txs ==> !Db().Waiting(pair, j)
      ensures claimed.Some? ==> TakenFrom(old(Db()), pair, claimed.value)
      ensures Calm() ==> if claimed.Some? then Db() == old(Db()).Claim(claimed.value.id) else idle
    {
      var db := Db();
      var id, o;
      ReachableKeyed(system.pairs, system.world);
      claimed, o, id := system.repo.ClaimNextQueued(pair);
      idle := claimed.None? && o.Done?;
      if claimed.Some? {
        assert claimed.value.id == id;
        Step(Claim(pair, id, Done), Claimed(claimed.value));
      } else if Db() != db {
        // the statement took effect although it reported an error
        Step(Claim(pair, id, Hidden), Idle);
      }
    }

    method Number(tx: Transaction) returns (nonce: nat, given: bool)
      requires At(Claimed(tx))
      modifies system`world, system.repo, system.client`sent
      ensures At(if given then Assigned(tx, nonce) else Failing(tx, InternalError))
      ensures system.FaultsKept()
      ensures Calm() ==> NumberedAs(old(Db()), pair, tx.id, nonce, given, Db())
    {
      LogTransition(tx.id, Queued, Pending, Claimed(tx));
      nonce, given := AssignNonce(tx);
    }

    method SignAndSend(tx: Transaction, nonce: nat, ghost move: Lifecycle.Move, ghost n: nat)
      requires At(Assigned(tx, nonce)) && tx.status == Pending
      requires move == NextMove(tx.priority) && n == NextRefusals()
      modifies system`world, system`used, system.repo
      modifies system.client`sent, system.client`calls, system.client`sends
      ensures At(Idle)
      ensures system.FaultsKept()
      ensures Calm() ==>
                SignedAndSent(old(Db()), pair, tx, nonce, move, n, Db(), old(system.client.calls), system.client.calls)
    {
      ghost var db, calls := Db(), system.client.calls;
      var a, code := EstimateAndSign(tx, nonce);
      if a.None? {
        FailTx(tx, code);
      } else {
        SendAndSubmit(tx, a.value);
      }
      if Calm() { OfferIsCarried(db, pair, tx, nonce, move, a, code, n, Db(), calls, system.client.calls); }
    }
  }

  /** n refused deliveries and, if ok, an accepted one. */
  ghost function Tries(id: TxId, raw: SignedTx, n: nat, ok: bool): seq<Delivery> {
    seq(n, _ => Delivery(id, raw, false)) + if ok then [Delivery(id, raw, true)] else []
  }

  /** What is handed to the node for a row with a nonce: nothing, or the tries of its first attempt. */
  ghost function CallsWith(db: Db, tx: Transaction, nonce: nat, move: Lifecycle.Move, n: nat): seq<Delivery> {
    if move.Process? && db.CanStore(tx.id, 1) then Tries(tx.id, tx.Sign(nonce, move.gas), n, move.sent) else []
  }

  ghost function CallsFor(db: Db, p: Pair, tx: Transaction, move: Lifecycle.Move, n: nat): seq<Delivery> {
    if p in db.cursors then CallsWith(db, tx, db.cursors[p], move, n) else []
  }

  /** What storing, sending and marking do: n tries are refused, fewer than five if one is taken. */
  ghost predicate SentIn(db: Db, p: Pair, id: TxId, a: Attempt, n: nat, later: nat, d: Db,
                         calls: seq<Delivery>, calls': seq<Delivery>)
  {
    var sent := n < MAX_BROADCAST_RETRIES;
    if db.CanStore(id, 1)
    then d == AfterSending(db, p, id, a, sent, later) && calls' == calls + Tries(id, a.raw, n, sent)
    else d == db && calls' == calls
  }

  /** How many of the next `max` tries, from the i-th on, are refused before one is taken. */
  ghost function Refusals(accepts: nat -> bool, i: nat, max: nat): nat
    decreases max
  {
    if max == 0 || accepts(i) then 0 else 1 + Refusals(accepts, i + 1, max - 1)
  }

  /** n tries were refused and, if ok, one was taken since `from` and `calls`. */
  ghost predicate TriedSoFar(accepts: nat -> bool, id: TxId, raw: SignedTx, n: nat, ok: bool, from: nat, sends: nat,
                             calls: seq<Delivery>, calls': seq<Delivery>)
  {
    && n <= MAX_BROADCAST_RETRIES && sends == from + n + (if ok then 1 else 0)
    && calls' == calls + Tries(id, raw, n, ok)
    && Refusals(accepts, from, MAX_BROADCAST_RETRIES)
       == n + if ok then 0 else Refusals(accepts, sends, MAX_BROADCAST_RETRIES - n)
  }

  lemma TriedOnce(accepts: nat -> bool, id: TxId, raw: SignedTx, n: nat, from: nat, sends: nat,
                  calls: seq<Delivery>, calls': seq<Delivery>)
    requires TriedSoFar(accepts, id, raw, n, false, from, sends, calls, calls') && n < MAX_BROADCAST_RETRIES
    ensures var ok := accepts(sends);
            TriedSoFar(accepts, id, raw, if ok then n else n + 1, ok, from, sends + 1, calls,
                       calls' + [Delivery(id, raw, ok)])
  {
    if !accepts(sends) {
      assert Tries(id, raw, n, false) + [Delivery(id, raw, false)] == Tries(id, raw, n + 1, false);
    }
  }

  /** The moves of a row that has been claimed and logged: Assign and `move`, or FAILED at once when
      the pair has no cursor. */
  ghost predicate Moved(claimed: Entity, nonce: Option<nat>, move: Lifecycle.Move, e': Entity) {
    if nonce.None? then
      && Lifecycle.CanMove(claimed, Lifecycle.Refuse(InternalError))
      && e' == Lifecycle.Act(1, claimed, Lifecycle.Refuse(InternalError))
    else
      && Lifecycle.CanMove(claimed, Lifecycle.Assign(nonce.value))
      && var numbered := Lifecycle.Act(1, claimed, Lifecycle.Assign(nonce.value));
         && (move.Refuse? || move.Process?) && Lifecycle.CanMove(numbered, move)
         && e' == Lifecycle.Act(1, numbered, move)
  }

  ghost predicate CursorTaken(db: Db, p: Pair, d: Db) {
    d.cursors == if p in db.cursors then db.cursors[p := db.cursors[p] + 1] else db.cursors
  }

  ghost predicate ProcessedIn(db: Db, p: Pair, id: TxId, move: Lifecycle.Move, d: Db)
    requires id in db.txs
  {
    var e := db.EntityOf(id);
    && CursorTaken(db, p, d) && Lifecycle.SameOthers(db, d, id)
    && Moved(e.(log := Lifecycle.Logged(e, Queued, Pending, PipelineOf(e.tx.pair))), db.CursorOf(p), move,
             d.EntityOf(id))
  }

  /** From the queue: Claim first. */
  ghost predicate ClaimedIn(db: Db, p: Pair, id: TxId, move: Lifecycle.Move, d: Db)
    requires id in db.txs
  {
    && CursorTaken(db, p, d) && Lifecycle.SameOthers(db, d, id)
    && Lifecycle.CanMove(db.EntityOf(id), Lifecycle.Claim)
    && Moved(Lifecycle.Act(1, db.EntityOf(id), Lifecycle.Claim), db.CursorOf(p), move, d.EntityOf(id))
  }

  /** What one claimed row leads to: its moves, and what is handed to the node. */
  ghost predicate RowIsDone(db: Db, p: Pair, tx: Transaction, move: Lifecycle.Move, n: nat, d: Db,
                            calls: seq<Delivery>, calls': seq<Delivery>)
  {
    && tx.id in db.txs && ProcessedIn(db, p, tx.id, move, d)
    && calls' == calls + CallsFor(db, p, tx, move, n)
  }

  /** The same from the queue. */
  ghost predicate TurnIsDone(db: Db, p: Pair, tx: Transaction, move: Lifecycle.Move, n: nat, d: Db,
                             calls: seq<Delivery>, calls': seq<Delivery>)
  {
    && tx.id in db.txs && tx == db.txs[tx.id].(status := Pending) && ClaimedIn(db, p, tx.id, move, d)
    && calls' == calls + CallsFor(db, p, tx, move, n)
  }

  /** The row was the oldest in the pair's queue; the copy says PENDING. */
  ghost predicate TakenFrom(db: Db, p: Pair, tx: Transaction) {
    db.ClaimsNext(p, tx.id) && tx == db.txs[tx.id].(status := Pending)
  }

  lemma ClaimedRow(db: Db, p: Pair, tx: Transaction, move: Lifecycle.Move, n: nat, d: Db,
                   calls: seq<Delivery>, calls': seq<Delivery>)
    requires tx.id in db.txs && db.txs[tx.id].status == Queued && tx == db.txs[tx.id].(status := Pending)
    requires RowIsDone(db.Claim(tx.id), p, tx, move, n, d, calls, calls')
    ensures TurnIsDone(db, p, tx, move, n, d, calls, calls')
  {
    ClaimedMoves(db, p, tx.id, move, d);
    assert db.Claim(tx.id).cursors == db.cursors && db.Claim(tx.id).AttemptsOf(tx.id) == db.AttemptsOf(tx.id);
  }

  lemma ClaimedMoves(db: Db, p: Pair, id: TxId, move: Lifecycle.Move, d: Db)
    requires id in db.txs && db.txs[id].status == Queued && ProcessedIn(db.Claim(id), p, id, move, d)
    ensures ClaimedIn(db, p, id, move, d)
  {
    var e := db.Claim(id).EntityOf(id);
    assert Lifecycle.Act(1, db.EntityOf(id), Lifecycle.Claim)
        == e.(log := Lifecycle.Logged(e, Queued, Pending, PipelineOf(e.tx.pair)));
    OthersAfterBoth(db, db.Claim(id), d, id);
  }

  // ---- the statements together ----

  /** The claim's entry and the nonce. */
  function Numbered(db: Db, p: Pair, id: TxId): Db
    requires p in db.cursors
  {
    db.LogTransition(id, LogEntry(Some(Queued), Pending, PipelineOf(p))).AssignNonce(id, p)
  }

  function AfterFailing(db: Db, p: Pair, id: TxId, from: TxStatus, code: ErrorCode): Db {
    db.MarkFailed(id, code).LogTransition(id, LogEntry(Some(from), Failed, PipelineOf(p)))
  }

  function AfterTrying(db: Db, p: Pair, id: TxId, a: Attempt, sent: bool, now: nat): Db {
    if sent
    then db.MarkSubmitted(id, a.Hash(), now).LogTransition(id, LogEntry(Some(Pending), Submitted, PipelineOf(p)))
    else AfterFailing(db, p, id, Pending, BroadcastFailed)
  }

  function AfterSending(db: Db, p: Pair, id: TxId, a: Attempt, sent: bool, now: nat): Db {
    AfterTrying(db.StoreAttempt(id, a), p, id, a, sent, now)
  }

  /** The claim's entry, and the nonce if the pair has a cursor. */
  ghost predicate NumberedAs(db: Db, p: Pair, id: TxId, nonce: nat, given: bool, d: Db) {
    && (given <==> p in db.cursors)
    && if given then nonce == db.cursors[p] && d == Numbered(db, p, id)
       else d == db.LogTransition(id, LogEntry(Some(Queued), Pending, PipelineOf(p)))
  }

  /** One transaction's rows change, nothing else but cursors. */
  lemma NumberedRow(db: Db, p: Pair, id: TxId)
    requires p in db.cursors && id in db.txs && db.txs[id].status == Pending && db.txs[id].pair == p
    ensures var (e, d) := (db.EntityOf(id), Numbered(db, p, id));
            var claimed := e.(log := Lifecycle.Logged(e, Queued, Pending, PipelineOf(p)));
            && Lifecycle.SameOthers(db, d, id)
            && d.EntityOf(id) == Lifecycle.Act(1, claimed, Lifecycle.Assign(db.cursors[p]))
  {
  }

  /** What the pipeline makes of a numbered row; one that has attempt 1 already is let go. */
  ghost predicate Carried(db: Db, p: Pair, tx: Transaction, nonce: nat, move: Lifecycle.Move, d: Db) {
    if move.Refuse? then d == AfterFailing(db, p, tx.id, Pending, move.code)
    else
      && move.Process? && ValidFees(move.gas)
      && d == if db.CanStore(tx.id, 1)
              then AfterSending(db, p, tx.id, FirstAttempt(tx, nonce, move.gas, move.now), move.sent, move.later)
              else db
  }

  /** Without a cursor the claimed row fails at once. */
  lemma UnnumberedRow(db: Db, p: Pair, id: TxId, move: Lifecycle.Move)
    requires p !in db.cursors && id in db.txs && db.txs[id].status == Pending && db.txs[id].pair == p
    ensures ProcessedIn(db, p, id, move,
                        AfterFailing(db.LogTransition(id, LogEntry(Some(Queued), Pending, PipelineOf(p))),
                                     p, id, Pending, InternalError))
  {
    var logged := db.LogTransition(id, LogEntry(Some(Queued), Pending, PipelineOf(p)));
    Lifecycle.FailedRow(logged, id, Pending, InternalError, PipelineOf(p));
    assert Lifecycle.SameOthers(db, logged, id);
  }

  /** No attempt and the refusal's code, or the attempt at the move's price and time. */
  ghost predicate Offers(move: Lifecycle.Move, tx: Transaction, nonce: nat, a: Option<Attempt>, code: ErrorCode) {
    if move.Refuse? then a.None? && code == move.code
    else move.Process? && ValidFees(move.gas) && a == Some(FirstAttempt(tx, nonce, move.gas, move.now))
  }

  lemma OfferIsCarried(db: Db, p: Pair, tx: Transaction, nonce: nat, move: Lifecycle.Move, a: Option<Attempt>,
                       code: ErrorCode, n: nat, d: Db, calls: seq<Delivery>, calls': seq<Delivery>)
    requires Offers(move, tx, nonce, a, code) && (move.Process? ==> (move.sent <==> n < MAX_BROADCAST_RETRIES))
    requires if a.None? then d == AfterFailing(db, p, tx.id, Pending, code) && calls' == calls
             else SentIn(db, p, tx.id, a.value, n, move.later, d, calls, calls')
    ensures SignedAndSent(db, p, tx, nonce, move, n, d, calls, calls')
  {
  }

  ghost predicate SignedAndSent(db: Db, p: Pair, tx: Transaction, nonce: nat, move: Lifecycle.Move, n: nat, d: Db,
                                calls: seq<Delivery>, calls': seq<Delivery>)
  {
    Carried(db, p, tx, nonce, move, d) && calls' == calls + CallsWith(db, tx, nonce, move, n)
  }

  ghost predicate GoneOn(db: Db, p: Pair, tx: Transaction, nonce: nat, given: bool, move: Lifecycle.Move, n: nat,
                         d: Db, calls: seq<Delivery>, calls': seq<Delivery>)
  {
    if given then SignedAndSent(db, p, tx, nonce, move, n, d, calls, calls')
    else d == AfterFailing(db, p, tx.id, tx.status, InternalError) && calls' == calls
  }

  lemma RowDone(db: Db, p: Pair, tx: Transaction, nonce: nat, given: bool, middle: Db, move: Lifecycle.Move, n: nat,
                d: Db, calls: seq<Delivery>, calls': seq<Delivery>)
    requires tx.id in db.txs && db.txs[tx.id].status == Pending && db.txs[tx.id].pair == p
    requires SamePayload(tx, db.txs[tx.id]) && tx.status == Pending
    requires NumberedAs(db, p, tx.id, nonce, given, middle)
    requires GoneOn(middle, p, tx, nonce, given, move, n, d, calls, calls')
    ensures RowIsDone(db, p, tx, move, n, d, calls, calls')
  {
    if p in db.cursors {
      CarriedRow(db, p, tx, move, d);
    } else {
      UnnumberedRow(db, p, tx.id, move);
    }
  }

  lemma CarriedRow(db: Db, p: Pair, tx: Transaction, move: Lifecycle.Move, d: Db)
    requires p in db.cursors && tx.id in db.txs && db.txs[tx.id].status == Pending && db.txs[tx.id].pair == p
    requires SamePayload(tx, db.txs[tx.id])
    requires Carried(Numbered(db, p, tx.id), p, tx, db.cursors[p], move, d)
    ensures ProcessedIn(db, p, tx.id, move, d)
  {
    NumberedRow(db, p, tx.id);
    CarriedMove(Numbered(db, p, tx.id), p, tx, db.cursors[p], move, d);
    OthersAfterBoth(db, Numbered(db, p, tx.id), d, tx.id);
  }

  lemma OthersAfterBoth(db: Db, middle: Db, d: Db, id: TxId)
    requires Lifecycle.SameOthers(db, middle, id) && Lifecycle.SameOthers(middle, d, id)
    ensures Lifecycle.SameOthers(db, d, id)
  {
  }

  /** The statements on a numbered row are one move of its life. */
  lemma CarriedMove(db: Db, p: Pair, tx: Transaction, nonce: nat, move: Lifecycle.Move, d: Db)
    requires tx.id in db.txs && db.txs[tx.id].status == Pending && db.txs[tx.id].pair == p
    requires db.txs[tx.id].nonce == Some(nonce) && SamePayload(tx, db.txs[tx.id])
    requires Carried(db, p, tx, nonce, move, d)
    ensures d.cursors == db.cursors && Lifecycle.SameOthers(db, d, tx.id)
    ensures (move.Refuse? || move.Process?) && Lifecycle.CanMove(db.EntityOf(tx.id), move)
    ensures d.EntityOf(tx.id) == Lifecycle.Act(1, db.EntityOf(tx.id), move)
  {
    var id := tx.id;
    if move.Refuse? {
      Lifecycle.FailedRow(db, id, Pending, move.code, PipelineOf(p));
    } else if db.CanStore(id, 1) {
      var a := FirstAttempt(tx, nonce, move.gas, move.now);
      Lifecycle.StoredRow(db, id, a);
      if move.sent {
        Lifecycle.SubmittedRow(db.StoreAttempt(id, a), id, Pending, a.Hash(), move.later, PipelineOf(p));
      } else {
        Lifecycle.FailedRow(db.StoreAttempt(id, a), id, Pending, BroadcastFailed, PipelineOf(p));
      }
    }
  }
}
