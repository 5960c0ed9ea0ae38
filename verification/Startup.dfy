/** Crash recovery and cursor alignment at startup (internal/pipeline/manager.go). Nothing else of the
    process runs yet. */
module Startup {
  import opened Domain
  import opened Tables
  import opened Repository
  import opened Protocol
  import opened Workers

  class Manager {
    const system: System
    const addresses: set<Address>
    const chainIds: set<nat>

    constructor (system: System, addresses: set<Address>, chainIds: set<nat>)
      ensures this.system == system && this.addresses == addresses && this.chainIds == chainIds
    {
      this.system, this.addresses, this.chainIds := system, addresses, chainIds;
    }

    ghost predicate Valid()
      reads this, system, system.repo, system.client
    {
      && system.Valid()
      && forall p: Pair :: p in system.pairs <==> p.sender in addresses && p.chainId in chainIds
    }

    function Db(): Db
      reads system.repo
    {
      system.repo.State()
    }

    /** A new process: what the old one held in memory is gone, the tables stay. */
    method Boot()
      requires Valid()
      modifies system`world
      ensures Valid() && system.world.phase.Booting?
    {
      system.Took(Crash);
    }

    /** ResetPendingToQueued, then every pair's cursor. PENDING rows go back to QUEUED without a nonce;
        every pair's cursor becomes the node's pending count, also when the cursor was ahead of it,
        and nothing else changes. It fails only if a statement or an answer of the node failed. */
    method InitNonces() returns (ok: bool)
      requires Valid() && system.world.phase.Booting?
      modifies system`world, system.repo, system.client`faulted
      ensures Valid() && system.FaultsKept()
      ensures ok ==>
                && system.world.phase == Aligning(system.pairs)
                && Aligned(old(Db()).ResetPending(), Db(), system.pairs, system.client.pending)
      ensures !ok ==> system.Faulted() && (system.world.phase.Booting? || system.world.phase.Aligning?)
    {
      ok := false;
      var count, o := system.repo.ResetPendingToQueued();
      system.Took(Reset(o));
      if o.Done? { ok := AlignAll(); }
    }

    /** Every address on every chain that has a client. */
    method AlignAll() returns (ok: bool)
      requires Valid() && system.world.phase == Aligning({})
      modifies system`world, system.repo, system.client`faulted
      ensures Valid() && system.FaultsKept()
      ensures ok ==>
                && system.world.phase == Aligning(system.pairs)
                && Aligned(old(Db()), Db(), system.pairs, system.client.pending)
      ensures !ok ==> system.Faulted() && (system.world.phase.Booting? || system.world.phase.Aligning?)
    {
      ghost var db := Db();
      var rest := addresses;
      while rest != {}
        invariant Valid() && system.FaultsKept() && rest <= addresses
        invariant system.world.phase == Aligning(PairsOf(addresses - rest, chainIds))
        invariant Aligned(db, Db(), PairsOf(addresses - rest, chainIds), system.client.pending)
        decreases rest
      {
        var addr :| addr in rest;
        ok := InitNoncesFor(addr, db, PairsOf(addresses - rest, chainIds));
        if !ok { return; }
        NextAddress(addresses, rest, addr, chainIds);
        rest := rest - {addr};
      }
      assert PairsOf(addresses - rest, chainIds) == system.pairs;
      ok := true;
    }

    /** The inner loop: one address on every chain that has a client. */
    method InitNoncesFor(addr: Address, ghost db: Db, ghost done: set<Pair>) returns (ok: bool)
      requires Valid() && addr in addresses
      requires system.world.phase == Aligning(done) && Aligned(db, Db(), done, system.client.pending)
      requires forall p :: p in done ==> p.sender != addr
      modifies system`world, system.repo, system.client`faulted
      ensures Valid() && system.FaultsKept()
      ensures ok ==>
                && system.world.phase == Aligning(done + PairsOf({addr}, chainIds))
                && Aligned(db, Db(), done + PairsOf({addr}, chainIds), system.client.pending)
      ensures !ok ==> system.Faulted() && (system.world.phase.Booting? || system.world.phase.Aligning?)
    {
      var rest := chainIds;
      assert PairsOf({addr}, chainIds - rest) == {};
      while rest != {}
        invariant Valid() && system.FaultsKept() && rest <= chainIds
        invariant system.world.phase == Aligning(done + PairsOf({addr}, chainIds - rest))
        invariant Aligned(db, Db(), done + PairsOf({addr}, chainIds - rest), system.client.pending)
        decreases rest
      {
        var chainId :| chainId in rest;
        ghost var before := done + PairsOf({addr}, chainIds - rest);
        ghost var middle := Db();
        ok := InitNonceForSender(Pair(addr, chainId), before);
        if !ok { return; }
        OneMoreAligned(db, middle, before, Pair(addr, chainId), system.client.pending);
        NextChain(addr, chainIds, rest, chainId);
        assert before + {Pair(addr, chainId)} == done + PairsOf({addr}, chainIds - (rest - {chainId}));
        rest := rest - {chainId};
      }
      assert chainIds - rest == chainIds;
      ok := true;
    }

    /** The start nonce is the pending count in every case. */
    method InitNonceForSender(p: Pair, ghost done: set<Pair>) returns (ok: bool)
      requires Valid() && p in system.pairs && p !in done && system.world.phase == Aligning(done)
      modifies system`world, system.repo, system.client`faulted
      ensures Valid() && system.FaultsKept()
      ensures ok ==>
                && system.world.phase == Aligning(done + {p})
                && Db() == old(Db()).SetCursor(p, system.client.pending(p))
      ensures !ok ==> system.Faulted() && (system.world.phase.Booting? || system.world.phase == Aligning(done))
    {
      var pending, cursor;
      pending, cursor, ok := ReadNonces(p);
      if !ok { return; }
      var start := pending;
      if cursor.Some? && cursor.value > start {
        start := pending;
      }
      var o := WriteCursor(p, cursor, start);
      system.Took(Align(p, start, o));
      ok := o.Done?;
    }

    /** The node's pending count and the stored cursor. */
    method ReadNonces(p: Pair) returns (pending: nat, cursor: Option<nat>, ok: bool)
      requires Valid()
      modifies system.repo`faulted, system.client`faulted
      ensures Valid() && system.FaultsKept() && (!ok ==> system.Faulted())
      ensures ok ==> pending == system.client.pending(p) && cursor == Db().CursorOf(p)
    {
      pending, ok := system.client.PendingNonceAt(p);
      cursor := None;
      if ok { cursor, ok := system.repo.GetNonceCursor(p); }
    }

    /** Insert or overwrite. */
    method WriteCursor(p: Pair, cursor: Option<nat>, start: nat) returns (o: Outcome)
      requires cursor == Db().CursorOf(p)
      modifies system.repo`cursors, system.repo`faulted
      ensures Db() == Settle(o, old(Db()), old(Db()).SetCursor(p, start))
      ensures system.FaultsKept() && (!o.Done? ==> system.repo.faulted)
    {
      if cursor.None? {
        o := system.repo.InitNonceCursor(p, start);
      } else {
        o := system.repo.SetNonceCursor(p, start);
      }
    }

    /** One idle pipeline per pair; detectors and pollers start with nothing in memory. */
    method Start()
      requires Valid() && system.world.phase == Aligning(system.pairs)
      modifies system`world
      ensures Valid() && system.world.phase.Running? && Db() == old(Db())
      ensures system.world.pipes == map p | p in system.pairs :: Idle
      ensures forall c :: system.world.Det(c) == Detector(map[], NoBump) && system.world.Poll(c) == Poller(map[], None)
    {
      ReachableInv(system.pairs, system.world);
      system.Took(Event.Start);
    }
  }

  function PairsOf(addresses: set<Address>, chainIds: set<nat>): set<Pair> {
    set a, c | a in addresses && c in chainIds :: Pair(a, c)
  }

  lemma NextAddress(addresses: set<Address>, rest: set<Address>, a: Address, chainIds: set<nat>)
    requires a in rest && rest <= addresses
    ensures PairsOf(addresses - rest, chainIds) + PairsOf({a}, chainIds) == PairsOf(addresses - (rest - {a}), chainIds)
  {
  }

  lemma NextChain(addr: Address, chainIds: set<nat>, rest: set<nat>, c: nat)
    requires c in rest && rest <= chainIds
    ensures PairsOf({addr}, chainIds - rest) + {Pair(addr, c)} == PairsOf({addr}, chainIds - (rest - {c}))
  {
  }

  lemma OneMoreAligned(db: Db, d: Db, done: set<Pair>, p: Pair, pending: Pair -> nat)
    requires Aligned(db, d, done, pending)
    ensures Aligned(db, d.SetCursor(p, pending(p)), done + {p}, pending)
  {
  }

  /** The pairs' cursors are their pending counts; everything else is as in db. */
  ghost predicate Aligned(db: Db, d: Db, pairs: set<Pair>, pending: Pair -> nat) {
    && d.txs == db.txs && d.attempts == db.attempts && d.log == db.log
    && (forall p :: p in pairs ==> p in d.cursors && d.cursors[p] == pending(p))
    && (forall p :: p !in pairs ==> (p in d.cursors <==> p in db.cursors))
    && (forall p :: p !in pairs && p in db.cursors ==> d.cursors[p] == db.cursors[p])
  }
}
