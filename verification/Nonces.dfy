/** Nonces over whole runs: no two transactions share one, and within one process run they are handed
    out without gaps, in claim order. */
module Nonces {
  import opened Domain
  import opened Fees
  import opened Repository
  import opened Protocol
  import opened Invariants
  import opened Safety

  // ---- no collision ----

  /** The nonce a pipeline is about to send, or has just sent. */
  function NonceHeld(g: Stage): Option<nat> {
    if g.Assigned? then Some(g.nonce)
    else if g.Signed? || g.Stored? || g.Accepted? then Some(g.a.raw.nonce)
    else None
  }

  ghost predicate Unique(sent: set<Delivery>) {
    forall d, f :: d in sent && f in sent && d.accepted && f.accepted ==>
      (d.raw.pair == f.raw.pair && d.raw.nonce == f.raw.nonce ==> d.id == f.id)
  }

  ghost predicate Below(sent: set<Delivery>, cursors: map<Pair, nat>) {
    forall d :: d in sent && d.accepted ==> d.raw.pair in cursors && d.raw.nonce < cursors[d.raw.pair]
  }

  /** Nobody else's accepted send has the nonce the pipeline holds. */
  ghost predicate Reserved(p: Pair, g: Stage, sent: set<Delivery>, cursors: map<Pair, nat>) {
    NonceHeld(g).Some? ==>
      && p in cursors && NonceHeld(g).value < cursors[p]
      && forall d :: d in sent && d.accepted && d.raw.pair == p ==>
           (d.raw.nonce == NonceHeld(g).value ==> d.id == g.tx.id)
  }

  ghost predicate WasAccepted(sent: set<Delivery>, id: TxId) {
    exists d :: d in sent && d.accepted && d.id == id
  }

  ghost predicate PipesReserved(pipes: map<Pair, Stage>, sent: set<Delivery>, cursors: map<Pair, nat>) {
    forall p :: p in pipes ==>
      && Reserved(p, pipes[p], sent, cursors)
      && (pipes[p].Accepted? ==> WasAccepted(sent, pipes[p].tx.id))
  }

  ghost predicate NoncesIn(sent: set<Delivery>, cursors: map<Pair, nat>, pipes: map<Pair, Stage>,
                           submitted: set<TxId>)
  {
    && Unique(sent) && Below(sent, cursors)
    && PipesReserved(pipes, sent, cursors)
    && (forall id :: id in submitted ==> WasAccepted(sent, id))
  }

  ghost predicate NoncesOk(w: World) {
    NoncesIn(w.sent, w.db.cursors, w.pipes, w.submitted)
  }

  /** The count read at startup exceeds every nonce the node has accepted for the pair. */
  ghost predicate Trusted(w: World, e: Event) {
    e.Align? ==> forall d :: d in w.sent && d.accepted && d.raw.pair == e.p ==> d.raw.nonce < e.pending
  }

  /** All deliveries for a transaction, old and new, agree on pair and nonce. */
  lemma DeliveriesAgree(w: World, d: Delivery, raw: SignedTx)
    requires Inv(w) && d in w.sent && HasRaw(w.db.AttemptsOf(d.id), raw)
    ensures d.raw.nonce == raw.nonce && d.raw.pair == raw.pair
  {
    var (t, s) := (w.db.txs[d.id], w.db.AttemptsOf(d.id));
    assert RowOk(t, s, d.id in w.submitted);
    var i :| 0 <= i < |s| && s[i].raw == d.raw;
    var j :| 0 <= j < |s| && s[j].raw == raw;
  }

  // ---- what a new delivery may be ----

  lemma StillAccepted(sent: set<Delivery>, sent': set<Delivery>, id: TxId)
    requires WasAccepted(sent, id) && sent <= sent'
    ensures WasAccepted(sent', id)
  {
    var d :| d in sent && d.accepted && d.id == id;
    assert d in sent';
  }

  /** A delivery that repeats the pair, nonce and transaction of an accepted one changes nothing. */
  lemma RepeatedDelivery(sent: set<Delivery>, cursors: map<Pair, nat>, pipes: map<Pair, Stage>,
                         f: Delivery, d: Delivery)
    requires Unique(sent) && Below(sent, cursors) && PipesReserved(pipes, sent, cursors)
    requires f in sent && f.accepted && f.id == d.id && f.raw.pair == d.raw.pair && f.raw.nonce == d.raw.nonce
    ensures Unique(sent + {d}) && Below(sent + {d}, cursors) && PipesReserved(pipes, sent + {d}, cursors)
  {
    forall p | p in pipes
      ensures Reserved(p, pipes[p], sent + {d}, cursors)
      ensures pipes[p].Accepted? ==> WasAccepted(sent + {d}, pipes[p].tx.id)
    {
      assert Reserved(p, pipes[p], sent, cursors);
      if pipes[p].Accepted? { StillAccepted(sent, sent + {d}, pipes[p].tx.id); }
    }
  }

  /** Sending a submitted row's attempt again adds nothing new: its nonce is already that row's. */
  lemma ResendKeepsNonces(w: World, w': World, id: TxId, raw: SignedTx, ok: bool)
    requires Inv(w) && NoncesOk(w) && id in w.submitted && HasRaw(w.db.AttemptsOf(id), raw)
    requires w'.sent == w.sent + {Delivery(id, raw, ok)} && w'.submitted == w.submitted
    requires w'.db.cursors == w.db.cursors && w'.pipes == w.pipes
    ensures NoncesOk(w')
  {
    assert WasAccepted(w.sent, id);
    var f :| f in w.sent && f.accepted && f.id == id;
    DeliveriesAgree(w, f, raw);
    RepeatedDelivery(w.sent, w.db.cursors, w.pipes, f, Delivery(id, raw, ok));
    forall j | j in w.submitted ensures WasAccepted(w'.sent, j) {
      StillAccepted(w.sent, w'.sent, j);
    }
  }

  /** The first delivery of a held nonce. */
  lemma HeldDelivery(sent: set<Delivery>, cursors: map<Pair, nat>, pipes: map<Pair, Stage>, p: Pair,
                     g': Stage, d: Delivery)
    requires Unique(sent) && Below(sent, cursors) && PipesReserved(pipes, sent, cursors) && p in pipes
    requires NonceHeld(pipes[p]) == Some(d.raw.nonce) && d.raw.pair == p && d.id == pipes[p].tx.id
    requires !g'.Idle? && g'.tx.id == d.id && (NonceHeld(g').Some? ==> NonceHeld(g') == NonceHeld(pipes[p]))
    requires g'.Accepted? ==> d.accepted
    ensures Unique(sent + {d}) && Below(sent + {d}, cursors) && PipesReserved(pipes[p := g'], sent + {d}, cursors)
  {
    assert Reserved(p, pipes[p], sent, cursors);
    assert d in sent + {d};
    var pipes' := pipes[p := g'];
    forall q | q in pipes'
      ensures Reserved(q, pipes'[q], sent + {d}, cursors)
      ensures pipes'[q].Accepted? ==> WasAccepted(sent + {d}, pipes'[q].tx.id)
    {
      if q != p {
        assert Reserved(q, pipes[q], sent, cursors);
        if pipes[q].Accepted? { StillAccepted(sent, sent + {d}, pipes[q].tx.id); }
      }
    }
  }

  lemma SendKeepsNonces(w: World, e: Event)
    requires Inv(w) && NoncesOk(w) && e.Send? && PipeEnabled(w, e)
    ensures NoncesOk(PipeStep(w, e))
  {
    var w' := PipeStep(w, e);
    var g := w.pipes[e.p];
    assert StageOk(e.p, g, w.db);
    HeldDelivery(w.sent, w.db.cursors, w.pipes, e.p, w'.pipes[e.p], Delivery(g.tx.id, g.a.raw, e.ok));
    forall j | j in w.submitted ensures WasAccepted(w'.sent, j) {
      StillAccepted(w.sent, w'.sent, j);
    }
  }

  /** Handing out the cursor: nothing accepted has reached it yet. */
  lemma NextNonce(sent: set<Delivery>, cursors: map<Pair, nat>, pipes: map<Pair, Stage>, p: Pair, g': Stage)
    requires Below(sent, cursors) && PipesReserved(pipes, sent, cursors) && p in cursors
    requires !g'.Accepted? && (NonceHeld(g').Some? ==> NonceHeld(g').value == cursors[p])
    ensures var c' := cursors[p := cursors[p] + 1];
            Below(sent, c') && PipesReserved(pipes[p := g'], sent, c')
  {
    var c' := cursors[p := cursors[p] + 1];
    var pipes' := pipes[p := g'];
    forall q | q in pipes' ensures Reserved(q, pipes'[q], sent, c') {
      if q != p { assert Reserved(q, pipes[q], sent, cursors); }
    }
  }

  ghost predicate TakesCursor(w: World, w': World, p: Pair) {
    && w'.sent == w.sent && w'.submitted == w.submitted && p in w'.pipes && w'.pipes == w.pipes[p := w'.pipes[p]]
    && !w'.pipes[p].Accepted? && p in w.db.cursors
    && w'.db.cursors == w.db.cursors[p := w.db.cursors[p] + 1]
    && (NonceHeld(w'.pipes[p]).Some? ==> NonceHeld(w'.pipes[p]).value == w.db.cursors[p])
  }

  lemma AssignTakesCursor(w: World, p: Pair, o: Outcome)
    requires p in w.pipes && w.pipes[p].Claimed?
    ensures if p in w.db.cursors && !o.Lost? then TakesCursor(w, AfterAssign(w, p, o), p)
            else Quiet(w, AfterAssign(w, p, o), p)
  {
  }

  lemma AssignKeepsNonces(w: World, e: Event)
    requires NoncesOk(w) && e.Assign? && PipeEnabled(w, e)
    ensures NoncesOk(PipeStep(w, e))
  {
    AssignTakesCursor(w, e.p, e.o);
    var g' := AfterAssign(w, e.p, e.o).pipes[e.p];
    if e.p in w.db.cursors && !e.o.Lost? {
      NextNonce(w.sent, w.db.cursors, w.pipes, e.p, g');
    } else {
      QuietPipe(w.sent, w.db.cursors, w.pipes, e.p, g');
    }
  }

  /** Every other step of a pipeline keeps the nonce it holds or lets go of it. */
  lemma QuietPipe(sent: set<Delivery>, cursors: map<Pair, nat>, pipes: map<Pair, Stage>, p: Pair, g': Stage)
    requires PipesReserved(pipes, sent, cursors) && !g'.Accepted? && p in pipes
    requires NonceHeld(g').Some? ==> NonceHeld(pipes[p]) == NonceHeld(g') && g'.tx.id == pipes[p].tx.id
    ensures PipesReserved(pipes[p := g'], sent, cursors)
  {
    var pipes' := pipes[p := g'];
    forall q | q in pipes' ensures Reserved(q, pipes'[q], sent, cursors) {
      assert Reserved(q, pipes[q], sent, cursors);
    }
  }

  ghost predicate Quiet(w: World, w': World, p: Pair) {
    && w'.sent == w.sent && w'.submitted == w.submitted && w'.db.cursors == w.db.cursors
    && p in w.pipes && p in w'.pipes && w'.pipes == w.pipes[p := w'.pipes[p]]
    && !w'.pipes[p].Accepted?
    && (NonceHeld(w'.pipes[p]).Some? ==>
          NonceHeld(w.pipes[p]) == NonceHeld(w'.pipes[p]) && w'.pipes[p].tx.id == w.pipes[p].tx.id)
  }

  lemma ClaimIsQuiet(w: World, p: Pair, id: TxId, o: Outcome)
    requires p in w.pipes && w.pipes[p].Idle? && w.db.ClaimsNext(p, id)
    ensures Quiet(w, AfterClaim(w, p, id, o), p)
  {
    assert w.pipes == w.pipes[p := w.pipes[p]];
  }

  lemma SignIsQuiet(w: World, p: Pair, code: ErrorCode, gas: GasParams, now: nat)
    requires p in w.pipes && w.pipes[p].Assigned?
    ensures Quiet(w, w.At(p, Failing(w.pipes[p].tx, code)), p) && Quiet(w, AfterSign(w, p, gas, now), p)
  {
  }

  lemma StoreIsQuiet(w: World, p: Pair, o: Outcome)
    requires p in w.pipes && w.pipes[p].Signed?
    ensures Quiet(w, AfterStoreFirst(w, p, o), p)
  {
    var w' := AfterStoreFirst(w, p, o);
    StageMoves(w, w', p, w'.pipes[p]);
  }

  lemma StageMoves(w: World, w': World, p: Pair, g: Stage)
    requires p in w.pipes && w'.pipes == w.pipes[p := g] && !g.Accepted?
    requires w'.sent == w.sent && w'.submitted == w.submitted && w'.db.cursors == w.db.cursors
    requires NonceHeld(g).Some? ==> NonceHeld(w.pipes[p]) == NonceHeld(g) && w.pipes[p].tx.id == g.tx.id
    ensures Quiet(w, w', p)
  {
  }

  lemma FailIsQuiet(w: World, p: Pair, o: Outcome)
    requires p in w.pipes && w.pipes[p].Failing?
    ensures Quiet(w, AfterFail(w, p, o), p)
  {
  }

  lemma QuietStep(w: World, e: Event)
    requires PipeEnabled(w, e) && (e.Claim? || e.Refuse? || e.Sign? || e.StoreFirst? || e.Fail?)
    ensures Quiet(w, PipeStep(w, e), e.p)
  {
    if e.Claim? {
      ClaimIsQuiet(w, e.p, e.id, e.o);
    } else if e.Refuse? {
      SignIsQuiet(w, e.p, e.code, NO_GAS, 0);
    } else if e.Sign? {
      SignIsQuiet(w, e.p, InternalError,
                  Estimate(e.fees, e.quote, w.pipes[e.p].tx.priority, e.gasLimit).value, e.now);
    } else if e.StoreFirst? {
      StoreIsQuiet(w, e.p, e.o);
    } else {
      FailIsQuiet(w, e.p, e.o);
    }
  }

  lemma QuietPipeKeepsNonces(w: World, e: Event)
    requires NoncesOk(w) && PipeEnabled(w, e)
    requires e.Claim? || e.Refuse? || e.Sign? || e.StoreFirst? || e.Fail?
    ensures NoncesOk(PipeStep(w, e))
  {
    QuietStep(w, e);
    QuietPipe(w.sent, w.db.cursors, w.pipes, e.p, PipeStep(w, e).pipes[e.p]);
  }

  lemma SubmitKeepsNonces(w: World, e: Event)
    requires NoncesOk(w) && PipeEnabled(w, e) && e.Submit?
    ensures NoncesOk(PipeStep(w, e))
  {
    QuietPipe(w.sent, w.db.cursors, w.pipes, e.p, Idle);
    assert WasAccepted(w.sent, w.pipes[e.p].tx.id);
  }

  lemma PipeKeepsNonces(w: World, e: Event)
    requires Inv(w) && NoncesOk(w) && PipeEnabled(w, e)
    ensures NoncesOk(PipeStep(w, e))
  {
    match e {
      case Create(_) =>
      case Log(_, _) =>
      case Assign(_, _) => AssignKeepsNonces(w, e);
      case Send(_, _) => SendKeepsNonces(w, e);
      case Submit(_, _, _) => SubmitKeepsNonces(w, e);
      case _ => QuietPipeKeepsNonces(w, e);
    }
  }

  /** Only rows that were submitted before are submitted again. */
  lemma DetectorFacts(w: World, c: nat)
    requires Inv(w) && !w.Det(c).bump.NoBump?
    ensures w.Det(c).bump.tx.id in w.submitted
    ensures w.Det(c).bump.BumpStored? ==> HasRaw(w.db.AttemptsOf(w.Det(c).bump.tx.id), w.Det(c).bump.a.raw)
  {
    assert DetOk(c, w.dets[c], w.db, w.submitted);
  }

  predicate SendsNothing(w: World, w': World) {
    w'.sent == w.sent && w'.pipes == w.pipes && w'.db.cursors == w.db.cursors && w'.submitted == w.submitted
  }

  lemma StoreNextSendsNothing(w: World, c: nat, o: Outcome, now: nat)
    requires var b := w.Det(c).bump; b.Looked? && b.tx.nonce.Some? && b.attempts != []
    ensures SendsNothing(w, AfterStoreNext(w, c, o, now))
  {
  }

  lemma ResubmitSendsNothing(w: World, c: nat, o: Outcome, now: nat)
    requires w.Det(c).bump.BumpAccepted? && w.Det(c).bump.tx.id in w.submitted
    ensures SendsNothing(w, AfterResubmit(w, c, o, now))
  {
  }

  lemma DetectorSendsNothing(w: World, e: Event)
    requires Inv(w) && DetEnabled(w, e) && !e.SendNext?
    ensures SendsNothing(w, DetStep(w, e))
  {
    if e.StoreNext? {
      StoreNextSendsNothing(w, e.c, e.o, e.now);
    } else if e.Resubmit? {
      DetectorFacts(w, e.c);
      ResubmitSendsNothing(w, e.c, e.o, e.now);
    } else {
      LookingSendsNothing(w, e);
    }
  }

  lemma LookingSendsNothing(w: World, e: Event)
    requires DetEnabled(w, e) && (e.Scan? || e.Look? || e.Skip? || e.GiveUp?)
    ensures SendsNothing(w, DetStep(w, e))
  {
  }

  lemma DetKeepsNonces(w: World, e: Event)
    requires Inv(w) && NoncesOk(w) && DetEnabled(w, e)
    ensures NoncesOk(DetStep(w, e))
  {
    if e.SendNext? {
      var b := w.Det(e.c).bump;
      DetectorFacts(w, e.c);
      ResendKeepsNonces(w, AfterSendNext(w, e.c, e.ok), b.tx.id, b.a.raw, e.ok);
    } else {
      DetectorSendsNothing(w, e);
      SameSends(w, DetStep(w, e));
    }
  }

  lemma SameSends(w: World, w': World)
    requires NoncesOk(w) && SendsNothing(w, w')
    ensures NoncesOk(w')
  {
  }

  lemma PollKeepsNonces(w: World, e: Event)
    requires Inv(w) && NoncesOk(w) && PollEnabled(w, e)
    ensures NoncesOk(PollStep(w, e))
  {
    if e.Resend? {
      assert PollOk(e.c, w.polls[e.c], w.db, w.submitted);
      var r := w.Poll(e.c).resend.value;
      ResendKeepsNonces(w, PollStep(w, e), r.0, r.1, e.ok);
    }
  }

  lemma BootKeepsNonces(pairs: set<Pair>, w: World, e: Event)
    requires Inv(w) && NoncesOk(w) && BootEnabled(pairs, w, e) && Trusted(w, e)
    ensures NoncesOk(BootStep(pairs, w, e))
  {
  }

  lemma StepKeepsNonces(pairs: set<Pair>, w: World, e: Event)
    requires Inv(w) && NoncesOk(w) && Enabled(pairs, w, e) && Trusted(w, e)
    ensures NoncesOk(Step(pairs, w, e))
  {
    if BootEnabled(pairs, w, e) {
      BootKeepsNonces(pairs, w, e);
    } else if PipeEnabled(w, e) {
      PipeKeepsNonces(w, e);
    } else if DetEnabled(w, e) {
      DetKeepsNonces(w, e);
    } else {
      PollKeepsNonces(w, e);
    }
  }

  lemma {:induction false} HistoryKeepsNonces(pairs: set<Pair>, ws: seq<World>, es: seq<Event>, i: nat)
    requires IsHistory(pairs, ws, es) && i < |ws|
    requires forall j :: 0 <= j < |es| ==> Trusted(ws[j], es[j])
    ensures NoncesOk(ws[i])
  {
    if i > 0 {
      HistoryKeepsNonces(pairs, ws, es, i - 1);
      NextKeepsNonces(pairs, ws, es, i - 1);
    }
  }

  lemma NextKeepsNonces(pairs: set<Pair>, ws: seq<World>, es: seq<Event>, i: nat)
    requires IsHistory(pairs, ws, es) && i < |es| && NoncesOk(ws[i]) && Trusted(ws[i], es[i])
    ensures NoncesOk(ws[i + 1])
  {
    HistoryKeepsInv(pairs, ws, es, i);
    StepKeepsNonces(pairs, ws[i], es[i]);
  }

  /** If every count read at startup exceeds the nonces the node has accepted for that pair, no two
      transactions ever have accepted sends with the same nonce on the same pair. */
  lemma NoCollision(pairs: set<Pair>, ws: seq<World>, es: seq<Event>, i: nat, d: Delivery, f: Delivery)
    requires IsHistory(pairs, ws, es) && i < |ws|
    requires forall j :: 0 <= j < |es| ==> Trusted(ws[j], es[j])
    requires d in ws[i].sent && f in ws[i].sent && d.accepted && f.accepted
    requires d.raw.pair == f.raw.pair && d.raw.nonce == f.raw.nonce
    ensures d.id == f.id
  {
    HistoryKeepsNonces(pairs, ws, es, i);
  }
}
