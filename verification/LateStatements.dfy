/** What the protocol's histories leave out: a statement of a dead process that the database still
    executes. One such statement is enough for a transaction to be sent under two nonces. */
module LateStatements {
  import opened Domain
  import opened Tables
  import opened Attempts
  import opened Repository
  import opened Protocol
  import opened Collisions
  import opened StaleWrites

  /** The old process has sent the row under nonce 0 and is about to mark it SUBMITTED. */
  lemma SentNotSubmitted(t: Transaction) returns (w: World, ws: seq<World>, es: seq<Event>, a: Attempt)
    requires NewRow(t)
    ensures IsHistory({t.pair}, ws, es) && ws[|es|] == w
    ensures t.pair in w.pipes && w.pipes[t.pair] == Accepted(t.(status := Pending), a)
    ensures a.number == 1 && a.raw.nonce == 0 && Delivery(t.id, a.raw, true) in w.sent
    ensures w.db.txs == map[t.id := t.(status := Pending, nonce := Some(0))] && w.db.AttemptsOf(t.id) == [a]
  {
    var counts := (p: Pair) => 0;
    var v, vs, fs := RestartAt({t.pair}, Initial(), counts);
    var u, us, gs := NewRowIsAssigned({t.pair}, v, t, 0, counts);
    LeadsOn({t.pair}, Initial(), v, u, counts, vs, fs, us, gs);
    ws, es := vs + us[1..], fs + gs;
    var xs, hs;
    w, xs, hs, a := AssignedRowIsSent({t.pair}, u, t.pair, t.(status := Pending), 0, counts);
    LeadsOn({t.pair}, Initial(), u, w, counts, ws, es, xs, hs);
    ws, es := ws + xs[1..], es + hs;
  }

  /** The process dies; the new one reads the count 1, resets the row, claims it again and gives it
      nonce 1. */
  lemma ClaimedAgain(w: World, t: Transaction) returns (w': World, ws: seq<World>, es: seq<Event>)
    requires NewRow(t) && w.db.txs == map[t.id := t.(status := Pending, nonce := Some(0))]
    ensures IsRun({t.pair}, ws, es) && ws[0] == w && ws[|es|] == w'
    ensures w'.phase.Running? && w'.sent == w.sent && w'.dets == map[] && w'.db.attempts == w.db.attempts
    ensures w'.db.txs == map[t.id := t.(status := Pending, nonce := Some(1))]
  {
    var (p, counts) := (t.pair, (p: Pair) => 1);
    var v, vs, fs := RestartAt({p}, w, counts);
    assert v.db.txs == map[t.id := t];
    w' := ClaimAndAssign({p}, v, t);
    var v1 := AfterClaim(v, p, t.id, Done);
    PipeFurther({p}, w, v, Claim(p, t.id, Done), v1, counts, vs, fs);
    PipeFurther({p}, w, v1, Assign(p, Done), w', counts, vs + [v1], fs + [Claim(p, t.id, Done)]);
    ws, es := vs + [v1] + [w'], fs + [Claim(p, t.id, Done)] + [Assign(p, Done)];
  }

  lemma ClaimAndAssign(pairs: set<Pair>, w: World, t: Transaction) returns (w': World)
    requires IdleAt(w, t.pair, 1) && w.db.txs == map[t.id := t] && NewRow(t)
    ensures PipeEnabled(w, Claim(t.pair, t.id, Done))
    ensures var w1 := AfterClaim(w, t.pair, t.id, Done);
            w1.phase.Running? && PipeEnabled(w1, Assign(t.pair, Done)) && w' == AfterAssign(w1, t.pair, Done)
    ensures w'.phase.Running? && w'.sent == w.sent && w'.dets == w.dets && w'.db.attempts == w.db.attempts
    ensures w'.db.txs == map[t.id := t.(status := Pending, nonce := Some(1))]
  {
    assert w.db.ClaimsNext(t.pair, t.id);
    var w1 := AfterClaim(w, t.pair, t.id, Done);
    ClaimTakes(w, t.pair, t.id);
    ClaimKeepsDetectors(w, t.pair, t.id);
    w' := AfterAssign(w1, t.pair, Done);
    AssignGives(w1, t.pair, t.(status := Pending), 1);
  }

  lemma ClaimKeepsDetectors(w: World, p: Pair, id: TxId)
    requires p in w.pipes && w.db.ClaimsNext(p, id)
    ensures AfterClaim(w, p, id, Done).dets == w.dets
  {
  }

  /** The dead process's MarkSubmitted takes effect now. */
  function Late(w: World, id: TxId, a: Attempt): World {
    w.(db := w.db.MarkSubmitted(id, a.Hash(), 0))
  }

  /** The detector finds the row SUBMITTED and replaces its only attempt under the row's new nonce. */
  lemma BumpedUnderTheNewNonce(w: World, t: Transaction, a: Attempt)
    returns (w': World, ws: seq<World>, es: seq<Event>, f: Delivery)
    requires w.phase.Running? && w.dets == map[] && w.db.AttemptsOf(t.id) == [a] && a.number == 1
    requires w.db.txs == map[t.id := SetSubmitted(t.(nonce := Some(1)), a.Hash(), 0)]
    ensures IsRun({t.pair}, ws, es) && ws[0] == w && ws[|es|] == w'
    ensures w.sent <= w'.sent && f in w'.sent && f.id == t.id && f.raw.nonce == 1
  {
    var (c, row) := (t.pair.chainId, w.db.txs[t.id]);
    var w1, es1, ws1 := DetectorLooks({t.pair}, w, t.id);
    var w2, es2, ws2 := DetectorBumps({t.pair}, w1, c);
    RunsConcatenate({t.pair}, ws1, es1, ws2, es2);
    w', ws, es := w2, ws1 + ws2[1..], es1 + es2;
    f := Delivery(t.id, Replacement(row, 1, [a], 0).raw, true);
  }

  /** A history, one late statement of the process that died in it, and a run: the transaction has been
      sent under nonces 0 and 1. */
  lemma LateStatementBreaksOneNonce(t: Transaction)
    returns (ws: seq<World>, es: seq<Event>, a: Attempt, vs: seq<World>, fs: seq<Event>, d: Delivery, f: Delivery)
    requires NewRow(t)
    ensures IsHistory({t.pair}, ws, es)
    ensures IsRun({t.pair}, vs, fs) && vs[0] == Late(ws[|es|], t.id, a)
    ensures d in vs[|fs|].sent && f in vs[|fs|].sent && d.id == f.id && d.raw.nonce != f.raw.nonce
  {
    var w;
    w, ws, es, a := SentNotSubmitted(t);
    var v, us, gs := ClaimedAgain(w, t);
    RunsConcatenate({t.pair}, ws, es, us, gs);
    ws, es := ws + us[1..], es + gs;
    d := Delivery(t.id, a.raw, true);
    var x;
    x, vs, fs, f := BumpedUnderTheNewNonce(Late(v, t.id, a), t, a);
  }
}
