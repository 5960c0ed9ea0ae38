/** Whole histories from empty tables: the protocol's theorems are about something, the hypothesis of
    the nonce theorem cannot be dropped, and a CONFIRMED row is reopened. */
module Witnesses {
  import opened Domain
  import opened Tables
  import opened Repository
  import opened Protocol
  import opened Safety
  import opened Collisions
  import opened StaleWrites

  /** A process starts on empty tables and submits one new row. */
  lemma OneTransactionIsSubmitted(t: Transaction) returns (w: World, ws: seq<World>, es: seq<Event>, d: Delivery)
    requires NewRow(t)
    ensures IsHistory({t.pair}, ws, es) && ws[|es|] == w
    ensures w.phase.Running? && w.dets == map[]
    ensures d in w.sent && d.accepted && d.id == t.id && d.raw.pair == t.pair && d.raw.nonce == 0
    ensures w.db.txs.Keys == {t.id}
    ensures w.db.txs[t.id] == SetSubmitted(t.(nonce := Some(0)), HashOf(d.raw), 0)
    ensures |w.db.AttemptsOf(t.id)| == 1
  {
    var counts := (p: Pair) => 0;
    var v, vs, fs := RestartAt({t.pair}, Initial(), counts);
    assert v.db.txs.Keys == {};
    var us, gs, raw;
    w, us, gs, raw := SendOne({t.pair}, v, t, 0, counts);
    LeadsOn({t.pair}, Initial(), v, w, counts, vs, fs, us, gs);
    ws, es, d := vs + us[1..], fs + gs, Delivery(t.id, raw, true);
  }

  /** A whole history in which two transactions have accepted sends of one nonce: its second restart
      reads a count that the first send had already reached. */
  lemma TwoTransactionsCollide(t: Transaction, r: Transaction)
    returns (ws: seq<World>, es: seq<Event>, d: Delivery, f: Delivery)
    requires NewRow(t) && NewRow(r) && t.pair == r.pair && t.id != r.id && t.key != r.key
    ensures IsHistory({t.pair}, ws, es)
    ensures d in ws[|es|].sent && f in ws[|es|].sent && d.accepted && f.accepted
    ensures f.id != d.id && f.raw.pair == d.raw.pair && f.raw.nonce == d.raw.nonce
  {
    var w, vs, fs;
    w, vs, fs, d := OneTransactionIsSubmitted(t);
    HistoryKeepsInv({t.pair}, vs, fs, |fs|);
    var us, gs;
    us, gs, f := StaleCountCollides({t.pair}, w, d, (p: Pair) => 0, [r]);
    RunsConcatenate({t.pair}, vs, fs, us, gs);
    ws, es := vs + us[1..], fs + gs;
  }

  /** A whole history in which a CONFIRMED row is SUBMITTED again: the poller confirms it between the
      detector's broadcast and the detector's update. */
  lemma AConfirmedRowIsReopened(t: Transaction, r: Receipt) returns (ws: seq<World>, es: seq<Event>)
    requires NewRow(t)
    ensures IsHistory({t.pair}, ws, es) && |es| >= 2
    ensures t.id in ws[|es| - 1].db.txs && ws[|es| - 1].db.txs[t.id].status == Confirmed
    ensures t.id in ws[|es|].db.txs && ws[|es|].db.txs[t.id].status == Submitted
    ensures Writes(ws[|es| - 1], es[|es| - 1], t.id) && IsStale(ws[|es| - 1], es[|es| - 1], t.id)
  {
    var w, vs, fs, d := OneTransactionIsSubmitted(t);
    HistoryKeepsInv({t.pair}, vs, fs, |fs|);
    var us, gs := ConfirmedIsReopened({t.pair}, w, t.id, r);
    RunsConcatenate({t.pair}, vs, fs, us, gs);
    ws, es := vs + us[1..], fs + gs;
    assert ws[|es| - 1] == us[|gs| - 1] && es[|es| - 1] == gs[|gs| - 1];
  }
}
