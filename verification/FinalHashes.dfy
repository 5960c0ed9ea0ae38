/** What the receipt poller takes for granted about final hashes, from the nonce theorems. */
module FinalHashes {
  import opened Domain
  import opened Repository
  import opened Protocol
  import opened Invariants
  import opened Safety
  import opened Nonces
  import Passes

  /** A submitted row's final hash tells its nonce, and a send with that nonce was accepted for it. */
  lemma FinalHashWasAccepted(w: World, id: TxId) returns (d: Delivery)
    requires Inv(w) && NoncesOk(w) && id in w.submitted
    ensures d in w.sent && d.accepted && d.id == id && w.db.txs[id].finalHash.Some?
    ensures var raw := w.db.txs[id].finalHash.value.signed; d.raw.nonce == raw.nonce && d.raw.pair == raw.pair
  {
    var (t, s) := (w.db.txs[id], w.db.AttemptsOf(id));
    assert RowOk(t, s, true) && WasAccepted(w.sent, id);
    d :| d in w.sent && d.accepted && d.id == id;
    var i :| 0 <= i < |s| && s[i].Hash() == t.finalHash.value;
    DeliveriesAgree(w, d, s[i].raw);
  }

  /** Under the same hypothesis on the counts, final hashes tell a chain's SUBMITTED rows apart in
      every world of every history: what the paged scan of SUBMITTED rows relies on. */
  lemma FinalHashesAreDistinct(pairs: set<Pair>, ws: seq<World>, es: seq<Event>, n: nat, chainId: nat)
    requires IsHistory(pairs, ws, es) && n < |ws|
    requires forall j :: 0 <= j < |es| ==> Trusted(ws[j], es[j])
    ensures Passes.DistinctFinalHashes(chainId, ws[n].db)
  {
    HistoryKeepsInv(pairs, ws, es, n);
    HistoryKeepsNonces(pairs, ws, es, n);
    var w := ws[n];
    forall i, j | i in w.db.txs && j in w.db.txs && w.db.txs[i].status == Submitted && w.db.txs[j].status == Submitted
                  && w.db.txs[i].finalHash == w.db.txs[j].finalHash
      ensures i == j
    {
      assert RowOk(w.db.txs[i], w.db.AttemptsOf(i), i in w.submitted);
      assert RowOk(w.db.txs[j], w.db.AttemptsOf(j), j in w.submitted);
      var d := FinalHashWasAccepted(w, i);
      var f := FinalHashWasAccepted(w, j);
    }
  }
}
