/** From the request to the chain: what a CONFIRMED transaction moved is what was asked for. */
module EndToEnd {
  import opened Domain
  import opened Tables
  import opened Lifecycle
  import opened Transfers
  import H = Histories
  import Intake
  import Endpoint

  /** What a signed transaction moves. */
  function Signs(raw: SignedTx): Effect {
    EffectOf(raw.to, raw.value, raw.data)
  }

  /** The chain executed the transfer: it was mined with success and, for a token, the token's contract
      logged a Transfer of its own from the sender to the recipient. */
  ghost predicate Executed(r: Receipt, asset: Asset, sender: Address, recipient: Address) {
    && r.status == 1
    && (asset.Token? ==>
          exists i :: 0 <= i < |r.logs| && IsTransferLog(r.logs[i], asset.contract, sender, recipient))
  }

  /** Every attempt of a row moves what the row was created for. */
  lemma AttemptsMoveTheSame(k: int, es: seq<Entity>, ms: seq<Move>, i: nat, j: nat)
    requires Life(k, es, ms) && i <= |ms| && j < |es[i].attempts|
    ensures var (t, raw) := (es[0].tx, es[i].attempts[j].raw);
            raw.pair == t.pair && Signs(raw) == EffectOf(t.to, t.value, t.data)
  {
    LifeIsSound(k, es, ms, i);
    H.TransferIsFixed(k, es, ms, 0, i);
  }

  /** The mined transaction of a CONFIRMED row moves what was asked for, and if the row's last inclusion
      was checked, or nothing has to be waited for, the chain executed it. */
  lemma ConfirmedMeansMoved(
      k: int, es: seq<Entity>, ms: seq<Move>, chain: (TxHash, nat) -> Receipt, i: nat,
      asset: Asset, recipient: Address, units: nat)
    requires Life(k, es, ms) && H.FixedReceipts(es, ms, chain) && i <= |ms| && es[i].tx.status == Confirmed
    requires var t := es[0].tx;
             && EffectOf(t.to, t.value, t.data) == Moves(asset, recipient, units)
             && Describes(t.to, t.value, t.data, t.tokenContract, t.recipient)
    ensures es[i].tx.finalHash.Some? && es[i].tx.blockHash.Some?
    ensures H.LastInclusion(k, es, ms, i).Some? <==> k > 0
    ensures var raw := es[i].tx.finalHash.value.signed;
            raw.pair == es[0].tx.pair && Signs(raw) == Moves(asset, recipient, units)
    ensures Executed(H.MinedReceipt(es[i].tx, chain), asset, es[0].tx.pair.sender, recipient) <==>
              || k <= 0
              || ms[H.LastInclusion(k, es, ms, i).value].Poll?
              || Executed(ms[H.LastInclusion(k, es, ms, i).value].seen.value, asset, es[0].tx.pair.sender, recipient)
  {
    H.ConfirmedSucceededIff(k, es, ms, chain, i);
    H.TransferIsFixed(k, es, ms, 0, i);
    LifeIsSound(k, es, ms, i);
    var c :| 0 <= c < |es[i].attempts| && es[i].attempts[c].Hash() == es[i].tx.finalHash.value;
    AttemptsMoveTheSame(k, es, ms, i, c);
    SucceededIsExecuted(H.MinedReceipt(es[i].tx, chain), es[0].tx, es[i].tx, asset, recipient, units);
    if k > 0 && !ms[H.LastInclusion(k, es, ms, i).value].Poll? {
      SucceededIsExecuted(ms[H.LastInclusion(k, es, ms, i).value].seen.value, es[0].tx, es[i].tx, asset, recipient,
                          units);
    }
  }

  /** The poller's test of a receipt is about the transfer the row was created for. */
  lemma SucceededIsExecuted(r: Receipt, t: Transaction, t': Transaction, asset: Asset, recipient: Address, units: nat)
    requires EffectOf(t.to, t.value, t.data) == Moves(asset, recipient, units)
    requires Describes(t.to, t.value, t.data, t.tokenContract, t.recipient) && H.SameTransfer(t, t')
    ensures H.Succeeded(r, t') <==> Executed(r, asset, t.pair.sender, recipient)
  {
  }

  /** A request that was accepted as a new transaction, and whose row is CONFIRMED later: the mined
      transaction was signed for the request's sender and chain and moves the permitted quantity of the
      asset to the recipient, and unless its last inclusion went unchecked the chain executed it. */
  lemma RequestIsCarriedOut(
      chains: map<nat, ChainConfig>, signers: set<Address>, db: Db, req: Request, id: TxId, now: nat,
      answer: Intake.Answer, d: Db, p: Pair, asset: Asset, units: nat,
      k: int, es: seq<Entity>, ms: seq<Move>, chain: (TxHash, nat) -> Receipt, i: nat)
    requires Endpoint.Handles(chains, signers, db, req, id, now, answer, d, Some(p))
    requires db.AttemptsOf(id) == [] && db.LogOf(id) == []
    requires WellFormed(req) && req.chainId in chains && Permits(req, chains[req.chainId], asset, units)
    requires id in d.txs && Life(k, es, ms) && es[0] == d.EntityOf(id)
    requires H.FixedReceipts(es, ms, chain) && i <= |ms| && es[i].tx.status == Confirmed
    ensures es[i].tx.finalHash.Some? && es[i].tx.blockHash.Some?
    ensures H.LastInclusion(k, es, ms, i).Some? <==> k > 0
    ensures var raw := es[i].tx.finalHash.value.signed;
            && raw.pair == Pair(HexToAddress(req.sender), req.chainId) && raw.pair.sender in signers
            && Signs(raw) == Moves(asset, HexToAddress(req.recipient), units)
    ensures k <= 0 || ms[H.LastInclusion(k, es, ms, i).value].Poll? ==>
              Executed(H.MinedReceipt(es[i].tx, chain), asset, HexToAddress(req.sender), HexToAddress(req.recipient))
  {
    Endpoint.CreatedStartsALife(chains, signers, db, req, id, now, answer, d, p, asset, units);
    ConfirmedMeansMoved(k, es, ms, chain, i, asset, HexToAddress(req.recipient), units);
  }
}
