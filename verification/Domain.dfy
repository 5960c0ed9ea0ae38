/** The records of the sender: transactions, attempts, audit entries, receipts and gas parameters.

    Identifiers are naturals that stand for the order of the ULIDs the service generates, addresses
    and 32-byte words are naturals, and a hash is the value it was computed from: equal hashes mean
    equal signed transactions. */
module Domain {

  datatype Option<+T> = None | Some(value: T)

  datatype Result<+T, +E> = Ok(value: T) | Err(error: E)

  const TWO_64: nat := 0x1_0000_0000_0000_0000

  type Uint64 = n: nat | n < TWO_64

  type TxId = nat
  type Address = nat

  /** A pipeline's key: one sending address on one chain. */
  datatype Pair = Pair(sender: Address, chainId: nat)

  datatype Priority = Low | Normal | High | Urgent

  datatype TxStatus = Queued | Pending | Submitted | Included | Confirmed | Reverted | Failed {
    predicate IsTerminal() {
      this in {Confirmed, Reverted, Failed}
    }
  }

  datatype AttemptStatus = Broadcast | AttemptConfirmed | Replaced | Dropped

  /** Fees are nil-able pointers in the source; txType 2 is EIP-1559, anything else is legacy. */
  datatype GasParams = GasParams(
    gasLimit: nat,
    maxFee: Option<int>,
    tip: Option<int>,
    gasPrice: Option<int>,
    txType: int)

  const NO_GAS := GasParams(0, None, None, None, 0)

  /** What a raw transaction encodes. */
  datatype SignedTx = SignedTx(
    pair: Pair,
    nonce: nat,
    gas: GasParams,
    to: Address,
    value: nat,
    data: seq<nat>)

  datatype TxHash = HashOf(signed: SignedTx)

  datatype Attempt = Attempt(number: nat, raw: SignedTx, status: AttemptStatus, createdAt: nat) {
    function Hash(): TxHash {
      HashOf(raw)
    }
  }

  datatype ErrorCode =
    | InternalError | EstimationReverted | SigningFailed | BroadcastFailed | MaxRetriesExceeded

  datatype Actor = Api | PipelineOf(pair: Pair) | PollerOf(chainId: nat) | StuckDetector

  /** One row of the audit table; `from` is absent in the entry the API writes. */
  datatype LogEntry = LogEntry(from: Option<TxStatus>, to: TxStatus, actor: Actor)

  datatype EventLog = EventLog(address: Address, topics: seq<nat>)

  datatype Receipt = Receipt(
    blockNumber: Uint64,
    blockHash: nat,
    gasUsed: nat,
    status: nat,
    logs: seq<EventLog>)

  datatype Transaction = Transaction(
    id: TxId,
    key: string,
    pair: Pair,
    to: Address,
    value: nat,
    data: seq<nat>,
    priority: Priority,
    token: string,
    amount: string,
    recipient: Address,
    tokenContract: Option<Address>,
    decimals: nat,
    createdAt: nat,
    status: TxStatus,
    nonce: Option<nat>,
    errorCode: Option<ErrorCode>,
    finalHash: Option<TxHash>,
    blockNumber: Option<Uint64>,
    blockHash: Option<nat>,
    gasUsed: Option<nat>,
    receiptStatus: Option<nat>,
    submittedAt: Option<nat>)
  {
    /** The signed transaction a worker builds for this row. */
    function Sign(nonce: nat, gas: GasParams): SignedTx {
      SignedTx(pair, nonce, gas, to, value, data)
    }
  }
}
