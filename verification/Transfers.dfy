/** The decisions of the transfer endpoint (internal/api/transfer.go): validation, resolution of a
    request to transaction fields, and the idempotency comparison. */
module Transfers {
  import opened Domain
  import opened Amounts
  import opened Protocol

  datatype ApiCode =
    | MissingField | IdempotencyKeyTooLong | InvalidChain | InvalidAddress | UnknownSender
    | InvalidRecipient | ZeroAddressRecipient | InvalidPriority | InvalidAmount | ZeroAmount
    | AmountOverflow | ExceedsTransferLimit | TokenNotWhitelisted | TokenDisabled | SelfTransferToken
    | IdempotencyConflict | ApiInternalError

  datatype ApiError = ApiError(code: ApiCode, http: nat)

  datatype Request = Request(
    key: string,
    chainId: nat,
    sender: string,
    recipient: string,
    token: string,
    amount: string,
    priority: string)

  datatype TokenConfig = TokenConfig(contract: Address, decimals: nat, max: Option<int>, enabled: bool)

  datatype ChainConfig = ChainConfig(
    nativeSymbol: string,
    nativeDecimals: nat,
    nativeMax: Option<int>,
    tokens: map<string, TokenConfig>)

  const MAX_UINT256: nat := 0xffff_ffff_ffff_ffff_ffff_ffff_ffff_ffff_ffff_ffff_ffff_ffff_ffff_ffff_ffff_ffff

  // ---- letter case and addresses ----

  function UpperChar(c: char): char {
    if 'a' <= c <= 'z' then (c as int - 32) as char else c
  }

  function ToUpper(s: string): (r: string)
    ensures |r| == |s| && forall i :: 0 <= i < |s| ==> r[i] == UpperChar(s[i])
  {
    seq(|s|, i requires 0 <= i < |s| => UpperChar(s[i]))
  }

  /** Equal up to the case of ASCII letters. */
  predicate EqualFold(a: string, b: string) {
    ToUpper(a) == ToUpper(b)
  }

  predicate IsHexChar(c: char) {
    '0' <= c <= '9' || 'A' <= UpperChar(c) <= 'F'
  }

  function HexDigit(c: char): (d: nat)
    requires IsHexChar(c)
    ensures d < 16
  {
    if c <= '9' then c as int - '0' as int else UpperChar(c) as int - 'A' as int + 10
  }

  predicate AllHex(s: string) {
    forall i :: 0 <= i < |s| ==> IsHexChar(s[i])
  }

  function HexValue(s: string): nat
    requires AllHex(s)
  {
    if s == "" then 0 else 16 * HexValue(s[..|s| - 1]) + HexDigit(s[|s| - 1])
  }

  predicate HasPrefix(s: string) {
    |s| >= 2 && s[0] == '0' && (s[1] == 'x' || s[1] == 'X')
  }

  function AddressDigits(s: string): string {
    if HasPrefix(s) then s[2..] else s
  }

  /** Forty hex digits, with or without 0x. */
  predicate IsHexAddress(s: string) {
    |AddressDigits(s)| == 40 && AllHex(AddressDigits(s))
  }

  function HexToAddress(s: string): Address
    requires IsHexAddress(s)
  {
    HexValue(AddressDigits(s))
  }

  // ---- validation ----

  function ParsePriority(s: string): Option<Priority> {
    if s == "low" then Some(Low)
    else if s == "normal" then Some(Normal)
    else if s == "high" then Some(High)
    else if s == "urgent" then Some(Urgent)
    else None
  }

  function Validate(req: Request, chains: map<nat, ChainConfig>, signers: set<Address>): Option<ApiError> {
    if req.key == "" then Some(ApiError(MissingField, 400))
    else if |req.key| > 256 then Some(ApiError(IdempotencyKeyTooLong, 400))
    else if req.chainId == 0 then Some(ApiError(MissingField, 400))
    else if req.chainId !in chains then Some(ApiError(InvalidChain, 400))
    else if req.sender == "" then Some(ApiError(MissingField, 400))
    else if !IsHexAddress(req.sender) then Some(ApiError(InvalidAddress, 400))
    else if HexToAddress(req.sender) !in signers then Some(ApiError(UnknownSender, 404))
    else if req.recipient == "" then Some(ApiError(MissingField, 400))
    else if !IsHexAddress(req.recipient) then Some(ApiError(InvalidRecipient, 400))
    else if HexToAddress(req.recipient) == 0 then Some(ApiError(ZeroAddressRecipient, 400))
    else if EqualFold(req.sender, req.recipient) then Some(ApiError(InvalidRecipient, 400))
    else if req.token == "" then Some(ApiError(MissingField, 400))
    else if req.amount == "" then Some(ApiError(MissingField, 400))
    else if req.priority != "" && ParsePriority(req.priority).None? then Some(ApiError(InvalidPriority, 400))
    else None
  }

  /** How a request spells a priority. */
  function NameOf(p: Priority): string {
    match p
    case Low => "low"
    case Normal => "normal"
    case High => "high"
    case Urgent => "urgent"
  }

  /** Parsing and spelling a priority undo each other. */
  lemma PriorityRoundTrip(s: string, p: Priority)
    ensures ParsePriority(s) == Some(p) <==> s == NameOf(p)
  {
  }

  /** A request passes validation if and only if it has a key of at most 256 characters, a configured
      chain, a sender the service signs for, another recipient than nobody, a token, an amount and a
      known priority or none, and does not repeat the sender's address in the sender's style. */
  lemma ValidIff(req: Request, chains: map<nat, ChainConfig>, signers: set<Address>)
    ensures Validate(req, chains, signers).None? <==>
              && 1 <= |req.key| <= 256 && req.chainId in chains && req.chainId != 0
              && IsHexAddress(req.sender) && IsHexAddress(req.recipient)
              && HexToAddress(req.sender) in signers && HexToAddress(req.recipient) != 0
              && (HexToAddress(req.sender) == HexToAddress(req.recipient) ==>
                    HasPrefix(req.sender) != HasPrefix(req.recipient))
              && req.token != "" && req.amount != ""
              && (req.priority == "" || exists p :: req.priority == NameOf(p))
  {
    forall p { PriorityRoundTrip(req.priority, p); }
    if IsHexAddress(req.sender) && IsHexAddress(req.recipient) {
      SelfTransferIsRecognisedIff(req.sender, req.recipient);
    }
  }

  /** What the rest of the endpoint relies on. */
  predicate WellFormed(req: Request) {
    && IsHexAddress(req.sender) && IsHexAddress(req.recipient)
    && (req.priority == "" || ParsePriority(req.priority).Some?)
  }

  const FORTY_ZEROS := seq(40, _ => '0')

  type ValidRequest = req: Request | WellFormed(req)
    witness Request("", 0, FORTY_ZEROS, FORTY_ZEROS, "", "", "")

  lemma HexLast(s: string, t: string)
    requires AllHex(s) && AllHex(t) && s != "" && t != "" && HexValue(s) == HexValue(t)
    ensures HexValue(s[..|s| - 1]) == HexValue(t[..|t| - 1])
    ensures UpperChar(s[|s| - 1]) == UpperChar(t[|t| - 1])
  {
    LastDigit(HexValue(s[..|s| - 1]), HexDigit(s[|s| - 1]), HexValue(t[..|t| - 1]), HexDigit(t[|t| - 1]));
  }

  lemma LastDigit(p: nat, a: nat, q: nat, b: nat)
    requires 16 * p + a == 16 * q + b && a < 16 && b < 16
    ensures p == q && a == b
  {
  }

  /** Hex digits of one length have the same value if and only if they are the same up to case. */
  lemma {:induction false} HexIsInjective(s: string, t: string)
    requires AllHex(s) && AllHex(t) && |s| == |t|
    ensures HexValue(s) == HexValue(t) <==> EqualFold(s, t)
  {
    if s != "" {
      var (a, b) := (s[..|s| - 1], t[..|t| - 1]);
      HexIsInjective(a, b);
      if HexValue(s) == HexValue(t) {
        HexLast(s, t);
        assert ToUpper(s) == ToUpper(a) + [UpperChar(s[|s| - 1])];
        assert ToUpper(t) == ToUpper(b) + [UpperChar(t[|t| - 1])];
      }
      if EqualFold(s, t) {
        assert forall i :: 0 <= i < |s| ==> UpperChar(s[i]) == ToUpper(s)[i] == ToUpper(t)[i] == UpperChar(t[i]);
        assert ToUpper(a) == ToUpper(b);
        assert HexDigit(s[|s| - 1]) == HexDigit(t[|t| - 1]);
      }
    }
  }

  /** The rule that sender and recipient differ compares spellings: it recognises the sender's own
      address if and only if both are written with the 0x prefix or both without it. */
  lemma SelfTransferIsRecognisedIff(a: string, b: string)
    requires IsHexAddress(a) && IsHexAddress(b)
    ensures EqualFold(a, b) <==> HexToAddress(a) == HexToAddress(b) && HasPrefix(a) == HasPrefix(b)
  {
    HexIsInjective(AddressDigits(a), AddressDigits(b));
    if EqualFold(a, b) {
      assert |a| == |b| by { assert |ToUpper(a)| == |ToUpper(b)|; }
      assert forall i :: 0 <= i < |a| ==> UpperChar(a[i]) == ToUpper(a)[i] == UpperChar(b[i]);
      assert ToUpper(AddressDigits(a)) == ToUpper(AddressDigits(b));
    }
    if HexToAddress(a) == HexToAddress(b) && HasPrefix(a) && HasPrefix(b) {
      assert ToUpper(a) == "0X" + ToUpper(AddressDigits(a));
      assert ToUpper(b) == "0X" + ToUpper(AddressDigits(b));
    }
  }

  // ---- resolution ----

  /** The transaction's fields and the transfer's record. */
  datatype Resolved = Resolved(to: Address, value: nat, data: seq<nat>, contract: Option<Address>, decimals: nat)

  /** The four bytes of transfer(address,uint256), then the two argument words. */
  const TRANSFER_SELECTOR: nat := 0xa9059cbb

  function TransferCall(recipient: Address, n: nat): seq<nat> {
    [TRANSFER_SELECTOR, recipient, n]
  }

  function CheckAmount(amount: string, decimals: nat, max: Option<int>): Result<nat, ApiError> {
    var n := ParseAmount(amount, decimals);
    if n.Err? then Err(ApiError(InvalidAmount, 400))
    else if n.value <= 0 then Err(ApiError(ZeroAmount, 422))
    else if n.value > MAX_UINT256 then Err(ApiError(AmountOverflow, 422))
    else if max.Some? && n.value > max.value then Err(ApiError(ExceedsTransferLimit, 422))
    else Ok(n.value)
  }

  function Resolve(req: Request, chain: ChainConfig): Result<Resolved, ApiError>
    requires IsHexAddress(req.recipient)
  {
    var token := ToUpper(req.token);
    var recipient := HexToAddress(req.recipient);
    if token == ToUpper(chain.nativeSymbol) then
      var n := CheckAmount(req.amount, chain.nativeDecimals, chain.nativeMax);
      if n.Err? then Err(n.error)
      else Ok(Resolved(recipient, n.value, [], None, chain.nativeDecimals))
    else if token !in chain.tokens then Err(ApiError(TokenNotWhitelisted, 403))
    else
      var cfg := chain.tokens[token];
      if !cfg.enabled then Err(ApiError(TokenDisabled, 403)) else
      var n := CheckAmount(req.amount, cfg.decimals, cfg.max);
      if n.Err? then Err(n.error)
      else if recipient == cfg.contract then Err(ApiError(SelfTransferToken, 400))
      else Ok(Resolved(cfg.contract, 0, TransferCall(recipient, n.value), Some(cfg.contract), cfg.decimals))
  }

  // ---- what a resolved transfer means on the chain ----

  datatype Asset = NativeCoin | Token(contract: Address)

  /** What a transaction with these fields moves, to whom, in smallest units; the chain's view. */
  datatype Effect = Moves(asset: Asset, recipient: Address, units: nat) | SomethingElse

  function EffectOf(to: Address, value: nat, data: seq<nat>): Effect {
    if data == [] then Moves(NativeCoin, to, value)
    else if |data| == 3 && data[0] == TRANSFER_SELECTOR && value == 0 then Moves(Token(to), data[1], data[2])
    else SomethingElse
  }

  /** The row's record says what its transaction moves: the receipt poller looks for the log by it. */
  predicate Describes(to: Address, value: nat, data: seq<nat>, contract: Option<Address>, recipient: Address) {
    match EffectOf(to, value, data)
    case Moves(asset, r, _) => r == recipient && contract == if asset.Token? then Some(asset.contract) else None
    case SomethingElse => false
  }

  /** The asset the request names, with its decimals and limit; None when it may not be moved. */
  function AssetOf(token: string, chain: ChainConfig): Option<(Asset, nat, Option<int>)> {
    if EqualFold(token, chain.nativeSymbol) then Some((NativeCoin, chain.nativeDecimals, chain.nativeMax))
    else if ToUpper(token) in chain.tokens && chain.tokens[ToUpper(token)].enabled then
      var cfg := chain.tokens[ToUpper(token)];
      Some((Token(cfg.contract), cfg.decimals, cfg.max))
    else None
  }

  /** The request may move `units` of the asset. */
  predicate Permits(req: Request, chain: ChainConfig, asset: Asset, units: int)
    requires IsHexAddress(req.recipient)
  {
    && AssetOf(req.token, chain).Some?
    && var (a, decimals, max) := AssetOf(req.token, chain).value;
       && a == asset && ParseAmount(req.amount, decimals) == Ok(units)
       && 0 < units <= MAX_UINT256 && (max.Some? ==> units <= max.value)
       && (asset.Token? ==> HexToAddress(req.recipient) != asset.contract)
  }

  /** A request is accepted if and only if it names an asset it may move and a permitted amount of
      it, and then the transaction moves exactly that amount of that asset to the recipient, and the
      record names the token contract and the decimals of the asset that is moved. */
  lemma ResolvesIffPermitted(req: Request, chain: ChainConfig, asset: Asset, units: nat)
    requires IsHexAddress(req.recipient)
    ensures Permits(req, chain, asset, units) <==>
              && Resolve(req, chain).Ok?
              && var r := Resolve(req, chain).value;
                 EffectOf(r.to, r.value, r.data) == Moves(asset, HexToAddress(req.recipient), units)
    ensures Resolve(req, chain).Ok? ==>
              var r := Resolve(req, chain).value;
              && Describes(r.to, r.value, r.data, r.contract, HexToAddress(req.recipient))
              && AssetOf(req.token, chain).Some? && r.decimals == AssetOf(req.token, chain).value.1
  {
  }

  /** For amounts without a sign, in terms of what the text means: the transaction moves `units` if and
      only if the amount is a decimal numeral with no more decimals than the asset has, worth exactly
      that many smallest units, and the quantity is one that may be moved. */
  lemma MovesTheDecimalAmountIff(req: Request, chain: ChainConfig, asset: Asset, decimals: nat,
                                 max: Option<int>, units: nat)
    requires IsHexAddress(req.recipient) && AssetOf(req.token, chain) == Some((asset, decimals, max))
    requires asset.Token? ==> HexToAddress(req.recipient) != asset.contract
    requires req.amount != "" && '+' !in TrimSpace(req.amount) && '-' !in TrimSpace(req.amount)
    ensures (&& Resolve(req, chain).Ok?
             && var r := Resolve(req, chain).value;
                EffectOf(r.to, r.value, r.data) == Moves(asset, HexToAddress(req.recipient), units)) <==>
              var s := TrimSpace(req.amount);
              && IsDecimal(s) && |FracPart(s)| <= decimals && Scaled(s, decimals) == units
              && 0 < units <= MAX_UINT256 && (max.Some? ==> units <= max.value)
  {
    ResolvesIffPermitted(req, chain, asset, units);
    if IsDecimal(TrimSpace(req.amount)) {
      ParsesDecimals(req.amount, decimals);
    } else if ParseAmount(req.amount, decimals).Ok? {
      AcceptedIsDecimalIffUnsigned(req.amount, decimals);
    }
  }

  /** A quantity of an asset's smallest units, written out as a decimal amount, is moved exactly. */
  lemma WrittenAmountIsMoved(req: Request, chain: ChainConfig, asset: Asset, decimals: nat,
                             max: Option<int>, units: nat)
    requires IsHexAddress(req.recipient) && AssetOf(req.token, chain) == Some((asset, decimals, max))
    requires req.amount == Format(units, decimals) && 0 < units <= MAX_UINT256
    requires max.Some? ==> units <= max.value
    requires asset.Token? ==> HexToAddress(req.recipient) != asset.contract
    ensures Resolve(req, chain).Ok?
    ensures var r := Resolve(req, chain).value;
            EffectOf(r.to, r.value, r.data) == Moves(asset, HexToAddress(req.recipient), units)
  {
    RoundTrip(units, decimals);
    ResolvesIffPermitted(req, chain, asset, units);
  }

  // ---- the row and the idempotency comparison ----

  function NewTransaction(req: Request, r: Resolved, id: TxId, now: nat): Transaction
    requires WellFormed(req)
  {
    Transaction(
      id, req.key, Pair(HexToAddress(req.sender), req.chainId), r.to, r.value, r.data,
      if req.priority == "" then Normal else ParsePriority(req.priority).value,
      ToUpper(req.token), req.amount, HexToAddress(req.recipient), r.contract, r.decimals, now,
      Queued, None, None, None, None, None, None, None, None)
  }

  /** The row says what was asked for. */
  predicate Records(t: Transaction, req: Request, now: nat)
    requires WellFormed(req)
  {
    && t.key == req.key && t.createdAt == now
    && t.pair == Pair(HexToAddress(req.sender), req.chainId)
    && t.recipient == HexToAddress(req.recipient)
    && EqualFold(t.token, req.token) && t.amount == req.amount
    && (if req.priority == "" then t.priority == Normal else req.priority == NameOf(t.priority))
  }

  lemma NewTransactionRecords(req: Request, r: Resolved, id: TxId, now: nat)
    requires WellFormed(req)
    ensures Records(NewTransaction(req, r, id, now), req, now)
  {
    UpperTwice(req.token);
    forall p { PriorityRoundTrip(req.priority, p); }
  }

  /** idempotencyMatch; an address column holds the lower-case spelling, so comparing it with the
      request's checksummed spelling up to case compares addresses. */
  predicate Matches(existing: Transaction, req: Request)
    requires WellFormed(req)
  {
    && existing.pair.chainId == req.chainId
    && existing.pair.sender == HexToAddress(req.sender)
    && existing.recipient == HexToAddress(req.recipient)
    && EqualFold(existing.token, ToUpper(req.token))
    && existing.amount == req.amount
  }

  lemma UpperTwice(s: string)
    ensures ToUpper(ToUpper(s)) == ToUpper(s)
  {
  }

  /** A later request matches the row an earlier one created if and only if both ask for the same
      chain, sender, recipient, token up to case and literally the same amount; the priority is not
      compared. In particular a request matches the row it created. */
  lemma MatchesCreatedIff(req: Request, r: Resolved, id: TxId, now: nat, later: Request)
    requires WellFormed(req) && WellFormed(later)
    ensures Matches(NewTransaction(req, r, id, now), later) <==>
              && later.chainId == req.chainId
              && HexToAddress(later.sender) == HexToAddress(req.sender)
              && HexToAddress(later.recipient) == HexToAddress(req.recipient)
              && EqualFold(later.token, req.token)
              && later.amount == req.amount
    ensures Matches(NewTransaction(req, r, id, now), req)
    ensures NewRow(NewTransaction(req, r, id, now))
  {
    UpperTwice(req.token);
    UpperTwice(later.token);
  }

  /** Two requests that match one row match each other's rows. */
  lemma MatchingIsShared(t: Transaction, a: Request, b: Request)
    requires WellFormed(a) && WellFormed(b) && Matches(t, a) && Matches(t, b)
    ensures SameTransfer(a, b)
  {
    UpperTwice(a.token);
    UpperTwice(b.token);
  }

  predicate SameTransfer(a: Request, b: Request)
    requires WellFormed(a) && WellFormed(b)
  {
    && a.chainId == b.chainId && HexToAddress(a.sender) == HexToAddress(b.sender)
    && HexToAddress(a.recipient) == HexToAddress(b.recipient)
    && EqualFold(a.token, b.token) && a.amount == b.amount
  }
}
