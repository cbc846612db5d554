/** The persisted ledger record `GsnInfo`: consumer and executor balances, per-consumer
    nonces, optional governance and the audit map of which executor relayed which
    (consumer, nonce). The record is a value (`Ledger`) with its queries; `GsnInfo` is the
    in-memory copy a handler updates in place before writing it back. */
module State {
  import opened Common
  import opened Errors

  /** The fee charged when no governance is configured, and the governance default. */
  const DEFAULT_FEE: u64 := 50000
  /** Basis points in a whole: 10000 bp = 100%. */
  const BASIS_POINTS: nat := 10000

  datatype FeeMode = Fixed(amount: u64) | Percent(basisPoints: u16)

  datatype GovernanceConfig = GovernanceConfig(
    authority: Pubkey,
    feeMode: FeeMode,
    /** The allow-list; an empty map allows every token. */
    allowedTokens: map<Pubkey, bool>)

  /** `floor(amount * bp / 10000)` never exceeds `amount` when `bp` is at most 100%. */
  lemma PercentOfAmountWithin(amount: nat, bp: nat)
    requires bp <= BASIS_POINTS
    ensures amount * bp / BASIS_POINTS <= amount
  {
    assert amount * bp <= amount * BASIS_POINTS by {
      assert amount * (BASIS_POINTS - bp) >= 0;
    }
  }

  datatype Ledger = Ledger(
    isInitialized: bool,
    consumer: map<Pubkey, u64>,
    executor: map<Pubkey, u64>,
    governance: Option<GovernanceConfig>,
    consumerNonces: map<Pubkey, u64>,
    transactionExecutor: map<(Pubkey, u64), Pubkey>)
  {
    /** `GsnInfo::new`. */
    static function New(): (l: Ledger)
      ensures l.isInitialized && l.governance.None?
      ensures l.consumer == map[] && l.executor == map[]
      ensures l.consumerNonces == map[] && l.transactionExecutor == map[]
    {
      Ledger(true, map[], map[], None, map[], map[])
    }

    /** `calculate_fee`: the default without governance, the fixed amount whatever the
        transfer, or the floor of the percentage, computed in 128 bits and cast to 64 bits. */
    function CalculateFee(transactionAmount: u64): (fee: u64)
      ensures governance.None? ==> fee == DEFAULT_FEE
      ensures governance.Some? && governance.value.feeMode.Fixed? ==>
                fee == governance.value.feeMode.amount
      ensures governance.Some? && governance.value.feeMode.Percent? &&
              governance.value.feeMode.basisPoints <= BASIS_POINTS ==>
                var bp := governance.value.feeMode.basisPoints;
                fee * BASIS_POINTS <= transactionAmount * bp < (fee + 1) * BASIS_POINTS &&
                fee <= transactionAmount
      ensures governance.Some? && governance.value.feeMode.Percent? ==>
                fee == (transactionAmount * governance.value.feeMode.basisPoints / BASIS_POINTS) % U64_LIMIT
    {
      match governance
      case None => DEFAULT_FEE
      case Some(gov) =>
        match gov.feeMode
        case Fixed(amount) => amount
        case Percent(bp) =>
          var exact := transactionAmount * bp / BASIS_POINTS;
          if bp <= BASIS_POINTS then
            PercentOfAmountWithin(transactionAmount, bp);
            exact
          else
            exact % U64_LIMIT
    }

    /** `is_token_allowed`: open without governance or with an empty allow-list,
        otherwise the listed flag, with an unlisted token refused. */
    function IsTokenAllowed(mint: Pubkey): (allowed: bool)
      ensures governance.None? ==> allowed
      ensures governance.Some? && governance.value.allowedTokens == map[] ==> allowed
      ensures governance.Some? && mint in governance.value.allowedTokens ==>
                allowed == governance.value.allowedTokens[mint]
      ensures (governance.Some? && governance.value.allowedTokens != map[] &&
               mint !in governance.value.allowedTokens) ==> !allowed
    {
      match governance
      case None => true
      case Some(gov) =>
        if gov.allowedTokens == map[] then true
        else if mint in gov.allowedTokens then gov.allowedTokens[mint]
        else false
    }

    /** `is_authority`: only the configured authority, and nobody without governance. */
    function IsAuthority(address: Pubkey): (b: bool)
      ensures b <==> governance.Some? && governance.value.authority == address
    {
      match governance
      case None => false
      case Some(gov) => gov.authority == address
    }

    /** `get_next_nonce`: the stored next nonce, 0 for an unseen consumer. */
    function GetNextNonce(c: Pubkey): (n: u64)
      ensures c in consumerNonces ==> n == consumerNonces[c]
      ensures c !in consumerNonces ==> n == 0
    {
      if c in consumerNonces then consumerNonces[c] else 0
    }

    /** `is_nonce_used`: the nonce lies below the next expected one. */
    function IsNonceUsed(c: Pubkey, nonce: u64): (used: bool)
      ensures used <==> nonce < GetNextNonce(c)
      ensures nonce == GetNextNonce(c) ==> !used
    {
      nonce < GetNextNonce(c)
    }

    /** `get_transaction_executor`. */
    function GetTransactionExecutor(c: Pubkey, nonce: u64): (e: Option<Pubkey>)
      ensures e.Some? <==> (c, nonce) in transactionExecutor
      ensures e.Some? ==> e.value == transactionExecutor[(c, nonce)]
    {
      if (c, nonce) in transactionExecutor then Some(transactionExecutor[(c, nonce)]) else None
    }

    /** `add_consumer`: overwrites the consumer's entry and touches nothing else. */
    function AddConsumer(address: Pubkey, amount: u64): (l: Ledger)
      ensures address in l.consumer && l.consumer[address] == amount
      ensures AgreeExcept(consumer, l.consumer, address)
      ensures l == this.(consumer := l.consumer)
    {
      this.(consumer := consumer[address := amount])
    }

    /** `add_executor`: overwrites the executor's entry and touches nothing else. */
    function AddExecutor(address: Pubkey, amount: u64): (l: Ledger)
      ensures address in l.executor && l.executor[address] == amount
      ensures AgreeExcept(executor, l.executor, address)
      ensures l == this.(executor := l.executor)
    {
      this.(executor := executor[address := amount])
    }

    /** `initialize_governance`: `authority` alone is the authority, the fee is the
        default fixed fee for every amount, and every token is allowed. */
    function InitializeGovernance(authority: Pubkey): (l: Ledger)
      ensures forall x :: l.IsAuthority(x) <==> x == authority
      ensures forall amount: u64 :: l.CalculateFee(amount) == DEFAULT_FEE
      ensures forall mint :: l.IsTokenAllowed(mint)
      ensures l.governance.Some? && l.governance.value.feeMode == Fixed(DEFAULT_FEE)
      ensures l.governance.Some? && l.governance.value.allowedTokens == map[]
      ensures l == this.(governance := l.governance)
    {
      this.(governance := Some(GovernanceConfig(authority, Fixed(DEFAULT_FEE), map[])))
    }

    /** `add_allowed_token`: lists `mint` as allowed; nothing happens without governance. */
    function AddAllowedToken(mint: Pubkey): (l: Ledger)
      ensures governance.None? ==> l == this
      ensures governance.Some? ==>
                l.governance.Some? && l.IsTokenAllowed(mint) &&
                l.governance.value.allowedTokens == governance.value.allowedTokens[mint := true] &&
                l == this.(governance := Some(governance.value.(allowedTokens := l.governance.value.allowedTokens)))
    {
      match governance
      case None => this
      case Some(gov) => this.(governance := Some(gov.(allowedTokens := gov.allowedTokens[mint := true])))
    }

    /** `remove_allowed_token`: unlists `mint`; nothing happens without governance. */
    function RemoveAllowedToken(mint: Pubkey): (l: Ledger)
      ensures governance.None? ==> l == this
      ensures governance.Some? ==>
                l.governance.Some? && mint !in l.governance.value.allowedTokens &&
                l.governance.value.allowedTokens.Keys == governance.value.allowedTokens.Keys - {mint} &&
                AgreeExcept(governance.value.allowedTokens, l.governance.value.allowedTokens, mint) &&
                l == this.(governance := Some(governance.value.(allowedTokens := l.governance.value.allowedTokens)))
    {
      match governance
      case None => this
      case Some(gov) => this.(governance := Some(gov.(allowedTokens := gov.allowedTokens - {mint})))
    }

    /** `update_fee_params`: replaces the fee mode; nothing happens without governance. */
    function UpdateFeeParams(mode: FeeMode): (l: Ledger)
      ensures governance.None? ==> l == this
      ensures governance.Some? ==>
                l.governance == Some(governance.value.(feeMode := mode)) &&
                l == this.(governance := l.governance)
      ensures governance.Some? && mode.Fixed? ==>
                forall amount: u64 :: l.CalculateFee(amount) == mode.amount
    {
      match governance
      case None => this
      case Some(gov) => this.(governance := Some(gov.(feeMode := mode)))
    }

    /** `increment_nonce`: the consumer's next nonce goes up by one; no other consumer's
        nonce and no other field changes. The source's `+ 1` is unchecked: at the largest
        `u64` it overflows, so callers must stay below it. */
    function IncrementNonce(c: Pubkey): (l: Ledger)
      requires GetNextNonce(c) < U64_MAX
      ensures l.GetNextNonce(c) == GetNextNonce(c) + 1
      ensures forall d :: d != c ==> l.GetNextNonce(d) == GetNextNonce(d)
      ensures l == this.(consumerNonces := l.consumerNonces)
    {
      this.(consumerNonces := consumerNonces[c := GetNextNonce(c) + 1])
    }

    /** `record_transaction_executor`: afterwards (c, nonce) maps to `e`, and every other
        (consumer, nonce) pair keeps its entry or its absence. */
    function RecordTransactionExecutor(c: Pubkey, nonce: u64, e: Pubkey): (l: Ledger)
      ensures l.GetTransactionExecutor(c, nonce) == Some(e)
      ensures forall d: Pubkey, n: u64 :: (d, n) != (c, nonce) ==>
                l.GetTransactionExecutor(d, n) == GetTransactionExecutor(d, n)
      ensures l == this.(transactionExecutor := l.transactionExecutor)
    {
      this.(transactionExecutor := transactionExecutor[(c, nonce) := e])
    }
  }

  /** The in-memory `GsnInfo` a handler decodes, updates in place and writes back. */
  class GsnInfo {
    var isInitialized: bool
    var consumer: map<Pubkey, u64>
    var executor: map<Pubkey, u64>
    var governance: Option<GovernanceConfig>
    var consumerNonces: map<Pubkey, u64>
    var transactionExecutor: map<(Pubkey, u64), Pubkey>

    /** The record this object holds. */
    function Value(): Ledger
      reads this
    {
      Ledger(isInitialized, consumer, executor, governance, consumerNonces, transactionExecutor)
    }

    /** `GsnInfo::new`. */
    constructor New()
      ensures Value() == Ledger.New()
    {
      isInitialized, consumer, executor := true, map[], map[];
      governance, consumerNonces, transactionExecutor := None, map[], map[];
    }

    /** The object `GsnInfo::deserialize` yields for a buffer holding `l`. */
    constructor Decoded(l: Ledger)
      ensures Value() == l
    {
      isInitialized, consumer, executor := l.isInitialized, l.consumer, l.executor;
      governance, consumerNonces, transactionExecutor := l.governance, l.consumerNonces, l.transactionExecutor;
    }

    /** `GsnInfo::deserialize` from the ledger account's buffer. */
    static method Deserialize(account: LedgerAccount) returns (r: Result<GsnInfo>)
      ensures r.Ok? <==> account.data.Some?
      ensures r.Ok? ==> fresh(r.value) && r.value.Value() == account.data.value
      ensures r.Err? ==> r.error == InvalidAccountData
    {
      if account.data.None? {
        return Err(InvalidAccountData);
      }
      var gsn := new GsnInfo.Decoded(account.data.value);
      return Ok(gsn);
    }

    /** `serialize` into the ledger account's buffer: the record is written when the
        buffer can hold it, else AccountDataTooSmall and the buffer is as before. */
    method Serialize(account: LedgerAccount, capacityOk: bool) returns (r: ProgramResult)
      modifies account
      ensures capacityOk ==> r == Success && account.data == Some(Value())
      ensures !capacityOk ==> r == Failure(AccountDataTooSmall) && account.data == old(account.data)
    {
      if !capacityOk {
        return Failure(AccountDataTooSmall);
      }
      account.data := Some(Value());
      return Success;
    }

    method AddConsumer(address: Pubkey, amount: u64) returns (ok: bool)
      modifies this
      ensures ok && Value() == old(Value()).AddConsumer(address, amount)
    {
      consumer := consumer[address := amount];
      return true;
    }

    method AddExecutor(address: Pubkey, amount: u64) returns (ok: bool)
      modifies this
      ensures ok && Value() == old(Value()).AddExecutor(address, amount)
    {
      executor := executor[address := amount];
      return true;
    }

    method InitializeGovernance(authority: Pubkey)
      modifies this
      ensures Value() == old(Value()).InitializeGovernance(authority)
    {
      governance := Some(GovernanceConfig(authority, Fixed(DEFAULT_FEE), map[]));
    }

    method AddAllowedToken(mint: Pubkey)
      modifies this
      ensures Value() == old(Value()).AddAllowedToken(mint)
    {
      if governance.Some? {
        var gov := governance.value;
        governance := Some(gov.(allowedTokens := gov.allowedTokens[mint := true]));
      }
    }

    method RemoveAllowedToken(mint: Pubkey)
      modifies this
      ensures Value() == old(Value()).RemoveAllowedToken(mint)
    {
      if governance.Some? {
        var gov := governance.value;
        governance := Some(gov.(allowedTokens := gov.allowedTokens - {mint}));
      }
    }

    method UpdateFeeParams(mode: FeeMode)
      modifies this
      ensures Value() == old(Value()).UpdateFeeParams(mode)
    {
      if governance.Some? {
        governance := Some(governance.value.(feeMode := mode));
      }
    }

    /** `increment_nonce`: stores and returns the consumer's next nonce plus one. */
    method IncrementNonce(c: Pubkey) returns (next: u64)
      requires Value().GetNextNonce(c) < U64_MAX
      modifies this
      ensures next == old(Value()).GetNextNonce(c) + 1
      ensures Value() == old(Value()).IncrementNonce(c)
    {
      var current := Value().GetNextNonce(c);
      next := current + 1;
      consumerNonces := consumerNonces[c := next];
    }

    method RecordTransactionExecutor(c: Pubkey, nonce: u64, e: Pubkey)
      modifies this
      ensures Value() == old(Value()).RecordTransactionExecutor(c, nonce, e)
    {
      transactionExecutor := transactionExecutor[(c, nonce) := e];
    }
  }

  /** The ledger account's data buffer, abstracted to the record it decodes to;
      `None` is a buffer that does not decode. */
  class LedgerAccount {
    var data: Option<Ledger>

    constructor (data: Option<Ledger>)
      ensures this.data == data
    {
      this.data := data;
    }
  }
}
