/** The instruction handlers. Each reads the ledger record, runs its guards in a fixed
    order, may ask the host for one transfer, updates the record and writes it back.
    Every `*Step` function states what a handler does to the ledger account; the
    matching `Process*` method does it in place and is proved to agree with it. */
module Processor {
  import opened Common
  import opened Errors
  import opened Instruction
  import opened State

  /** An account passed to the program, reduced to its key and whether it signed. */
  datatype AccountInfo = AccountInfo(key: Pubkey, isSigner: bool)

  /** A `system_instruction::transfer` the program asks the host to perform. */
  datatype Transfer = Transfer(from: Pubkey, to: Pubkey, lamports: u64)

  /** What the host's `invoke` of that transfer returns. */
  datatype TransferResult = Completed | Failed(error: ProgramError)

  /** The instruction's result, the ledger account's data afterwards, and the transfer
      requested from the host, if any. */
  datatype Outcome = Outcome(result: ProgramResult, data: Option<Ledger>, invoked: Option<Transfer>)

  /** A guard failed: nothing is written and nothing is transferred. */
  function Rejected(data: Option<Ledger>, e: ProgramError): (o: Outcome)
    ensures !o.result.Success? && o.data == data && o.invoked == None
  {
    Outcome(Failure(e), data, None)
  }

  /** Writing `l` back: it lands only when the account's buffer can hold it. */
  function Commit(data: Option<Ledger>, l: Ledger, capacityOk: bool, invoked: Option<Transfer>): (o: Outcome)
    ensures o.result.Success? <==> capacityOk
    ensures o.data == if capacityOk then Some(l) else data
    ensures !capacityOk ==> o.result == Failure(AccountDataTooSmall)
    ensures o.invoked == invoked
  {
    if capacityOk then Outcome(Success, Some(l), invoked)
    else Outcome(Failure(AccountDataTooSmall), data, invoked)
  }

  /** Accounts: [ledger, optional authority]. Never reads the existing data. */
  function InitializeStep(accounts: seq<AccountInfo>, data: Option<Ledger>, capacityOk: bool): (o: Outcome)
    ensures o.invoked == None
    ensures !o.result.Success? ==> o.data == data
    ensures |accounts| == 0 ==> o == Rejected(data, NotEnoughAccountKeys)
    ensures |accounts| >= 2 && !accounts[1].isSigner ==> o == Rejected(data, Unauthorized.ToProgramError())
    ensures o.result.Success? <==>
              |accounts| >= 1 && (|accounts| >= 2 ==> accounts[1].isSigner) && capacityOk
    ensures o.result.Success? ==>
              o.data.Some? && o.data.value == Ledger.New().(governance := o.data.value.governance) &&
              (|accounts| == 1 <==> o.data.value.governance.None?) &&
              forall x :: o.data.value.IsAuthority(x) <==> |accounts| >= 2 && x == accounts[1].key
    ensures o.result.Success? ==>
              o.data == Some(if |accounts| == 1 then Ledger.New() else Ledger.New().InitializeGovernance(accounts[1].key))
  {
    if |accounts| < 1 then Rejected(data, NotEnoughAccountKeys)
    else
      var gsn := Ledger.New();
      if |accounts| >= 2 then
        if !accounts[1].isSigner then Rejected(data, Unauthorized.ToProgramError())
        else Commit(data, gsn.InitializeGovernance(accounts[1].key), capacityOk, None)
      else Commit(data, gsn, capacityOk, None)
  }

  /** Accounts: [ledger, consumer]. No signer or authority check; the balance update
      uses `or_insert`, so an existing consumer's balance is not changed. */
  function TopupStep(amount: u64, accounts: seq<AccountInfo>, data: Option<Ledger>, capacityOk: bool): (o: Outcome)
    ensures o.invoked == None
    ensures !o.result.Success? ==> o.data == data
    ensures |accounts| < 2 ==> o == Rejected(data, NotEnoughAccountKeys)
    ensures |accounts| >= 2 && data.None? ==> o == Rejected(data, InvalidAccountData)
    ensures o.result == Aborted <==>
              |accounts| >= 2 && data.Some? && accounts[1].key in data.value.consumer &&
              data.value.consumer[accounts[1].key] + amount > U64_MAX
    ensures |accounts| >= 2 && data.Some? && o.result != Aborted ==> (o.result.Success? <==> capacityOk)
    ensures o.result.Success? ==>
              |accounts| >= 2 && data.Some? && o.data.Some? &&
              var l, l', c := data.value, o.data.value, accounts[1].key;
              l' == l.(consumer := l'.consumer) &&
              c in l'.consumer && AgreeExcept(l.consumer, l'.consumer, c) &&
              (c !in l.consumer ==> l'.consumer[c] == amount) &&
              (c in l.consumer ==> l'.consumer[c] == l.consumer[c])
  {
    if |accounts| < 2 then Rejected(data, NotEnoughAccountKeys)
    else if data.None? then Rejected(data, InvalidAccountData)
    else
      var l, c := data.value, accounts[1].key;
      if c in l.consumer then
        if l.consumer[c] + amount > U64_MAX then Outcome(Aborted, data, None)
        else Commit(data, l.(consumer := OrInsert(l.consumer, c, l.consumer[c] + amount)), capacityOk, None)
      else Commit(data, l.AddConsumer(c, amount), capacityOk, None)
  }

  /** Accounts: [target program, sender, receiver, executor (fee payer), ledger].
      Guards in order: consumer entry, exact nonce, the unreachable replay check, fee
      coverage; then the transfer; then the audit entry, the nonce, the executor's
      credit and the consumer's debit, the last two through `or_insert`. */
  function SubmitStep(amount: u64, nonce: u64, accounts: seq<AccountInfo>, data: Option<Ledger>,
                      transfer: TransferResult, capacityOk: bool): (o: Outcome)
    ensures !o.result.Success? ==> o.data == data
    ensures |accounts| < 5 ==> o == Rejected(data, NotEnoughAccountKeys)
    ensures |accounts| >= 5 && data.None? ==> o == Rejected(data, InvalidAccountData)
    ensures |accounts| >= 5 && data.Some? ==>
              var l, s := data.value, accounts[1].key;
              (s !in l.consumer ==> o == Rejected(data, InvalidInstructionData)) &&
              (s in l.consumer && nonce != l.GetNextNonce(s) ==>
                 o == Rejected(data, InvalidNonce.ToProgramError())) &&
              (s in l.consumer && nonce == l.GetNextNonce(s) && l.consumer[s] < l.CalculateFee(amount) ==>
                 o == Rejected(data, InsufficientBalance.ToProgramError()))
    ensures o.invoked.Some? ==>
              |accounts| >= 5 && data.Some? &&
              var l, s := data.value, accounts[1].key;
              s in l.consumer && nonce == l.GetNextNonce(s) && l.CalculateFee(amount) <= l.consumer[s] &&
              o.invoked.value == Transfer(s, accounts[2].key, amount)
    ensures o.invoked.Some? && transfer.Failed? ==> o.result == Failure(transfer.error)
    ensures o.result == Failure(ReplayAttack.ToProgramError()) ==> o.invoked.Some? && transfer.Failed?
    ensures |accounts| >= 5 && data.Some? && accounts[1].key in data.value.consumer &&
            nonce == data.value.GetNextNonce(accounts[1].key) &&
            data.value.CalculateFee(amount) <= data.value.consumer[accounts[1].key] ==>
              var l, s, e := data.value, accounts[1].key, accounts[3].key;
              o.invoked == Some(Transfer(s, accounts[2].key, amount)) &&
              (transfer.Completed? ==>
                 (o.result == Aborted <==>
                    nonce == U64_MAX || (e in l.executor && l.executor[e] + l.CalculateFee(amount) > U64_MAX)) &&
                 (o.result != Aborted ==> (o.result.Success? <==> capacityOk)))
    ensures o.result.Success? ==>
              |accounts| >= 5 && data.Some? && o.data.Some? && o.invoked.Some? && transfer.Completed? &&
              var l, l', s, e := data.value, o.data.value, accounts[1].key, accounts[3].key;
              var fee := l.CalculateFee(amount);
              l'.GetNextNonce(s) == nonce + 1 == l.GetNextNonce(s) + 1 &&
              (forall d :: d != s ==> l'.GetNextNonce(d) == l.GetNextNonce(d)) &&
              l'.GetTransactionExecutor(s, nonce) == Some(e) &&
              (forall d: Pubkey, n: u64 :: (d, n) != (s, nonce) ==>
                 l'.GetTransactionExecutor(d, n) == l.GetTransactionExecutor(d, n)) &&
              (e !in l.executor ==> l'.executor == l.executor[e := fee]) &&
              (e in l.executor ==> l'.executor == l.executor) &&
              l'.consumer == l.consumer &&
              l'.governance == l.governance && l'.isInitialized == l.isInitialized
  {
    if |accounts| < 5 then Rejected(data, NotEnoughAccountKeys)
    else if data.None? then Rejected(data, InvalidAccountData)
    else
      var l := data.value;
      var sender, receiver, executor := accounts[1].key, accounts[2].key, accounts[3].key;
      if sender !in l.consumer then Rejected(data, InvalidInstructionData)
      else if nonce != l.GetNextNonce(sender) then Rejected(data, InvalidNonce.ToProgramError())
      else if l.IsNonceUsed(sender, nonce) then Rejected(data, ReplayAttack.ToProgramError())
      else
        var fee := l.CalculateFee(amount);
        var currentBalance := l.consumer[sender];
        if currentBalance < fee then Rejected(data, InsufficientBalance.ToProgramError())
        else
          var invoked := Some(Transfer(sender, receiver, amount));
          if transfer.Failed? then Outcome(Failure(transfer.error), data, invoked)
          else
            var l1 := l.RecordTransactionExecutor(sender, nonce, executor);
            if l1.GetNextNonce(sender) == U64_MAX then Outcome(Aborted, data, invoked)
            else
              var l2 := l1.IncrementNonce(sender);
              if executor in l2.executor && l2.executor[executor] + fee > U64_MAX then
                Outcome(Aborted, data, invoked)
              else
                var l3 :=
                  if executor in l2.executor then
                    l2.(executor := OrInsert(l2.executor, executor, l2.executor[executor] + fee))
                  else l2.AddExecutor(executor, fee);
                var l4 := l3.(consumer := OrInsert(l3.consumer, sender, currentBalance - fee));
                Commit(data, l4, capacityOk, invoked)
  }

  /** The fee mode an UpdateFeeParams instruction asks for: type 0 is a fixed fee,
      type 1 a percentage of at most 10000 basis points, anything else InvalidFeeMode. */
  function FeeModeOf(args: UpdateFeeParamsArgs): (r: Result<FeeMode>)
    ensures r.Ok? <==> args.feeModeType == 0 || (args.feeModeType == 1 && args.feeValue <= BASIS_POINTS)
    ensures r.Ok? && args.feeModeType == 0 ==> r.value == Fixed(args.feeValue)
    ensures r.Ok? && args.feeModeType == 1 ==>
              r.value.Percent? && r.value.basisPoints == args.feeValue <= BASIS_POINTS
    ensures r.Err? ==> r.error == InvalidFeeMode.ToProgramError()
  {
    if args.feeModeType == 0 then Ok(Fixed(args.feeValue))
    else if args.feeModeType == 1 then
      if args.feeValue > BASIS_POINTS then Err(InvalidFeeMode.ToProgramError())
      else Ok(Percent(args.feeValue))
    else Err(InvalidFeeMode.ToProgramError())
  }

  /** The guards the three governance instructions share, in order: the second account
      must sign (checked before the record is read), the record must decode, and the
      signer must be the governance authority. */
  function AuthorizedLedger(accounts: seq<AccountInfo>, data: Option<Ledger>): (r: Result<Ledger>)
    ensures r.Ok? <==>
              |accounts| >= 2 && accounts[1].isSigner && data.Some? && data.value.IsAuthority(accounts[1].key)
    ensures r.Ok? ==> r.value == data.value && r.value.governance.Some?
    ensures |accounts| < 2 ==> r == Err(NotEnoughAccountKeys)
    ensures |accounts| >= 2 && !accounts[1].isSigner ==> r == Err(Unauthorized.ToProgramError())
    ensures |accounts| >= 2 && accounts[1].isSigner && data.None? ==> r == Err(InvalidAccountData)
    ensures |accounts| >= 2 && accounts[1].isSigner && data.Some? && !data.value.IsAuthority(accounts[1].key) ==>
              r == Err(Unauthorized.ToProgramError())
  {
    if |accounts| < 2 then Err(NotEnoughAccountKeys)
    else if !accounts[1].isSigner then Err(Unauthorized.ToProgramError())
    else if data.None? then Err(InvalidAccountData)
    else if !data.value.IsAuthority(accounts[1].key) then Err(Unauthorized.ToProgramError())
    else Ok(data.value)
  }

  /** Accounts: [ledger, authority]. Only the fee mode changes. */
  function UpdateFeeParamsStep(args: UpdateFeeParamsArgs, accounts: seq<AccountInfo>, data: Option<Ledger>,
                               capacityOk: bool): (o: Outcome)
    ensures o.invoked == None
    ensures !o.result.Success? ==> o.data == data
    ensures AuthorizedLedger(accounts, data).Err? ==> o == Rejected(data, AuthorizedLedger(accounts, data).error)
    ensures AuthorizedLedger(accounts, data).Ok? && FeeModeOf(args).Err? ==>
              o == Rejected(data, InvalidFeeMode.ToProgramError())
    ensures o.result.Success? <==> AuthorizedLedger(accounts, data).Ok? && FeeModeOf(args).Ok? && capacityOk
    ensures o.result.Success? ==>
              o.data.Some? &&
              var l, l' := data.value, o.data.value;
              l'.governance == Some(l.governance.value.(feeMode := FeeModeOf(args).value)) &&
              l' == l.(governance := l'.governance)
  {
    match AuthorizedLedger(accounts, data)
    case Err(e) => Rejected(data, e)
    case Ok(l) =>
      match FeeModeOf(args)
      case Err(e) => Rejected(data, e)
      case Ok(mode) => Commit(data, l.UpdateFeeParams(mode), capacityOk, None)
  }

  /** Accounts: [ledger, authority]. Only the allow-list changes: the mint is listed. */
  function AddAllowedTokenStep(args: TokenMintArgs, accounts: seq<AccountInfo>, data: Option<Ledger>,
                               capacityOk: bool): (o: Outcome)
    ensures o.invoked == None
    ensures !o.result.Success? ==> o.data == data
    ensures AuthorizedLedger(accounts, data).Err? ==> o == Rejected(data, AuthorizedLedger(accounts, data).error)
    ensures o.result.Success? <==> AuthorizedLedger(accounts, data).Ok? && capacityOk
    ensures o.result.Success? ==>
              o.data.Some? &&
              var l, l' := data.value, o.data.value;
              l'.governance.Some? && l'.IsTokenAllowed(args.mint) &&
              l'.governance.value.allowedTokens == l.governance.value.allowedTokens[args.mint := true] &&
              l' == l.(governance := Some(l.governance.value.(allowedTokens := l'.governance.value.allowedTokens)))
  {
    match AuthorizedLedger(accounts, data)
    case Err(e) => Rejected(data, e)
    case Ok(l) => Commit(data, l.AddAllowedToken(args.mint), capacityOk, None)
  }

  /** Accounts: [ledger, authority]. Only the allow-list changes: the mint is unlisted. */
  function RemoveAllowedTokenStep(args: TokenMintArgs, accounts: seq<AccountInfo>, data: Option<Ledger>,
                                  capacityOk: bool): (o: Outcome)
    ensures o.invoked == None
    ensures !o.result.Success? ==> o.data == data
    ensures AuthorizedLedger(accounts, data).Err? ==> o == Rejected(data, AuthorizedLedger(accounts, data).error)
    ensures o.result.Success? <==> AuthorizedLedger(accounts, data).Ok? && capacityOk
    ensures o.result.Success? ==>
              o.data.Some? &&
              var l, l' := data.value, o.data.value;
              l'.governance.Some? && args.mint !in l'.governance.value.allowedTokens &&
              l'.governance.value.allowedTokens == l.governance.value.allowedTokens - {args.mint} &&
              l' == l.(governance := Some(l.governance.value.(allowedTokens := l'.governance.value.allowedTokens)))
  {
    match AuthorizedLedger(accounts, data)
    case Err(e) => Rejected(data, e)
    case Ok(l) => Commit(data, l.RemoveAllowedToken(args.mint), capacityOk, None)
  }

  /** The executor's unclaimed fees, 0 when it has no entry. */
  function Earned(l: Ledger, e: Pubkey): (earned: u64)
    ensures e in l.executor ==> earned == l.executor[e]
    ensures earned == 0 <==> e !in l.executor || l.executor[e] == 0
  {
    if e in l.executor then l.executor[e] else 0
  }

  /** Accounts: [ledger, executor, destination, system program]. The executor must sign
      and be its own destination (both checked before the record is read); the whole
      balance moves from the ledger account, and on success the entry is reset to 0. */
  function ClaimFeesStep(accounts: seq<AccountInfo>, data: Option<Ledger>, transfer: TransferResult,
                         capacityOk: bool): (o: Outcome)
    ensures !o.result.Success? ==> o.data == data
    ensures |accounts| < 4 ==> o == Rejected(data, NotEnoughAccountKeys)
    ensures |accounts| >= 4 && (!accounts[1].isSigner || accounts[1].key != accounts[2].key) ==>
              o == Rejected(data, UnauthorizedFeeClaim.ToProgramError())
    ensures |accounts| >= 4 && accounts[1].isSigner && accounts[1].key == accounts[2].key && data.None? ==>
              o == Rejected(data, InvalidAccountData)
    ensures |accounts| >= 4 && accounts[1].isSigner && accounts[1].key == accounts[2].key && data.Some? &&
            Earned(data.value, accounts[1].key) == 0 ==>
              o == Rejected(data, InsufficientFunds)
    ensures o.invoked.Some? ==>
              |accounts| >= 4 && accounts[1].isSigner && accounts[1].key == accounts[2].key && data.Some? &&
              o.invoked.value == Transfer(accounts[0].key, accounts[1].key, Earned(data.value, accounts[1].key)) &&
              o.invoked.value.lamports > 0
    ensures o.invoked.Some? && transfer.Failed? ==> o.result == Failure(transfer.error)
    ensures |accounts| >= 4 && accounts[1].isSigner && accounts[1].key == accounts[2].key && data.Some? &&
            Earned(data.value, accounts[1].key) > 0 ==>
              o.invoked == Some(Transfer(accounts[0].key, accounts[1].key, Earned(data.value, accounts[1].key))) &&
              (transfer.Completed? ==> (o.result.Success? <==> capacityOk))
    ensures o.result.Success? ==>
              o.invoked.Some? && transfer.Completed? && o.data.Some? &&
              var l, l', e := data.value, o.data.value, accounts[1].key;
              e in l.executor && l'.executor == l.executor[e := 0] && l' == l.(executor := l'.executor)
  {
    if |accounts| < 4 then Rejected(data, NotEnoughAccountKeys)
    else
      var ledgerKey, executor, destination := accounts[0].key, accounts[1], accounts[2];
      if !executor.isSigner then Rejected(data, UnauthorizedFeeClaim.ToProgramError())
      else if executor.key != destination.key then Rejected(data, UnauthorizedFeeClaim.ToProgramError())
      else if data.None? then Rejected(data, InvalidAccountData)
      else
        var l := data.value;
        var earned := Earned(l, executor.key);
        if earned == 0 then Rejected(data, InsufficientFunds)
        else
          var invoked := Some(Transfer(ledgerKey, destination.key, earned));
          if transfer.Failed? then Outcome(Failure(transfer.error), data, invoked)
          else Commit(data, l.(executor := l.executor[executor.key := 0]), capacityOk, invoked)
  }

  /** `Processor::process`: decode the instruction, then run its handler. */
  function ProcessStep(accounts: seq<AccountInfo>, input: seq<u8>, data: Option<Ledger>,
                       transfer: TransferResult, capacityOk: bool): (o: Outcome)
    ensures !o.result.Success? ==> o.data == data
    ensures Deserialize(input).Err? ==> o == Rejected(data, InvalidAccountData)
    ensures Deserialize(input) == Ok(Initialize) ==> o == InitializeStep(accounts, data, capacityOk)
    ensures forall a :: Deserialize(input) == Ok(Topup(a)) ==> o == TopupStep(a.amount, accounts, data, capacityOk)
    ensures forall a :: Deserialize(input) == Ok(SubmitTransaction(a)) ==>
              o == SubmitStep(a.amount, a.nonce, accounts, data, transfer, capacityOk)
    ensures forall a :: Deserialize(input) == Ok(UpdateFeeParams(a)) ==>
              o == UpdateFeeParamsStep(a, accounts, data, capacityOk)
    ensures forall a :: Deserialize(input) == Ok(AddAllowedToken(a)) ==>
              o == AddAllowedTokenStep(a, accounts, data, capacityOk)
    ensures forall a :: Deserialize(input) == Ok(RemoveAllowedToken(a)) ==>
              o == RemoveAllowedTokenStep(a, accounts, data, capacityOk)
    ensures Deserialize(input) == Ok(ClaimFees) ==> o == ClaimFeesStep(accounts, data, transfer, capacityOk)
  {
    match Deserialize(input)
    case Err(e) => Rejected(data, e)
    case Ok(instruction) =>
      match instruction
      case Initialize => InitializeStep(accounts, data, capacityOk)
      case Topup(args) => TopupStep(args.amount, accounts, data, capacityOk)
      case SubmitTransaction(args) => SubmitStep(args.amount, args.nonce, accounts, data, transfer, capacityOk)
      case UpdateFeeParams(args) => UpdateFeeParamsStep(args, accounts, data, capacityOk)
      case AddAllowedToken(args) => AddAllowedTokenStep(args, accounts, data, capacityOk)
      case RemoveAllowedToken(args) => RemoveAllowedTokenStep(args, accounts, data, capacityOk)
      case ClaimFees => ClaimFeesStep(accounts, data, transfer, capacityOk)
  }

  // The handlers, updating the decoded record in place and writing it back.

  method ProcessInitialize(accounts: seq<AccountInfo>, ledger: LedgerAccount, capacityOk: bool)
    returns (r: ProgramResult)
    modifies ledger
    ensures Outcome(r, ledger.data, None) == InitializeStep(accounts, old(ledger.data), capacityOk)
  {
    if |accounts| < 1 {
      return Failure(NotEnoughAccountKeys);
    }
    var gsn := new GsnInfo.New();
    if |accounts| >= 2 {
      var auth := accounts[1];
      if !auth.isSigner {
        return Failure(Unauthorized.ToProgramError());
      }
      gsn.InitializeGovernance(auth.key);
    }
    r := gsn.Serialize(ledger, capacityOk);
  }

  method ProcessTopup(amount: u64, accounts: seq<AccountInfo>, ledger: LedgerAccount, capacityOk: bool)
    returns (r: ProgramResult)
    modifies ledger
    ensures Outcome(r, ledger.data, None) == TopupStep(amount, accounts, old(ledger.data), capacityOk)
  {
    if |accounts| < 2 {
      return Failure(NotEnoughAccountKeys);
    }
    var consumerInfo := accounts[1];
    var decoded := GsnInfo.Deserialize(ledger);
    if decoded.Err? {
      return Failure(decoded.error);
    }
    var gsn := decoded.value;
    var key := consumerInfo.key;
    if key in gsn.consumer {
      var currentTopup := gsn.consumer[key];
      if currentTopup + amount > U64_MAX {
        return Aborted;
      }
      var val := currentTopup + amount;
      gsn.consumer := OrInsert(gsn.consumer, key, val);
    } else {
      var added := gsn.AddConsumer(key, amount);
    }
    r := gsn.Serialize(ledger, capacityOk);
  }

  method ProcessSubmitTx(amount: u64, nonce: u64, accounts: seq<AccountInfo>, ledger: LedgerAccount,
                         transfer: TransferResult, capacityOk: bool)
    returns (r: ProgramResult, invoked: Option<Transfer>)
    modifies ledger
    ensures Outcome(r, ledger.data, invoked) ==
            SubmitStep(amount, nonce, accounts, old(ledger.data), transfer, capacityOk)
  {
    invoked := None;
    if |accounts| < 5 {
      return Failure(NotEnoughAccountKeys), invoked;
    }
    var senderInfo, receiverInfo, feePayerInfo := accounts[1], accounts[2], accounts[3];
    var decoded := GsnInfo.Deserialize(ledger);
    if decoded.Err? {
      return Failure(decoded.error), invoked;
    }
    var gsn := decoded.value;
    var senderKey := senderInfo.key;
    if senderKey !in gsn.consumer {
      return Failure(InvalidInstructionData), invoked;
    }
    var expectedNonce := gsn.Value().GetNextNonce(senderKey);
    if nonce != expectedNonce {
      return Failure(InvalidNonce.ToProgramError()), invoked;
    }
    if gsn.Value().IsNonceUsed(senderKey, nonce) {
      return Failure(ReplayAttack.ToProgramError()), invoked;
    }
    var fee := gsn.Value().CalculateFee(amount);
    var currentBalance := gsn.consumer[senderKey];
    if currentBalance < fee {
      return Failure(InsufficientBalance.ToProgramError()), invoked;
    }
    invoked := Some(Transfer(senderKey, receiverInfo.key, amount));
    if transfer.Failed? {
      return Failure(transfer.error), invoked;
    }
    gsn.RecordTransactionExecutor(senderKey, nonce, feePayerInfo.key);
    if gsn.Value().GetNextNonce(senderKey) == U64_MAX {
      return Aborted, invoked;
    }
    var next := gsn.IncrementNonce(senderKey);
    var executorKey := feePayerInfo.key;
    if executorKey in gsn.executor {
      var earnedAmount := gsn.executor[executorKey];
      if earnedAmount + fee > U64_MAX {
        return Aborted, invoked;
      }
      var val := earnedAmount + fee;
      gsn.executor := OrInsert(gsn.executor, executorKey, val);
    } else {
      var added := gsn.AddExecutor(executorKey, fee);
    }
    var val := currentBalance - fee;
    gsn.consumer := OrInsert(gsn.consumer, senderKey, val);
    r := gsn.Serialize(ledger, capacityOk);
  }

  /** The three governance handlers share their guards. */
  method Authorize(accounts: seq<AccountInfo>, ledger: LedgerAccount) returns (r: Result<GsnInfo>)
    ensures r.Ok? ==> fresh(r.value) && AuthorizedLedger(accounts, ledger.data) == Ok(r.value.Value())
    ensures r.Err? ==> AuthorizedLedger(accounts, ledger.data) == Err(r.error)
  {
    if |accounts| < 2 {
      return Err(NotEnoughAccountKeys);
    }
    var authorityInfo := accounts[1];
    if !authorityInfo.isSigner {
      return Err(Unauthorized.ToProgramError());
    }
    var decoded := GsnInfo.Deserialize(ledger);
    if decoded.Err? {
      return Err(decoded.error);
    }
    var gsn := decoded.value;
    if !gsn.Value().IsAuthority(authorityInfo.key) {
      return Err(Unauthorized.ToProgramError());
    }
    return Ok(gsn);
  }

  method ProcessUpdateFeeParams(args: UpdateFeeParamsArgs, accounts: seq<AccountInfo>, ledger: LedgerAccount,
                                capacityOk: bool)
    returns (r: ProgramResult)
    modifies ledger
    ensures Outcome(r, ledger.data, None) == UpdateFeeParamsStep(args, accounts, old(ledger.data), capacityOk)
  {
    var authorized := Authorize(accounts, ledger);
    if authorized.Err? {
      return Failure(authorized.error);
    }
    var gsn := authorized.value;
    var feeMode: FeeMode;
    if args.feeModeType == 0 {
      feeMode := Fixed(args.feeValue);
    } else if args.feeModeType == 1 {
      if args.feeValue > BASIS_POINTS {
        return Failure(InvalidFeeMode.ToProgramError());
      }
      feeMode := Percent(args.feeValue);
    } else {
      return Failure(InvalidFeeMode.ToProgramError());
    }
    gsn.UpdateFeeParams(feeMode);
    r := gsn.Serialize(ledger, capacityOk);
  }

  method ProcessAddAllowedToken(args: TokenMintArgs, accounts: seq<AccountInfo>, ledger: LedgerAccount,
                                capacityOk: bool)
    returns (r: ProgramResult)
    modifies ledger
    ensures Outcome(r, ledger.data, None) == AddAllowedTokenStep(args, accounts, old(ledger.data), capacityOk)
  {
    var authorized := Authorize(accounts, ledger);
    if authorized.Err? {
      return Failure(authorized.error);
    }
    var gsn := authorized.value;
    gsn.AddAllowedToken(args.mint);
    r := gsn.Serialize(ledger, capacityOk);
  }

  method ProcessRemoveAllowedToken(args: TokenMintArgs, accounts: seq<AccountInfo>, ledger: LedgerAccount,
                                   capacityOk: bool)
    returns (r: ProgramResult)
    modifies ledger
    ensures Outcome(r, ledger.data, None) == RemoveAllowedTokenStep(args, accounts, old(ledger.data), capacityOk)
  {
    var authorized := Authorize(accounts, ledger);
    if authorized.Err? {
      return Failure(authorized.error);
    }
    var gsn := authorized.value;
    gsn.RemoveAllowedToken(args.mint);
    r := gsn.Serialize(ledger, capacityOk);
  }

  method ProcessClaimFees(accounts: seq<AccountInfo>, ledger: LedgerAccount, transfer: TransferResult,
                          capacityOk: bool)
    returns (r: ProgramResult, invoked: Option<Transfer>)
    modifies ledger
    ensures Outcome(r, ledger.data, invoked) == ClaimFeesStep(accounts, old(ledger.data), transfer, capacityOk)
  {
    invoked := None;
    if |accounts| < 4 {
      return Failure(NotEnoughAccountKeys), invoked;
    }
    var gsnProgramInfo, executorInfo, destinationInfo := accounts[0], accounts[1], accounts[2];
    if !executorInfo.isSigner {
      return Failure(UnauthorizedFeeClaim.ToProgramError()), invoked;
    }
    var executorKey := executorInfo.key;
    if executorKey != destinationInfo.key {
      return Failure(UnauthorizedFeeClaim.ToProgramError()), invoked;
    }
    var decoded := GsnInfo.Deserialize(ledger);
    if decoded.Err? {
      return Failure(decoded.error), invoked;
    }
    var gsn := decoded.value;
    var earnedFees := if executorKey in gsn.executor then gsn.executor[executorKey] else 0;
    if earnedFees == 0 {
      return Failure(InsufficientFunds), invoked;
    }
    invoked := Some(Transfer(gsnProgramInfo.key, destinationInfo.key, earnedFees));
    if transfer.Failed? {
      return Failure(transfer.error), invoked;
    }
    gsn.executor := gsn.executor[executorKey := 0];
    r := gsn.Serialize(ledger, capacityOk);
  }

  /** `Processor::process`. */
  method Process(accounts: seq<AccountInfo>, input: seq<u8>, ledger: LedgerAccount, transfer: TransferResult,
                 capacityOk: bool)
    returns (r: ProgramResult, invoked: Option<Transfer>)
    modifies ledger
    ensures Outcome(r, ledger.data, invoked) == ProcessStep(accounts, input, old(ledger.data), transfer, capacityOk)
  {
    var instruction := Deserialize(input);
    if instruction.Err? {
      return Failure(instruction.error), None;
    }
    invoked := None;
    match instruction.value
    case Initialize =>
      r := ProcessInitialize(accounts, ledger, capacityOk);
    case Topup(args) =>
      r := ProcessTopup(args.amount, accounts, ledger, capacityOk);
    case SubmitTransaction(args) =>
      r, invoked := ProcessSubmitTx(args.amount, args.nonce, accounts, ledger, transfer, capacityOk);
    case UpdateFeeParams(args) =>
      r := ProcessUpdateFeeParams(args, accounts, ledger, capacityOk);
    case AddAllowedToken(args) =>
      r := ProcessAddAllowedToken(args, accounts, ledger, capacityOk);
    case RemoveAllowedToken(args) =>
      r := ProcessRemoveAllowedToken(args, accounts, ledger, capacityOk);
    case ClaimFees =>
      r, invoked := ProcessClaimFees(accounts, ledger, transfer, capacityOk);
  }
}
