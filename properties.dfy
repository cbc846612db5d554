/** Properties of the ledger across instructions: the invariant every handler keeps,
    nonce accounting over a run of instructions, the write-once audit map, the error
    codes the program itself can produce, and what the `or_insert` updates really do. */
module Properties {
  import opened Common
  import opened Errors
  import opened Instruction
  import opened State
  import opened Processor

  /** Every reachable record: a percentage fee is at most 100%, and every audit entry
      is for a nonce its consumer has already used. */
  ghost predicate Consistent(l: Ledger)
  {
    (l.governance.Some? && l.governance.value.feeMode.Percent? ==>
       l.governance.value.feeMode.basisPoints <= BASIS_POINTS) &&
    forall k :: k in l.transactionExecutor ==> k.1 < l.GetNextNonce(k.0)
  }

  ghost predicate ConsistentData(data: Option<Ledger>)
  {
    data.Some? ==> Consistent(data.value)
  }

  /** On a reachable record the relay fee never exceeds a percentage-priced transfer. */
  lemma PercentFeeWithinAmount(l: Ledger, amount: u64)
    requires Consistent(l) && l.governance.Some? && l.governance.value.feeMode.Percent?
    ensures l.CalculateFee(amount) <= amount
  {
  }

  /** Without governance a fee update is ignored: a fresh record keeps charging the
      default fee, not the fixed fee just requested. */
  lemma FeeUpdateNeedsGovernance(mode: FeeMode, amount: u64)
    ensures Ledger.New().UpdateFeeParams(mode).CalculateFee(amount) == DEFAULT_FEE
  {
  }

  /** The state API itself accepts any `u16` of basis points; above 10000 the 128-bit
      product divided by 10000 can exceed 64 bits, and then the cast truncates it. */
  lemma PercentFeeTruncatesAboveWhole()
    ensures var l := Ledger.New().InitializeGovernance(seq(32, _ => 1)).UpdateFeeParams(Percent(65535));
            l.CalculateFee(U64_MAX) != U64_MAX * 65535 / BASIS_POINTS &&
            l.CalculateFee(U64_MAX) == 10210272844798236812
  {
  }

  lemma SubmitKeepsConsistent(amount: u64, nonce: u64, accounts: seq<AccountInfo>, data: Option<Ledger>,
                              transfer: TransferResult, capacityOk: bool)
    requires ConsistentData(data)
    ensures ConsistentData(SubmitStep(amount, nonce, accounts, data, transfer, capacityOk).data)
  {
    var o := SubmitStep(amount, nonce, accounts, data, transfer, capacityOk);
    if o.result.Success? {
      var l, l', s := data.value, o.data.value, accounts[1].key;
      forall k | k in l'.transactionExecutor
        ensures k.1 < l'.GetNextNonce(k.0)
      {
        if k != (s, nonce) {
          assert l.GetTransactionExecutor(k.0, k.1) == l'.GetTransactionExecutor(k.0, k.1);
          if k.0 != s {
            assert l'.GetNextNonce(k.0) == l.GetNextNonce(k.0);
          }
        }
      }
    }
  }

  /** Every instruction, whatever the host does, keeps the ledger consistent. */
  lemma {:induction false} ProcessKeepsConsistent(accounts: seq<AccountInfo>, input: seq<u8>, data: Option<Ledger>,
                                                  transfer: TransferResult, capacityOk: bool)
    requires ConsistentData(data)
    ensures ConsistentData(ProcessStep(accounts, input, data, transfer, capacityOk).data)
  {
    var o := ProcessStep(accounts, input, data, transfer, capacityOk);
    if o.data != data && Deserialize(input).Ok? {
      match Deserialize(input).value
      case SubmitTransaction(args) =>
        SubmitKeepsConsistent(args.amount, args.nonce, accounts, data, transfer, capacityOk);
      case UpdateFeeParams(args) =>
        assert o.data.value.governance.value.feeMode == FeeModeOf(args).value;
      case _ =>
    }
  }

  /** A successful relay records its executor under a (consumer, nonce) that had no
      entry, and every earlier entry survives unchanged: the audit map is write-once. */
  lemma SubmitAuditWriteOnce(amount: u64, nonce: u64, accounts: seq<AccountInfo>, l: Ledger,
                             transfer: TransferResult, capacityOk: bool)
    requires Consistent(l)
    requires SubmitStep(amount, nonce, accounts, Some(l), transfer, capacityOk).result.Success?
    ensures var l' := SubmitStep(amount, nonce, accounts, Some(l), transfer, capacityOk).data.value;
            (accounts[1].key, nonce) !in l.transactionExecutor &&
            l'.transactionExecutor == l.transactionExecutor[(accounts[1].key, nonce) := accounts[3].key]
  {
    var l' := SubmitStep(amount, nonce, accounts, Some(l), transfer, capacityOk).data.value;
    var s := accounts[1].key;
    forall k | true
      ensures (k in l'.transactionExecutor) == (k in l.transactionExecutor[(s, nonce) := accounts[3].key])
      ensures k in l'.transactionExecutor ==>
                l'.transactionExecutor[k] == l.transactionExecutor[(s, nonce) := accounts[3].key][k]
    {
      assert l'.GetTransactionExecutor(k.0, k.1) == if k == (s, nonce) then Some(accounts[3].key)
                                                     else l.GetTransactionExecutor(k.0, k.1);
    }
  }

  /** One call of the program against the ledger account, with the host's answers. */
  datatype Call = Call(accounts: seq<AccountInfo>, input: seq<u8>, transfer: TransferResult, capacityOk: bool)

  function Apply(data: Option<Ledger>, call: Call): Outcome
  {
    ProcessStep(call.accounts, call.input, data, call.transfer, call.capacityOk)
  }

  /** The ledger account's data after a run of calls. */
  function Run(data: Option<Ledger>, calls: seq<Call>): Option<Ledger>
    decreases |calls|
  {
    if |calls| == 0 then data else Run(Apply(data, calls[0]).data, calls[1..])
  }

  /** The next nonce of `c` in the account's data, 0 when it does not decode. */
  function NonceOf(data: Option<Ledger>, c: Pubkey): nat
  {
    if data.None? then 0 else data.value.GetNextNonce(c)
  }

  /** The call is a SubmitTransaction from `c` that succeeds. */
  predicate IsRelayBy(data: Option<Ledger>, call: Call, c: Pubkey)
  {
    Deserialize(call.input).Ok? && Deserialize(call.input).value.SubmitTransaction? &&
    |call.accounts| >= 5 && call.accounts[1].key == c && Apply(data, call).result.Success?
  }

  /** How many calls of the run are successful relays by `c`. */
  function RelaysBy(data: Option<Ledger>, calls: seq<Call>, c: Pubkey): nat
    decreases |calls|
  {
    if |calls| == 0 then 0
    else (if IsRelayBy(data, calls[0], c) then 1 else 0) + RelaysBy(Apply(data, calls[0]).data, calls[1..], c)
  }

  predicate IsInitialize(call: Call)
  {
    Deserialize(call.input) == Ok(Initialize)
  }

  /** Apart from Initialize, a call moves `c`'s nonce by exactly one when it is a
      successful relay by `c`, and leaves it alone otherwise. */
  lemma {:induction false} ApplyNonce(data: Option<Ledger>, call: Call, c: Pubkey)
    requires !IsInitialize(call)
    ensures NonceOf(Apply(data, call).data, c) == NonceOf(data, c) + (if IsRelayBy(data, call, c) then 1 else 0)
  {
    var o := Apply(data, call);
    if o.result.Success? {
      match Deserialize(call.input).value
      case Topup(args) =>
      case SubmitTransaction(args) =>
        if call.accounts[1].key != c {
          assert o.data.value.GetNextNonce(c) == data.value.GetNextNonce(c);
        }
      case UpdateFeeParams(args) =>
      case AddAllowedToken(args) =>
      case RemoveAllowedToken(args) =>
      case ClaimFees =>
    }
  }

  /** Over any run without Initialize, each consumer's nonce never decreases and rises by
      exactly the number of its successful relays. */
  lemma {:induction false} RunNonce(data: Option<Ledger>, calls: seq<Call>, c: Pubkey)
    requires forall j :: 0 <= j < |calls| ==> !IsInitialize(calls[j])
    ensures NonceOf(Run(data, calls), c) == NonceOf(data, c) + RelaysBy(data, calls, c)
    ensures NonceOf(Run(data, calls), c) >= NonceOf(data, c)
    decreases |calls|
  {
    if |calls| > 0 {
      ApplyNonce(data, calls[0], c);
      RunNonce(Apply(data, calls[0]).data, calls[1..], c);
    }
  }

  /** Every run from a consistent account keeps it consistent. */
  lemma {:induction false} RunKeepsConsistent(data: Option<Ledger>, calls: seq<Call>)
    requires ConsistentData(data)
    ensures ConsistentData(Run(data, calls))
    decreases |calls|
  {
    if |calls| > 0 {
      ProcessKeepsConsistent(calls[0].accounts, calls[0].input, data, calls[0].transfer, calls[0].capacityOk);
      RunKeepsConsistent(Apply(data, calls[0]).data, calls[1..]);
    }
  }

  /** Initialize does not look at the account's data, so on an account already in use it
      succeeds and wipes the ledger: every consumer's nonce goes back to 0. */
  lemma InitializeResetsNonces(accounts: seq<AccountInfo>, data: Option<Ledger>, c: Pubkey)
    requires |accounts| == 1
    ensures var o := InitializeStep(accounts, data, true);
            o.result == Success && NonceOf(o.data, c) == 0 && o.data.value.consumer == map[]
  {
  }

  /** The result is a custom error the handler raised itself, not one the host's
      transfer returned after the handler requested it. */
  predicate RaisedCustom(o: Outcome, transfer: TransferResult)
  {
    o.result.Failure? && o.result.error.Custom? &&
    !(o.invoked.Some? && transfer.Failed? && o.result.error == transfer.error)
  }

  /** Unauthorized (2), InvalidFeeMode (4), InsufficientBalance (5), InvalidNonce (7)
      and UnauthorizedFeeClaim (8). */
  predicate OwnCode(code: u32)
  {
    code == 2 || code == 4 || code == 5 || code == 7 || code == 8
  }

  /** Whatever custom error the outcome carries, the handler raised one of `OwnCode`. */
  predicate OnlyOwnCodes(o: Outcome, transfer: TransferResult)
  {
    RaisedCustom(o, transfer) ==> OwnCode(o.result.error.code)
  }

  /** The outcome is a failure with a custom error code. */
  predicate FailsWithCustom(o: Outcome)
  {
    o.result.Failure? && o.result.error.Custom?
  }

  /** Initialize's only custom error is Unauthorized (2). */
  lemma InitializeOwnErrors(accounts: seq<AccountInfo>, data: Option<Ledger>, capacityOk: bool)
    ensures var o := InitializeStep(accounts, data, capacityOk);
            FailsWithCustom(o) ==> o.result.error.code == 2
  {
  }

  /** TopUp raises no custom error at all. */
  lemma TopupOwnErrors(amount: u64, accounts: seq<AccountInfo>, data: Option<Ledger>, capacityOk: bool)
    ensures !FailsWithCustom(TopupStep(amount, accounts, data, capacityOk))
  {
  }

  /** A relay raises only InsufficientBalance (5) and InvalidNonce (7) itself; any other
      custom error is the transfer's. */
  lemma SubmitOwnErrors(amount: u64, nonce: u64, accounts: seq<AccountInfo>, data: Option<Ledger>,
                        transfer: TransferResult, capacityOk: bool)
    ensures var o := SubmitStep(amount, nonce, accounts, data, transfer, capacityOk);
            RaisedCustom(o, transfer) ==> o.result.error.code == 5 || o.result.error.code == 7
  {
  }

  /** UpdateFeeParams raises only Unauthorized (2) and InvalidFeeMode (4); the
      allow-list instructions only Unauthorized. */
  lemma GovernanceOwnErrors(args: UpdateFeeParamsArgs, mint: Pubkey, accounts: seq<AccountInfo>,
                            data: Option<Ledger>, capacityOk: bool)
    ensures var o := UpdateFeeParamsStep(args, accounts, data, capacityOk);
            FailsWithCustom(o) ==> o.result.error.code == 2 || o.result.error.code == 4
    ensures var o := AddAllowedTokenStep(TokenMintArgs(mint), accounts, data, capacityOk);
            FailsWithCustom(o) ==> o.result.error.code == 2
    ensures var o := RemoveAllowedTokenStep(TokenMintArgs(mint), accounts, data, capacityOk);
            FailsWithCustom(o) ==> o.result.error.code == 2
  {
  }

  /** A claim raises only UnauthorizedFeeClaim (8) itself; any other custom error is the
      transfer's. */
  lemma ClaimFeesOwnErrors(accounts: seq<AccountInfo>, data: Option<Ledger>, transfer: TransferResult,
                           capacityOk: bool)
    ensures var o := ClaimFeesStep(accounts, data, transfer, capacityOk);
            RaisedCustom(o, transfer) ==> o.result.error.code == 8
  {
  }

  /** The custom errors the program raises itself are only those of `OwnCode`:
      AlreadyInUse, InvalidState, GovernanceNotInitialized and ReplayAttack are never
      returned except when the host's transfer reports them. */
  lemma {:induction false} OwnCustomErrors(accounts: seq<AccountInfo>, input: seq<u8>, data: Option<Ledger>,
                                           transfer: TransferResult, capacityOk: bool)
    ensures OnlyOwnCodes(ProcessStep(accounts, input, data, transfer, capacityOk), transfer)
  {
    if Deserialize(input).Ok? {
      match Deserialize(input).value
      case Initialize =>
        InitializeOwnErrors(accounts, data, capacityOk);
      case Topup(args) =>
        TopupOwnErrors(args.amount, accounts, data, capacityOk);
      case SubmitTransaction(args) =>
        SubmitOwnErrors(args.amount, args.nonce, accounts, data, transfer, capacityOk);
      case UpdateFeeParams(args) =>
        GovernanceOwnErrors(args, seq(32, _ => 0), accounts, data, capacityOk);
      case AddAllowedToken(args) =>
        GovernanceOwnErrors(UpdateFeeParamsArgs(0, 0), args.mint, accounts, data, capacityOk);
      case RemoveAllowedToken(args) =>
        GovernanceOwnErrors(UpdateFeeParamsArgs(0, 0), args.mint, accounts, data, capacityOk);
      case ClaimFees =>
        ClaimFeesOwnErrors(accounts, data, transfer, capacityOk);
    }
  }

  // What `or_insert` does where the comments in the handlers say "add", "credit" and
  // "deduct": each lemma refutes the intended upsert.

  /** A top-up of a consumer that already has an entry succeeds and writes back the
      record unchanged: the balance is not increased by `amount`. */
  lemma TopupOfKnownConsumerKeepsBalance(amount: u64, accounts: seq<AccountInfo>, l: Ledger)
    requires |accounts| >= 2 && accounts[1].key in l.consumer
    requires l.consumer[accounts[1].key] + amount <= U64_MAX
    ensures TopupStep(amount, accounts, Some(l), true) == Outcome(Success, Some(l), None)
    ensures amount > 0 ==> TopupStep(amount, accounts, Some(l), true).data.value.consumer[accounts[1].key] !=
                           l.consumer[accounts[1].key] + amount
  {
  }

  /** A successful relay with a non-zero fee does not debit the consumer, and does not
      credit an executor that already has an entry. */
  lemma RelayDoesNotMoveKnownBalances(amount: u64, nonce: u64, accounts: seq<AccountInfo>, l: Ledger,
                                      transfer: TransferResult, capacityOk: bool)
    requires SubmitStep(amount, nonce, accounts, Some(l), transfer, capacityOk).result.Success?
    requires l.CalculateFee(amount) > 0
    ensures var l' := SubmitStep(amount, nonce, accounts, Some(l), transfer, capacityOk).data.value;
            var s, e, fee := accounts[1].key, accounts[3].key, l.CalculateFee(amount);
            l'.consumer[s] != l.consumer[s] - fee &&
            (e in l.executor ==> l'.executor[e] != l.executor[e] + fee)
  {
  }

  // The allow-list.

  /** Unlisting the only listed mint empties the list, and an empty list allows every
      mint: the restriction disappears instead of tightening. */
  lemma RemovingLastListedMintAllowsAll(l: Ledger, mint: Pubkey, other: Pubkey)
    requires l.governance.Some? && l.governance.value.allowedTokens == map[mint := true]
    ensures !l.IsTokenAllowed(other) <==> other != mint
    ensures l.RemoveAllowedToken(mint).IsTokenAllowed(other)
  {
    assert l.RemoveAllowedToken(mint).governance.value.allowedTokens == map[];
  }

  /** No handler consults the allow-list: a relay has the same outcome whatever mints
      are listed, apart from the list carried along in the record. */
  lemma RelayIgnoresAllowList(amount: u64, nonce: u64, accounts: seq<AccountInfo>, l: Ledger,
                              tokens: map<Pubkey, bool>, transfer: TransferResult, capacityOk: bool)
    requires l.governance.Some?
    ensures var l2 := l.(governance := Some(l.governance.value.(allowedTokens := tokens)));
            var o, o2 := SubmitStep(amount, nonce, accounts, Some(l), transfer, capacityOk),
                         SubmitStep(amount, nonce, accounts, Some(l2), transfer, capacityOk);
            o2.result == o.result && o2.invoked == o.invoked &&
            (o.result.Success? ==>
               o2.data == Some(o.data.value.(governance := Some(l.governance.value.(allowedTokens := tokens)))))
  {
    var l2 := l.(governance := Some(l.governance.value.(allowedTokens := tokens)));
    assert l2.CalculateFee(amount) == l.CalculateFee(amount);
    if |accounts| >= 5 {
      var s, e := accounts[1].key, accounts[3].key;
      assert l2.GetNextNonce(s) == l.GetNextNonce(s) && l2.IsNonceUsed(s, nonce) == l.IsNonceUsed(s, nonce);
      assert l2.RecordTransactionExecutor(s, nonce, e).GetNextNonce(s) ==
             l.RecordTransactionExecutor(s, nonce, e).GetNextNonce(s);
    }
  }

  // Nonces.

  /** After an increment, exactly the nonces below the new next nonce are used: the one
      just consumed and every earlier one. */
  lemma IncrementNonceMarksUsed(l: Ledger, c: Pubkey, n: u64)
    requires l.GetNextNonce(c) < U64_MAX
    ensures l.IncrementNonce(c).IsNonceUsed(c, n) <==> l.IsNonceUsed(c, n) || n == l.GetNextNonce(c)
    ensures !l.IncrementNonce(c).IsNonceUsed(c, l.GetNextNonce(c) + 1)
  {
  }

  /** Two relays' worth of increments on a fresh record: the next nonce is 2, nonces 0
      and 1 are used, 2 is not, and a skipped-ahead nonce 5 is not the expected one. */
  lemma NonceSequence(c: Pubkey)
    ensures var l := Ledger.New().IncrementNonce(c).IncrementNonce(c);
            l.GetNextNonce(c) == 2 && l.IsNonceUsed(c, 0) && l.IsNonceUsed(c, 1) &&
            !l.IsNonceUsed(c, 2) && l.GetNextNonce(c) != 5
  {
    var l1 := Ledger.New().IncrementNonce(c);
    assert l1.GetNextNonce(c) == 1;
  }

  // A run of the program: governance set up, a consumer topped up, one relay, its
  // replay and the executor's claim.

  const LEDGER: Pubkey := seq(32, _ => 1)
  const GOV: Pubkey := seq(32, _ => 2)
  const CONSUMER: Pubkey := seq(32, _ => 3)

  const InitCall := Call([AccountInfo(LEDGER, false), AccountInfo(GOV, true)], Pack(Initialize), Completed, true)
  const FixedFeeCall := Call([AccountInfo(LEDGER, false), AccountInfo(GOV, true)],
                             Pack(UpdateFeeParams(UpdateFeeParamsArgs(0, 100_000))), Completed, true)
  const StrangerFeeCall := Call([AccountInfo(LEDGER, false), AccountInfo(CONSUMER, true)],
                                Pack(UpdateFeeParams(UpdateFeeParamsArgs(1, 100))), Completed, true)
  const TopupCall := Call([AccountInfo(LEDGER, false), AccountInfo(CONSUMER, false)],
                          Pack(Topup(TopupArgs(1_000_000))), Completed, true)

  /** `DeserializePack` for an input with nothing after the instruction. */
  lemma Decodes(i: GsnInstruction)
    ensures Deserialize(Pack(i)) == Ok(i)
  {
    DeserializePack(i, []);
    assert Pack(i) + [] == Pack(i);
  }

  const L1 := Ledger.New().InitializeGovernance(GOV)
  const L2 := L1.UpdateFeeParams(Fixed(100_000))
  const L3 := L2.(consumer := map[CONSUMER := 1_000_000])

  /** Initialize with GOV as signing authority, on an account holding nothing: the fee
      is the 50000 default. */
  lemma InitializeScenario()
    ensures Apply(None, InitCall) == Outcome(Success, Some(L1), None)
    ensures L1.CalculateFee(1_000_000) == DEFAULT_FEE
  {
    Decodes(Initialize);
  }

  /** GOV sets a fixed fee of 100000; a stranger's update is refused as Unauthorized. */
  lemma GovernanceScenario()
    ensures Apply(Some(L1), FixedFeeCall) == Outcome(Success, Some(L2), None)
    ensures L2.CalculateFee(500_000) == 100_000
    ensures Apply(Some(L2), StrangerFeeCall) == Rejected(Some(L2), Unauthorized.ToProgramError())
  {
    Decodes(UpdateFeeParams(UpdateFeeParamsArgs(0, 100_000)));
    Decodes(UpdateFeeParams(UpdateFeeParamsArgs(1, 100)));
    assert GOV[0] != CONSUMER[0];
  }

  /** CONSUMER's first top-up of 1000000 creates its entry with exactly that balance. */
  lemma TopupScenario()
    ensures Apply(Some(L2), TopupCall) == Outcome(Success, Some(L3), None)
  {
    Decodes(Topup(TopupArgs(1_000_000)));
  }

  /** The relay of 500000 lamports at nonce 0 by a consumer holding 1000000, under a
      fixed fee of 100000: it succeeds, yet the consumer still holds 1000000 (no debit),
      the executor is owed 100000, the nonce is 1 and the audit names the executor. */
  lemma RelayScenario(accounts: seq<AccountInfo>, l: Ledger)
    requires |accounts| == 5
    requires l.consumer == map[accounts[1].key := 1_000_000] && l.executor == map[]
    requires l.consumerNonces == map[] && l.transactionExecutor == map[]
    requires l.governance.Some? && l.governance.value.feeMode == Fixed(100_000)
    ensures var o := SubmitStep(500_000, 0, accounts, Some(l), Completed, true);
            var c, e := accounts[1].key, accounts[3].key;
            o.result == Success && o.invoked == Some(Transfer(c, accounts[2].key, 500_000)) &&
            o.data.value.consumer[c] == 1_000_000 && o.data.value.executor == map[e := 100_000] &&
            NonceOf(o.data, c) == 1 && o.data.value.GetTransactionExecutor(c, 0) == Some(e)
  {
    assert l.CalculateFee(500_000) == 100_000;
  }

  /** Replaying nonce 0 once the next nonce is 1 is refused as InvalidNonce, not as
      ReplayAttack. */
  lemma ReplayScenario(accounts: seq<AccountInfo>, l: Ledger, amount: u64, transfer: TransferResult)
    requires |accounts| == 5 && accounts[1].key in l.consumer && l.GetNextNonce(accounts[1].key) == 1
    ensures SubmitStep(amount, 0, accounts, Some(l), transfer, true) ==
            Rejected(Some(l), InvalidNonce.ToProgramError())
  {
  }

  /** The executor that is owed 100000 claims it to itself: the ledger account pays
      100000 and the entry drops to 0. A claim to any other destination is refused. */
  lemma ClaimScenario(accounts: seq<AccountInfo>, l: Ledger)
    requires |accounts| == 4 && accounts[1].isSigner && accounts[2].key == accounts[1].key
    requires l.executor == map[accounts[1].key := 100_000]
    ensures var o := ClaimFeesStep(accounts, Some(l), Completed, true);
            o.result == Success && o.invoked == Some(Transfer(accounts[0].key, accounts[1].key, 100_000)) &&
            o.data.value.executor == map[accounts[1].key := 0]
    ensures forall d: Pubkey :: d != accounts[1].key ==>
              ClaimFeesStep(accounts[2 := AccountInfo(d, false)], Some(l), Completed, true) ==
              Rejected(Some(l), UnauthorizedFeeClaim.ToProgramError())
  {
  }
}
