# SolGSN relay-fee ledger, modelled in Dafny

SolGSN is a Solana program that relays transactions for consumers and pays the
relaying executor a fee. Consumers top up a balance held in one ledger account. An
executor submits a consumer's transfer with the consumer's next nonce. The program
checks the nonce and that the balance covers the fee, asks the runtime for the transfer,
records which executor relayed that (consumer, nonce), advances the nonce and credits
the executor. Executors later claim their earned fees. An optional governance authority
sets the fee mode (a fixed number of lamports or basis points of the amount) and keeps a
token allow-list.

The model is laid out in six files, following the source modules:

- `common.dfy` (module `Common`): machine integers, 32-byte account keys, `Option`, and
  `OrInsert`, which is Rust's `entry(k).or_insert(v)`.
- `errors.dfy` (module `Errors`): `GsnError`, its conversion to `ProgramError::Custom`
  and back, and the host's result type. An unchecked-overflow panic is the explicit
  result `Aborted`.
- `instruction.dfy` (module `Instruction`): the instruction decoder. It reads an opcode
  byte and a fixed `repr(C)` payload in little-endian order. `Pack` is the layout a
  client writes; it states the decoder's round trip in both directions.
- `state.dfy` (module `State`): the persisted record as a value, `Ledger`, with every
  query and update of `GsnInfo` as a function. `GsnInfo` is also a class with the same
  fields, whose methods update it in place and are proved to agree with those functions.
  `LedgerAccount` is the account buffer, abstracted to the record it decodes to.
- `processor.dfy` (module `Processor`): one `*Step` function per handler states what the
  handler does to the ledger account. Its result is an `Outcome`: the instruction's
  result, the account's data afterwards, and the transfer requested from the runtime. The
  imperative `Process*` methods decode a `GsnInfo`, update it in place and write it back.
  Each is proved equal to its step function.
- `properties.dfy` (module `Properties`): facts across instructions. These are an
  invariant every instruction keeps, nonce accounting over a run of instructions, the
  write-once audit map, the custom error codes the program raises itself, what the
  `or_insert` updates really do, and a worked run.

The model follows the code, including where the code does not do what its comments
and design intend:

- The balance updates use `or_insert`. A top-up of an existing consumer leaves its
  balance unchanged, and a relay credits an executor only on its first fee. The
  consumer is never debited.
- The `ReplayAttack` check can never fire, because the nonce must already equal the next
  nonce. A replayed nonce is refused as `InvalidNonce`.
- `AlreadyInUse`, `InvalidState` and `GovernanceNotInitialized` are never returned.
  `Initialize` does not look at the account's data, so it re-initialises a ledger in
  use and resets every nonce.
- A fee update without governance does nothing.
- The allow-list is kept but no handler consults it.

## Model

| member | source | states |
|---|---|---|
| Errors.GsnError.ToProgramError | src/program-rust/src/error.rs:36-40 | the error becomes `Custom(code)`, and the derived decoding of `code` gives the same variant back |
| Errors.GsnError.Discriminant | src/program-rust/src/error.rs:36-40 | `e as u32` is the variant's position in declaration order, at most 8, and decodes back to the variant |
| Errors.FromPrimitive | src/program-rust/src/error.rs:6-34 | a code decodes to a variant exactly when it is at most 8 |
| Errors.FromPrimitiveInverse | src/program-rust/src/error.rs:6-34 | each accepted code is the discriminant of the variant it decodes to |
| Errors.ToProgramErrorInjective | src/program-rust/src/error.rs:36-40 | distinct variants become distinct `ProgramError`s |
| Instruction.GsnInstruction.Tag | src/program-rust/src/instruction.rs:40-50 | every instruction has an opcode between 0 and 6 |
| Instruction.PayloadSize | src/program-rust/src/instruction.rs:6-38 | the `repr(C)` size of each opcode's argument struct: none for opcodes 0 and 6, a multiple of 8 up to 32, and 16 for UpdateFeeParams (1 byte, 7 padding bytes, 8 bytes) |
| Instruction.LittleEndian | src/program-rust/src/instruction.rs:86-93 | a little-endian byte string of length n denotes a number below 256^n |
| Instruction.ToLittleEndian | src/program-rust/src/instruction.rs:86-93 | encoding a number below 256^n gives n bytes that decode back to it |
| Instruction.ToLittleEndianOfLittleEndian | src/program-rust/src/instruction.rs:86-93 | decoding and re-encoding any byte string gives it back |
| Instruction.ReadU64 | src/program-rust/src/instruction.rs:86-93 | the `u64` read at an offset is the one whose eight bytes are the input's bytes there |
| Instruction.Unpack | src/program-rust/src/instruction.rs:86-93 | the payload is the `size` bytes after the opcode; an input shorter than opcode plus payload gives InvalidAccountData; longer input is accepted |
| Instruction.Deserialize | src/program-rust/src/instruction.rs:53-82 | decoding succeeds exactly when the input is non-empty, the opcode is at most 6 and the payload fits; the result carries that opcode; every failure is InvalidAccountData |
| Instruction.DeserializePack | src/program-rust/src/instruction.rs:53-82 | any encoded instruction, followed by any trailing bytes, decodes to itself |
| Instruction.PackDeserialize | src/program-rust/src/instruction.rs:53-93 | any input that decodes is reproduced by re-encoding, byte for byte except the `repr(C)` padding of UpdateFeeParams |
| State.PercentOfAmountWithin | src/program-rust/src/state.rs:85-88 | a percentage of at most 10000 basis points of an amount is at most the amount |
| State.Ledger.New | src/program-rust/src/state.rs:60-69 | a new record is initialized, has no governance and has empty maps |
| State.Ledger.CalculateFee | src/program-rust/src/state.rs:81-92 | the fee is 50000 without governance, the fixed amount in fixed mode, and in percent mode the floor of amount × bp / 10000 cast to 64 bits (its value mod 2^64); up to 10000 bp that floor is exact and at most the amount |
| State.Ledger.IsTokenAllowed | src/program-rust/src/state.rs:95-107 | every token is allowed without governance or with an empty list; otherwise a listed token gets its flag and an unlisted token is refused |
| State.Ledger.IsAuthority | src/program-rust/src/state.rs:131-136 | an address is the authority exactly when governance exists and names it |
| State.Ledger.GetNextNonce | src/program-rust/src/state.rs:139-141 | the stored next nonce, or 0 for an unseen consumer |
| State.Ledger.IsNonceUsed | src/program-rust/src/state.rs:153-156 | a nonce is used exactly when it is below the next nonce, so the next nonce itself is unused |
| State.Ledger.GetTransactionExecutor | src/program-rust/src/state.rs:165-168 | the executor recorded for (consumer, nonce), if there is one |
| State.Ledger.AddConsumer | src/program-rust/src/state.rs:50-53 | the consumer's balance is set to the amount; every other entry and field is unchanged |
| State.Ledger.AddExecutor | src/program-rust/src/state.rs:55-58 | the executor's balance is set to the amount; every other entry and field is unchanged |
| State.Ledger.InitializeGovernance | src/program-rust/src/state.rs:72-78 | the given key alone is the authority, every amount costs the 50000 default fee, every token is allowed, and nothing else changes |
| State.Ledger.AddAllowedToken | src/program-rust/src/state.rs:110-114 | with governance the mint is listed and allowed, and only the list changes; without governance nothing changes |
| State.Ledger.RemoveAllowedToken | src/program-rust/src/state.rs:117-121 | with governance the mint is unlisted and every other listing is kept; without governance nothing changes |
| State.Ledger.UpdateFeeParams | src/program-rust/src/state.rs:124-128 | with governance only the fee mode is replaced, and a fixed mode then prices every amount at its value; without governance nothing changes |
| State.Ledger.IncrementNonce | src/program-rust/src/state.rs:144-149 | the consumer's next nonce rises by one; every other consumer's nonce and every other field is unchanged |
| State.Ledger.RecordTransactionExecutor | src/program-rust/src/state.rs:159-162 | (consumer, nonce) maps to the executor, and every other pair keeps its entry or its absence |
| State.GsnInfo.New | src/program-rust/src/state.rs:60-69 | the object `GsnInfo::new` allocates holds the new record |
| State.GsnInfo.Deserialize | src/program-rust/src/state.rs:46-48 | a fresh object holding the buffer's record, or InvalidAccountData when the buffer does not decode |
| State.GsnInfo.Serialize | src/program-rust/src/state.rs:42-44 | the record is written when the buffer can hold it; otherwise AccountDataTooSmall and the buffer is as before |
| State.GsnInfo.AddConsumer | src/program-rust/src/state.rs:50-53 | in place, as `Ledger.AddConsumer`, and returns true |
| State.GsnInfo.AddExecutor | src/program-rust/src/state.rs:55-58 | in place, as `Ledger.AddExecutor`, and returns true |
| State.GsnInfo.InitializeGovernance | src/program-rust/src/state.rs:72-78 | in place, as `Ledger.InitializeGovernance` |
| State.GsnInfo.AddAllowedToken | src/program-rust/src/state.rs:110-114 | in place, as `Ledger.AddAllowedToken` |
| State.GsnInfo.RemoveAllowedToken | src/program-rust/src/state.rs:117-121 | in place, as `Ledger.RemoveAllowedToken` |
| State.GsnInfo.UpdateFeeParams | src/program-rust/src/state.rs:124-128 | in place, as `Ledger.UpdateFeeParams` |
| State.GsnInfo.IncrementNonce | src/program-rust/src/state.rs:144-149 | in place, as `Ledger.IncrementNonce`, and returns the new next nonce |
| State.GsnInfo.RecordTransactionExecutor | src/program-rust/src/state.rs:159-162 | in place, as `Ledger.RecordTransactionExecutor` |
| Common.OrInsert | src/program-rust/src/processor.rs:92-94 | `or_insert` puts the value only under an absent key; a present key keeps its value and no other key changes |
| Processor.InitializeStep | src/program-rust/src/processor.rs:57-74 | it succeeds exactly when there is a ledger account, an authority account (if given) signed, and the buffer holds the record; it writes `GsnInfo::new`, with `initialize_governance` of the authority when one is given (so a Fixed(50000) fee and an empty allow-list), whatever was there |
| Processor.TopupStep | src/program-rust/src/processor.rs:76-117 | it needs two accounts and a decodable record; it aborts exactly when an existing balance plus the amount overflows; on success only the consumer map changes: a new consumer gets the amount, an existing one keeps its balance |
| Processor.SubmitStep | src/program-rust/src/processor.rs:119-256 | guards in order: five accounts, a decodable record, a known consumer, the exact next nonce, a balance covering the fee; once they all pass, the transfer of `amount` from sender to receiver is requested, and its failure is returned as is; after it completes the instruction aborts exactly when the nonce or an existing executor balance would overflow, and otherwise succeeds exactly when the buffer holds the record; ReplayAttack only ever comes from the transfer; on success the nonce rises by one, the audit names the executor under (consumer, nonce), no other nonce or audit entry changes, the executor is credited only when it has no entry, and the consumer's balance is unchanged |
| Processor.FeeModeOf | src/program-rust/src/processor.rs:276-285 | type 0 is a fixed fee of the value, type 1 a percentage of at most 10000 bp, anything else InvalidFeeMode |
| Processor.AuthorizedLedger | src/program-rust/src/processor.rs:262-274 | the governance guards pass exactly when there are two accounts, the second signed, the record decodes and the signer is its authority; each failure has its own error, with the signature checked before the record is read |
| Processor.Earned | src/program-rust/src/processor.rs:368-371 | an executor's earned fees are its entry, and are 0 exactly when it has no entry or a zero one |
| Processor.UpdateFeeParamsStep | src/program-rust/src/processor.rs:258-289 | it succeeds exactly when the guards pass, the fee mode is valid and the buffer holds the record; only the fee mode changes |
| Processor.AddAllowedTokenStep | src/program-rust/src/processor.rs:291-312 | it succeeds exactly when the guards pass and the buffer holds the record; the mint is listed and allowed, and nothing else changes |
| Processor.RemoveAllowedTokenStep | src/program-rust/src/processor.rs:314-335 | it succeeds exactly when the guards pass and the buffer holds the record; the mint is unlisted, and nothing else changes |
| Processor.ClaimFeesStep | src/program-rust/src/processor.rs:337-432 | it needs four accounts, the executor's signature and the executor as its own destination, all before the record is read; zero earnings give InsufficientFunds; otherwise the whole balance is transferred from the ledger account, and once that completes it succeeds exactly when the buffer holds the record; on success only that executor's entry changes, to 0 |
| Processor.ProcessStep | src/program-rust/src/processor.rs:26-55 | an undecodable instruction gives InvalidAccountData; each decoded instruction runs exactly its own handler with its arguments; the account's data changes only on success |
| Processor.ProcessInitialize | src/program-rust/src/processor.rs:57-74 | the in-place handler does what `InitializeStep` states |
| Processor.ProcessTopup | src/program-rust/src/processor.rs:76-117 | the in-place handler does what `TopupStep` states |
| Processor.ProcessSubmitTx | src/program-rust/src/processor.rs:119-256 | the in-place handler does what `SubmitStep` states, and requests the same transfer |
| Processor.Authorize | src/program-rust/src/processor.rs:262-274 | the shared guards, in place, as `AuthorizedLedger` |
| Processor.ProcessUpdateFeeParams | src/program-rust/src/processor.rs:258-289 | the in-place handler does what `UpdateFeeParamsStep` states |
| Processor.ProcessAddAllowedToken | src/program-rust/src/processor.rs:291-312 | the in-place handler does what `AddAllowedTokenStep` states |
| Processor.ProcessRemoveAllowedToken | src/program-rust/src/processor.rs:314-335 | the in-place handler does what `RemoveAllowedTokenStep` states |
| Processor.ProcessClaimFees | src/program-rust/src/processor.rs:337-432 | the in-place handler does what `ClaimFeesStep` states, and requests the same transfer |
| Processor.Process | src/program-rust/src/processor.rs:26-55 | decoding and dispatch, in place, as `ProcessStep` |
| Properties.PercentFeeWithinAmount | src/program-rust/src/state.rs:81-92 | on a record every instruction can reach, a percentage fee never exceeds the amount |
| Properties.FeeUpdateNeedsGovernance | src/program-rust/src/state.rs:124-128 | a fee update on a record without governance leaves the fee at the 50000 default |
| Properties.PercentFeeTruncatesAboveWhole | src/program-rust/src/state.rs:85-88 | above 10000 bp, which only the state API accepts, the 64-bit cast can truncate the fee: at 65535 bp on the largest amount the fee is 10210272844798236812, the low 64 bits of the quotient 120890737287055546508 |
| Properties.SubmitKeepsConsistent | src/program-rust/src/processor.rs:193-197 | a relay keeps every audit entry below its consumer's next nonce |
| Properties.ProcessKeepsConsistent | src/program-rust/src/processor.rs:26-55 | every instruction keeps the record consistent: percentages at most 10000 bp, and audit entries only for used nonces |
| Properties.RunKeepsConsistent | src/program-rust/src/processor.rs:26-55 | so does every run of instructions |
| Properties.SubmitAuditWriteOnce | src/program-rust/src/processor.rs:193-197 | a successful relay adds its audit entry under a pair that had none and keeps every earlier entry |
| Properties.ApplyNonce | src/program-rust/src/processor.rs:196-197 | apart from Initialize, an instruction raises a consumer's nonce by one if it is that consumer's successful relay, and otherwise leaves it alone |
| Properties.RunNonce | src/program-rust/src/processor.rs:136-145 | over a run without Initialize, each consumer's nonce never decreases and rises by exactly its number of successful relays |
| Properties.InitializeResetsNonces | src/program-rust/src/processor.rs:57-74 | Initialize on a ledger already in use succeeds and resets every nonce to 0 |
| Properties.InitializeOwnErrors | src/program-rust/src/processor.rs:57-74 | Initialize's only custom error is Unauthorized (2) |
| Properties.TopupOwnErrors | src/program-rust/src/processor.rs:76-117 | TopUp never fails with a custom error |
| Properties.SubmitOwnErrors | src/program-rust/src/processor.rs:119-256 | a relay raises only InsufficientBalance (5) and InvalidNonce (7) itself; any other custom error is the error of the transfer it requested |
| Properties.GovernanceOwnErrors | src/program-rust/src/processor.rs:258-335 | UpdateFeeParams raises only Unauthorized (2) and InvalidFeeMode (4); AddAllowedToken and RemoveAllowedToken only Unauthorized |
| Properties.ClaimFeesOwnErrors | src/program-rust/src/processor.rs:337-432 | a claim raises only UnauthorizedFeeClaim (8) itself; any other custom error is the error of the transfer it requested |
| Properties.OwnCustomErrors | src/program-rust/src/error.rs:6-34 | every instruction raises only custom codes 2, 4, 5, 7 and 8 itself; AlreadyInUse, InvalidState, GovernanceNotInitialized and ReplayAttack reach the caller only as the error of a transfer the instruction requested |
| Properties.TopupOfKnownConsumerKeepsBalance | src/program-rust/src/processor.rs:88-96 | topping up an existing consumer succeeds and writes the record back unchanged; the balance does not grow by the amount |
| Properties.RelayDoesNotMoveKnownBalances | src/program-rust/src/processor.rs:199-226 | with a non-zero fee a relay neither debits the consumer nor credits an executor that already has an entry |
| Properties.RemovingLastListedMintAllowsAll | src/program-rust/src/state.rs:95-121 | unlisting the only listed mint allows every mint again |
| Properties.RelayIgnoresAllowList | src/program-rust/src/processor.rs:119-256 | a relay's result and transfer are the same whatever mints are listed |
| Properties.IncrementNonceMarksUsed | src/program-rust/src/state.rs:144-156 | after an increment the used nonces are the earlier ones plus the one just consumed |
| Properties.NonceSequence | src/program-rust/tests/security_tests.rs:170-198 | two increments on a fresh record give next nonce 2: 0 and 1 are used, 2 is not, and 5 is not the expected nonce |
| Properties.InitializeScenario | src/program-rust/src/processor.rs:57-74 | Initialize with a signing authority on an empty account succeeds with that governance and the 50000 default fee |
| Properties.GovernanceScenario | src/program-rust/src/processor.rs:258-289 | the authority sets a fixed fee of 100000, so a transfer of 500000 costs 100000; a stranger's update is refused as Unauthorized |
| Properties.TopupScenario | src/program-rust/src/processor.rs:76-117 | after that set-up, a consumer's first top-up of 1000000 creates its entry with exactly that balance |
| Properties.RelayScenario | src/program-rust/src/processor.rs:119-256 | a relay of 500000 at nonce 0 under a fixed fee of 100000 succeeds: the consumer still holds 1000000, the executor is owed 100000, the nonce is 1 and the audit names the executor |
| Properties.ReplayScenario | src/program-rust/src/processor.rs:136-140 | replaying nonce 0 after it is used is refused as InvalidNonce |
| Properties.ClaimScenario | src/program-rust/src/processor.rs:337-432 | an executor owed 100000 claims it to itself, its entry drops to 0, and a claim to any other destination is refused |

## Left out

- Borsh encoding of the record is not modelled. The account buffer holds the record it
  decodes to, or nothing. A decoding failure is InvalidAccountData. A write is
  modelled by a `capacityOk` flag: when it is false, the result is AccountDataTooSmall
  and the buffer is unchanged, because the runtime discards a failed instruction's writes.
- The runtime's `invoke` of `system_instruction::transfer` is not modelled. Its result is
  a parameter, `TransferResult`, and a failure is returned unchanged. Lamport balances
  are not modelled.
- Account iteration (`next_account_info`) is modelled as indexing into the account list.
  A missing account gives NotEnoughAccountKeys. Writable and owner flags are not modelled.
- Logging (`info!`, `msg!`, `println!`) and the `PrintProgramError` and `DecodeError`
  implementations are left out. They only print messages or name the error type.
- The unaligned reinterpreting cast in `unpack` is modelled as reading little-endian bytes, as on
  Solana's target.
- Maps are keyed by the 32-byte key, not by its base58 text. The audit map is keyed by
  the pair (consumer, nonce), not by the text `"consumer:nonce"`. Both encodings are
  injective here.
- The unchecked `u64` additions in TopUp, in the executor credit and in the nonce
  increment abort the instruction (`Aborted`), which the runtime rolls back. A
  wrap-around is not modelled.
- State.Ledger.IncrementNonce: requires the next nonce to be below the largest `u64`.
  At that value the source's `+ 1` overflows. `SubmitStep` models that case as an abort.
- State.GsnInfo.IncrementNonce: carries the same requirement as `State.Ledger.IncrementNonce`,
  for the same reason.
- The unreachable `None` branches at processor.rs:97-101 and processor.rs:211-215 are
  not modelled. They follow a `contains_key` check on the same key.
- The state-level tests that expect a fee update to take effect without governance
  (security_tests.rs:58-64, 91-94 and 220-224) do not hold for the code. The code
  ignores that update, and `Properties.FeeUpdateNeedsGovernance` states this.
- Solana's transaction-level signature checks, rent and compute limits are not modelled.
