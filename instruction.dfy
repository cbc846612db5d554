/** The instruction decoder: an opcode byte followed by a fixed `repr(C)` payload,
    read in little-endian byte order. */
module Instruction {
  import opened Common
  import opened Errors

  datatype TopupArgs = TopupArgs(amount: u64)
  datatype SubmitArgs = SubmitArgs(amount: u64, nonce: u64)
  /** `fee_mode_type`: 0 = Fixed, 1 = Percent; `fee_value`: lamports or basis points. */
  datatype UpdateFeeParamsArgs = UpdateFeeParamsArgs(feeModeType: u8, feeValue: u64)
  datatype TokenMintArgs = TokenMintArgs(mint: Pubkey)

  datatype GsnInstruction =
    | Initialize
    | Topup(topup: TopupArgs)
    | SubmitTransaction(submit: SubmitArgs)
    | UpdateFeeParams(feeParams: UpdateFeeParamsArgs)
    | AddAllowedToken(added: TokenMintArgs)
    | RemoveAllowedToken(removed: TokenMintArgs)
    | ClaimFees
  {
    /** The opcode byte that selects this instruction. */
    function Tag(): (t: u8)
      ensures t <= 6
    {
      match this
      case Initialize => 0
      case Topup(_) => 1
      case SubmitTransaction(_) => 2
      case UpdateFeeParams(_) => 3
      case AddAllowedToken(_) => 4
      case RemoveAllowedToken(_) => 5
      case ClaimFees => 6
    }
  }

  /** `size_of` of each argument struct under `repr(C)`. */
  const TOPUP_ARGS_SIZE: nat := 8
  const SUBMIT_ARGS_SIZE: nat := 16
  /** A `u8`, seven bytes of padding to align the `u64`, then the `u64`. */
  const UPDATE_FEE_PARAMS_ARGS_SIZE: nat := 16
  const TOKEN_MINT_ARGS_SIZE: nat := 32

  /** The payload size that opcode `tag` requires after the opcode byte. */
  function PayloadSize(tag: u8): (size: nat)
    ensures size == 0 <==> tag == 0 || tag >= 6
    ensures size % 8 == 0 && size <= TOKEN_MINT_ARGS_SIZE
    ensures tag == 3 ==> size == 1 + 7 + 8
  {
    if tag == 1 then TOPUP_ARGS_SIZE
    else if tag == 2 then SUBMIT_ARGS_SIZE
    else if tag == 3 then UPDATE_FEE_PARAMS_ARGS_SIZE
    else if tag == 4 || tag == 5 then TOKEN_MINT_ARGS_SIZE
    else 0
  }

  /** Byte `k` of an encoded instruction with opcode `tag` is `repr(C)` padding. */
  predicate IsPadding(tag: u8, k: nat)
  {
    tag == 3 && 2 <= k < 9
  }

  function Pow256(n: nat): (p: nat)
    ensures p >= 1
  {
    if n == 0 then 1 else 256 * Pow256(n - 1)
  }

  /** The unsigned number whose little-endian bytes are `b`. */
  function LittleEndian(b: seq<u8>): (v: nat)
    ensures v < Pow256(|b|)
  {
    if |b| == 0 then 0 else b[0] + 256 * LittleEndian(b[1..])
  }

  /** The `n` little-endian bytes of `v`. */
  function ToLittleEndian(v: nat, n: nat): (b: seq<u8>)
    requires v < Pow256(n)
    ensures |b| == n && LittleEndian(b) == v
  {
    if n == 0 then [] else [v % 256] + ToLittleEndian(v / 256, n - 1)
  }

  /** Decoding and re-encoding `|b|` little-endian bytes gives back `b`. */
  lemma {:induction false} ToLittleEndianOfLittleEndian(b: seq<u8>)
    ensures ToLittleEndian(LittleEndian(b), |b|) == b
  {
    if |b| > 0 {
      var v := LittleEndian(b);
      assert v % 256 == b[0] && v / 256 == LittleEndian(b[1..]);
      ToLittleEndianOfLittleEndian(b[1..]);
    }
  }

  lemma EightBytesAreU64()
    ensures Pow256(8) == U64_LIMIT
  {
  }

  /** A native-endian `u64` read at offset `at` of `payload`. */
  function ReadU64(payload: seq<u8>, at: nat): (v: u64)
    requires at + 8 <= |payload|
    ensures ToLittleEndian(v, 8) == payload[at..at + 8]
  {
    EightBytesAreU64();
    ToLittleEndianOfLittleEndian(payload[at..at + 8]);
    LittleEndian(payload[at..at + 8])
  }

  /** The eight little-endian bytes of `v`. */
  function U64Bytes(v: u64): (b: seq<u8>)
    ensures |b| == 8 && LittleEndian(b) == v
  {
    EightBytesAreU64();
    ToLittleEndian(v, 8)
  }

  /** `unpack::<T>`: the `size` payload bytes after the opcode, or InvalidAccountData
      when the input is shorter than the opcode plus the payload. Longer input is accepted. */
  function Unpack(input: seq<u8>, size: nat): (r: Result<seq<u8>>)
    ensures r.Ok? <==> 1 + size <= |input|
    ensures r.Ok? ==> r.value == input[1..1 + size]
    ensures r.Err? ==> r.error == InvalidAccountData
  {
    if |input| < 1 + size then Err(InvalidAccountData) else Ok(input[1..1 + size])
  }

  /** `GsnInstruction::deserialize`. */
  function Deserialize(input: seq<u8>): (r: Result<GsnInstruction>)
    ensures r.Err? ==> r.error == InvalidAccountData
    ensures r.Ok? <==> 1 <= |input| && input[0] <= 6 && 1 + PayloadSize(input[0]) <= |input|
    ensures r.Ok? ==> r.value.Tag() == input[0]
  {
    if |input| < 1 then Err(InvalidAccountData)
    else if input[0] == 0 then Ok(Initialize)
    else if input[0] == 1 then
      var p :- Unpack(input, TOPUP_ARGS_SIZE);
      Ok(Topup(TopupArgs(ReadU64(p, 0))))
    else if input[0] == 2 then
      var p :- Unpack(input, SUBMIT_ARGS_SIZE);
      Ok(SubmitTransaction(SubmitArgs(ReadU64(p, 0), ReadU64(p, 8))))
    else if input[0] == 3 then
      var p :- Unpack(input, UPDATE_FEE_PARAMS_ARGS_SIZE);
      Ok(UpdateFeeParams(UpdateFeeParamsArgs(p[0], ReadU64(p, 8))))
    else if input[0] == 4 then
      var p :- Unpack(input, TOKEN_MINT_ARGS_SIZE);
      Ok(AddAllowedToken(TokenMintArgs(p)))
    else if input[0] == 5 then
      var p :- Unpack(input, TOKEN_MINT_ARGS_SIZE);
      Ok(RemoveAllowedToken(TokenMintArgs(p)))
    else if input[0] == 6 then Ok(ClaimFees)
    else Err(InvalidAccountData)
  }

  /** The layout a client writes: opcode, then the argument struct's bytes with
      zero padding. The program itself never encodes instructions. */
  function Pack(i: GsnInstruction): (bytes: seq<u8>)
    ensures |bytes| == 1 + PayloadSize(i.Tag()) && bytes[0] == i.Tag()
  {
    match i
    case Initialize => [0]
    case Topup(a) => [1] + U64Bytes(a.amount)
    case SubmitTransaction(a) => [2] + U64Bytes(a.amount) + U64Bytes(a.nonce)
    case UpdateFeeParams(a) => [3, a.feeModeType] + seq(7, _ => 0) + U64Bytes(a.feeValue)
    case AddAllowedToken(a) => [4] + a.mint
    case RemoveAllowedToken(a) => [5] + a.mint
    case ClaimFees => [6]
  }

  /** Decoding a packed instruction, followed by any trailing bytes, gives it back. */
  lemma {:induction false} DeserializePack(i: GsnInstruction, trailing: seq<u8>)
    ensures Deserialize(Pack(i) + trailing) == Ok(i)
  {
    match i
    case Initialize =>
    case Topup(a) => DeserializePackTopup(a, trailing);
    case SubmitTransaction(a) => DeserializePackSubmit(a, trailing);
    case UpdateFeeParams(a) => DeserializePackFeeParams(a, trailing);
    case AddAllowedToken(a) => assert (Pack(i) + trailing)[1..33] == a.mint;
    case RemoveAllowedToken(a) => assert (Pack(i) + trailing)[1..33] == a.mint;
    case ClaimFees =>
  }

  lemma DeserializePackTopup(a: TopupArgs, trailing: seq<u8>)
    ensures Deserialize(Pack(Topup(a)) + trailing) == Ok(Topup(a))
  {
    var input := Pack(Topup(a)) + trailing;
    assert input[1..9][0..8] == U64Bytes(a.amount);
  }

  lemma DeserializePackSubmit(a: SubmitArgs, trailing: seq<u8>)
    ensures Deserialize(Pack(SubmitTransaction(a)) + trailing) == Ok(SubmitTransaction(a))
  {
    var input := Pack(SubmitTransaction(a)) + trailing;
    var amount, nonce := U64Bytes(a.amount), U64Bytes(a.nonce);
    var payload := input[1..17];
    assert payload == amount + nonce;
    ConcatParts(amount, nonce);
  }

  lemma DeserializePackFeeParams(a: UpdateFeeParamsArgs, trailing: seq<u8>)
    ensures Deserialize(Pack(UpdateFeeParams(a)) + trailing) == Ok(UpdateFeeParams(a))
  {
    var input := Pack(UpdateFeeParams(a)) + trailing;
    var value := U64Bytes(a.feeValue);
    var payload := input[1..17];
    var head: seq<u8> := [a.feeModeType] + seq(7, _ => 0);
    assert payload == head + value;
    ConcatParts(head, value);
  }

  lemma ConcatParts(x: seq<u8>, y: seq<u8>)
    ensures (x + y)[0..|x|] == x && (x + y)[|x|..|x| + |y|] == y
  {
  }

  /** Whatever input decodes, packing its instruction reproduces the input's opcode and
      payload byte for byte, except the padding, which decoding ignores. */
  lemma {:induction false} PackDeserialize(input: seq<u8>)
    requires Deserialize(input).Ok?
    ensures var bytes := Pack(Deserialize(input).value);
      |bytes| <= |input| &&
      forall k :: 0 <= k < |bytes| && !IsPadding(input[0], k) ==> bytes[k] == input[k]
  {
    var i := Deserialize(input).value;
    var bytes := Pack(i);
    EightBytesAreU64();
    match i
    case Initialize =>
    case Topup(a) =>
      assert bytes == [1] + input[1..9];
    case SubmitTransaction(a) =>
      assert bytes[1..9] == input[1..17][0..8];
      assert bytes[9..17] == input[1..17][8..16];
      assert bytes == [2] + input[1..17];
    case UpdateFeeParams(a) =>
      var value := input[1..17][8..16];
      assert value == input[9..17];
      assert bytes == [3, input[1]] + seq(7, _ => 0) + value;
      forall k | 0 <= k < |bytes| && !IsPadding(input[0], k)
        ensures bytes[k] == input[k]
      {
        if k >= 9 {
          assert bytes[k] == value[k - 9] == input[k];
        }
      }
    case AddAllowedToken(a) =>
      assert bytes == [4] + input[1..33];
    case RemoveAllowedToken(a) =>
      assert bytes == [5] + input[1..33];
    case ClaimFees =>
  }
}
