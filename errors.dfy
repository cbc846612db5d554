/** The program's error vocabulary and the host's error and result types. */
module Errors {
  import opened Common

  /** The program's own errors, in declaration order. */
  datatype GsnError =
    | AlreadyInUse
    | InvalidState
    | Unauthorized
    | GovernanceNotInitialized
    | InvalidFeeMode
    | InsufficientBalance
    | ReplayAttack
    | InvalidNonce
    | UnauthorizedFeeClaim
  {
    /** The enum discriminant, `e as u32`: declaration order starting at 0. */
    function Discriminant(): (d: u32)
      ensures d <= 8
      ensures FromPrimitive(d) == Some(this)
    {
      match this
      case AlreadyInUse => 0
      case InvalidState => 1
      case Unauthorized => 2
      case GovernanceNotInitialized => 3
      case InvalidFeeMode => 4
      case InsufficientBalance => 5
      case ReplayAttack => 6
      case InvalidNonce => 7
      case UnauthorizedFeeClaim => 8
    }

    /** `impl From<GsnError> for ProgramError`: a custom error carrying the discriminant,
        which the derived `FromPrimitive` decodes back to this same variant. */
    function ToProgramError(): (p: ProgramError)
      ensures p.Custom? && FromPrimitive(p.code) == Some(this)
    {
      Custom(Discriminant())
    }
  }

  /** The derived `FromPrimitive::from_u32`: the variant whose discriminant is `code`, if any. */
  function FromPrimitive(code: u32): (e: Option<GsnError>)
    ensures e.Some? <==> code <= 8
  {
    match code
    case 0 => Some(AlreadyInUse)
    case 1 => Some(InvalidState)
    case 2 => Some(Unauthorized)
    case 3 => Some(GovernanceNotInitialized)
    case 4 => Some(InvalidFeeMode)
    case 5 => Some(InsufficientBalance)
    case 6 => Some(ReplayAttack)
    case 7 => Some(InvalidNonce)
    case 8 => Some(UnauthorizedFeeClaim)
    case _ => None
  }

  /** Every code `FromPrimitive` accepts is the discriminant of the variant it yields. */
  lemma FromPrimitiveInverse(code: u32)
    requires code <= 8
    ensures FromPrimitive(code).value.Discriminant() == code
  {
  }

  /** Distinct variants convert to distinct `ProgramError`s. */
  lemma ToProgramErrorInjective(e1: GsnError, e2: GsnError)
    ensures e1.ToProgramError() == e2.ToProgramError() ==> e1 == e2
  {
    if e1.ToProgramError() == e2.ToProgramError() {
      assert Some(e1) == FromPrimitive(e1.ToProgramError().code) == Some(e2);
    }
  }

  /** The built-in `solana_program::ProgramError` variants this program meets.
      `Host` stands for any other error the runtime may report (from a transfer). */
  datatype ProgramError =
    | Custom(code: u32)
    | InvalidInstructionData
    | InvalidAccountData
    | AccountDataTooSmall
    | InsufficientFunds
    | NotEnoughAccountKeys
    | Host(id: nat)

  /** What an instruction ends with: `Ok(())`, `Err(e)`, or an abort (an arithmetic
      overflow panic under overflow checks), which the runtime rolls back entirely. */
  datatype ProgramResult = Success | Failure(error: ProgramError) | Aborted

  datatype Result<T> = Ok(value: T) | Err(error: ProgramError) {
    predicate IsFailure() { Err? }

    function PropagateFailure<U>(): Result<U>
      requires Err?
    {
      Err(error)
    }

    function Extract(): T
      requires Ok?
    {
      value
    }
  }
}
