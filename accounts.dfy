/** Value types of the on-chain program: the integer widths and byte strings
    of its arguments, the four account records, the claim status and the
    errors an instruction can end with. */
module Accounts {

  /** A byte of a Rust `String`; `String::len()` counts these. */
  type Byte = x: int | 0 <= x < 256

  /** The UTF-8 bytes of a Rust `String`. */
  type Text = seq<Byte>

  /** A 32-byte public key. Keys are only ever compared for equality. */
  type Pubkey = k: seq<Byte> | |k| == 32 witness seq(32, _ => 0)

  const U64_MAX: int := 0xFFFF_FFFF_FFFF_FFFF

  /** Rust `u64`: claim amounts and lamport balances. */
  type U64 = x: int | 0 <= x <= U64_MAX

  /** Rust `i64`: the clock's unix timestamp. */
  type I64 = x: int | -0x8000_0000_0000_0000 <= x < 0x8000_0000_0000_0000

  datatype ClaimStatus = Pending | Verified | Paid | Rejected

  /** The program's own `#[error_code]` enum. */
  datatype ErrorCode = Unauthorized | InvalidPatient | ClaimNotVerified

  /** Every way an instruction of the program can fail. */
  datatype Error =
    | Custom(code: ErrorCode)
      // `init` asks the system program to create an account that already exists
    | AccountAlreadyInUse
      // an `Account<T>` argument names an account that was never created
    | AccountNotInitialized
      // on exit the account no longer fits the space allocated for it
    | AccountDidNotSerialize
      // system transfer: the source holds fewer lamports than the amount
    | ResultWithNegativeLamports
      // system transfer: the destination balance would exceed `u64`
    | ArithmeticOverflow

  datatype Result<+T> = Ok(value: T) | Err(error: Error)

  datatype PatientAccount = PatientAccount(authority: Pubkey, did: Text)

  datatype ProviderAccount = ProviderAccount(authority: Pubkey, did: Text, name: Text)

  datatype HealthDataAccount = HealthDataAccount(
    owner: Pubkey,
    dataHash: Text,
    encryptedData: Text,
    timestamp: I64)

  datatype ClaimAccount = ClaimAccount(
    claimId: Text,
    patient: Pubkey,
    provider: Pubkey,
    healthDataHash: Text,
    amount: U64,
    status: ClaimStatus,
    timestamp: I64)
}
