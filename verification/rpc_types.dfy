/**
 The values that flow between a ledger node and the typed RPC client: keys,
 amounts, the node's raw account records, the client's account variants,
 transactions and the errors a submission can raise.
 */
module RpcTypes {

  /** A value that may be missing: the model's reading of JavaScript's `T | undefined` and `T | null`. */
  datatype Option<+T> = None | Some(value: T)

  newtype byte = x: int | 0 <= x < 256

  /** A 32-byte account address as the client holds it. */
  datatype PublicKey = PublicKey(bytes: seq<byte>)

  /** An amount of the native currency, counted in lamports (its basis points). */
  datatype SolAmount = SolAmount(basisPoints: int)

  /** Wraps an integer count of lamports as an amount. */
  function Lamports(n: int): SolAmount
  {
    SolAmount(n)
  }

  /** The strength of the finality guarantee a read is made at. */
  datatype Commitment = Processed | Confirmed | Finalized

  /** True of the amount that holds no lamports at all. */
  predicate IsZeroAmount(a: SolAmount)
  {
    a.basisPoints == 0
  }

  /** An account record exactly as the node returns it; `rentEpoch` may be missing. */
  datatype AccountInfo = AccountInfo(
    data: seq<byte>,
    executable: bool,
    lamports: nat,
    owner: PublicKey,
    rentEpoch: Option<int>)

  /** An entry of a program-accounts scan: the account's own address and its record. */
  datatype KeyedAccountInfo = KeyedAccountInfo(pubkey: PublicKey, account: AccountInfo)

  /** An account as the client returns it: its address plus the normalised record. */
  datatype RpcAccount = RpcAccount(
    publicKey: PublicKey,
    data: seq<byte>,
    executable: bool,
    lamports: SolAmount,
    owner: PublicKey,
    rentEpoch: Option<int>)

  /** The tagged variant for "an account may or may not live at this address". */
  datatype MaybeAccount = Exists(account: RpcAccount) | Absent(address: PublicKey)
  {
    /** The address the account was looked up under, present or not. */
    function PublicKey(): PublicKey
    {
      match this
      case Exists(a) => a.publicKey
      case Absent(k) => k
    }
  }

  /** A signed transaction; the client only forwards it to collaborators. */
  datatype Transaction = Transaction(message: seq<byte>, signatures: seq<seq<byte>>)

  /** A structured, program-specific failure produced from execution logs. */
  datatype ProgramError = ProgramError(program: PublicKey, code: int, name: string, logs: seq<string>)

  /**
   An error value caught from a node call. `isErrorInstance` says whether it is a
   JavaScript `Error`; `logs` is `Some` exactly when the object has a `logs` property.
   */
  datatype RawError = RawError(isErrorInstance: bool, message: string, logs: Option<seq<string>>)
  {
    /** Whether the error is eligible for resolution into a program error. */
    predicate CarriesLogs()
    {
      isErrorInstance && logs.Some?
    }
  }

  /** What an operation throws: a resolved program error or the caught error itself. */
  datatype Thrown = Resolved(programError: ProgramError) | Rethrown(error: RawError)

  /** An operation's outcome: a value, or a thrown error. */
  datatype Outcome<+T> = Returned(value: T) | Threw(thrown: Thrown)
}
