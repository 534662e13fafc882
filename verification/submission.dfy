/**
 Submission and simulation of transactions, and the choice of the error thrown
 when the node call fails. The node, the wire serialiser, the base-58 decoder
 and the program-error resolver are parameters.
 */
module Submission {
  import opened RpcTypes

  /** The resolver: turns an error with execution logs into a program error, or gives up. */
  type Resolver = (RawError, Transaction) -> Option<ProgramError>

  /**
   The error thrown after a failed node call: the resolver is consulted only for a
   JavaScript `Error` with a `logs` property, and a resolved program error replaces
   the caught error; otherwise the caught error is thrown again unchanged.
   */
  function SelectError(error: RawError, tx: Transaction, resolve: Resolver): (t: Thrown)
    ensures t.Resolved? <==> error.isErrorInstance && error.logs.Some? && resolve(error, tx).Some?
    ensures t.Resolved? ==> t.programError == resolve(error, tx).value
    ensures t.Rethrown? ==> t.error == error
  {
    var resolved := if error.CarriesLogs() then resolve(error, tx) else None;
    if resolved.Some? then Resolved(resolved.value) else Rethrown(error)
  }

  /** Without logs the resolver plays no part: any two resolvers lead to the caught error itself. */
  lemma SelectErrorWithoutLogs(error: RawError, tx: Transaction, f: Resolver, g: Resolver)
    requires !error.CarriesLogs()
    ensures SelectError(error, tx, f) == SelectError(error, tx, g) == Rethrown(error)
  {
  }

  /** A resolver that recognises nothing leaves every caught error as it was. */
  lemma SelectErrorUnresolved(error: RawError, tx: Transaction, resolve: Resolver)
    requires resolve(error, tx).None?
    ensures SelectError(error, tx, resolve) == Rethrown(error)
  {
  }

  /** Options passed through to the node with a raw transaction. */
  datatype SendOptions = SendOptions(
    skipPreflight: Option<bool>,
    preflightCommitment: Option<Commitment>,
    maxRetries: Option<nat>,
    minContextSlot: Option<nat>)

  /** The node's answer to a raw transaction: a base-58 signature, or an error. */
  datatype SendReply = Accepted(signature: string) | Rejected(error: RawError)

  /** What the base-58 decoder throws on a character outside its alphabet. */
  const DecodeError := RawError(true, "Non-base58 character", None)

  /**
   Sends the serialised transaction and returns the decoded signature. A failure
   of the node call or of the decoder is caught and passed through `SelectError`.
   */
  function SendTransaction(
    tx: Transaction,
    options: Option<SendOptions>,
    serialize: Transaction -> seq<byte>,
    node: (seq<byte>, Option<SendOptions>) -> SendReply,
    decode: string -> Option<seq<byte>>,
    resolve: Resolver): (r: Outcome<seq<byte>>)
    ensures var reply := node(serialize(tx), options);
      && (r.Returned? <==> reply.Accepted? && decode(reply.signature).Some?)
      && (r.Returned? ==> r.value == decode(reply.signature).value)
      && (reply.Rejected? ==> r == Threw(SelectError(reply.error, tx, resolve)))
      && (reply.Accepted? && decode(reply.signature).None? ==> r == Threw(Rethrown(DecodeError)))
      && (r.Threw? && r.thrown.Resolved? ==> reply.Rejected? && reply.error.logs.Some?)
  {
    match node(serialize(tx), options)
    case Accepted(signature) =>
      var bytes := decode(signature);
      if bytes.Some? then Returned(bytes.value) else Threw(SelectError(DecodeError, tx, resolve))
    case Rejected(error) =>
      Threw(SelectError(error, tx, resolve))
  }

  /** When decoding inverts encoding, the returned signature encodes back to the node's text. */
  lemma SendTransactionSignatureRoundTrip(
    tx: Transaction,
    options: Option<SendOptions>,
    serialize: Transaction -> seq<byte>,
    node: (seq<byte>, Option<SendOptions>) -> SendReply,
    decode: string -> Option<seq<byte>>,
    encode: seq<byte> -> string,
    resolve: Resolver)
    requires node(serialize(tx), options).Accepted?
    requires var s := node(serialize(tx), options).signature;
      decode(s).Some? && encode(decode(s).value) == s
    ensures var r := SendTransaction(tx, options, serialize, node, decode, resolve);
      r.Returned? && encode(r.value) == node(serialize(tx), options).signature
  {
  }

  /** Options of a simulation. */
  datatype SimulateOptions = SimulateOptions(verifySignatures: Option<bool>, accounts: Option<seq<PublicKey>>)

  /** The configuration sent to the node with a simulated transaction. */
  datatype SimulateRequest = SimulateRequest(sigVerify: Option<bool>, addresses: seq<PublicKey>, encoding: string)

  /** What a simulation reports. */
  datatype SimulationResult = SimulationResult(
    err: Option<string>,
    logs: Option<seq<string>>,
    accounts: Option<seq<Option<AccountInfo>>>,
    unitsConsumed: Option<nat>)

  /** The node's answer to a simulation: a result, or an error. */
  datatype SimulateReply = Simulated(value: SimulationResult) | SimulationFailed(error: RawError)

  /** Builds the simulation configuration: no accounts to inspect means an empty list, in base-64. */
  function SimulationRequest(options: Option<SimulateOptions>): SimulateRequest
  {
    var verify := if options.Some? then options.value.verifySignatures else None;
    var addresses := if options.Some? && options.value.accounts.Some? then options.value.accounts.value else [];
    SimulateRequest(verify, addresses, "base64")
  }

  /**
   Simulates a transaction: the node's result is returned as it is, and a failure
   is passed through `SelectError` exactly as for a submission.
   */
  function SimulateTransaction(
    tx: Transaction,
    options: Option<SimulateOptions>,
    toWire: Transaction -> seq<byte>,
    node: (seq<byte>, SimulateRequest) -> SimulateReply,
    resolve: Resolver): (r: Outcome<SimulationResult>)
    ensures var reply := node(toWire(tx), SimulationRequest(options));
      && (r.Returned? <==> reply.Simulated?)
      && (r.Returned? ==> r.value == reply.value)
      && (r.Threw? ==> r.thrown == SelectError(reply.error, tx, resolve))
    ensures var q := SimulationRequest(options);
      && q.encoding == "base64"
      && (options.None? || options.value.accounts.None? ==> q.addresses == [])
      && (options.Some? && options.value.accounts.Some? ==> q.addresses == options.value.accounts.value)
  {
    match node(toWire(tx), SimulationRequest(options))
    case Simulated(value) => Returned(value)
    case SimulationFailed(error) => Threw(SelectError(error, tx, resolve))
  }

  /** A submission and a simulation of the same transaction that fail with the same error throw the same thing. */
  lemma SendAndSimulateThrowAlike(
    tx: Transaction,
    sendOptions: Option<SendOptions>,
    simulateOptions: Option<SimulateOptions>,
    serialize: Transaction -> seq<byte>,
    sendNode: (seq<byte>, Option<SendOptions>) -> SendReply,
    decode: string -> Option<seq<byte>>,
    toWire: Transaction -> seq<byte>,
    simulateNode: (seq<byte>, SimulateRequest) -> SimulateReply,
    resolve: Resolver)
    requires sendNode(serialize(tx), sendOptions).Rejected?
    requires simulateNode(toWire(tx), SimulationRequest(simulateOptions))
          == SimulationFailed(sendNode(serialize(tx), sendOptions).error)
    ensures var sent := SendTransaction(tx, sendOptions, serialize, sendNode, decode, resolve);
      var simulated := SimulateTransaction(tx, simulateOptions, toWire, simulateNode, resolve);
      sent.Threw? && simulated.Threw? && sent.thrown == simulated.thrown
  {
  }
}
