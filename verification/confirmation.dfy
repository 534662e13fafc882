/**
 Conversion of the client's confirmation strategy into the node library's wire
 form. The base-58 encoder and the public-key adapter are parameters.
 */
module Confirmation {
  import opened RpcTypes

  /** The node library's own public-key object. */
  datatype Web3PublicKey = Web3PublicKey(bytes: seq<byte>)

  /** What governs a submission's validity window: a recent blockhash or a durable nonce. */
  datatype Strategy =
    | BlockhashStrategy(blockhash: string, lastValidBlockHeight: nat)
    | DurableNonceStrategy(minContextSlot: nat, nonceAccountPubkey: PublicKey, nonceValue: string)

  datatype ConfirmOptions = ConfirmOptions(strategy: Strategy, commitment: Option<Commitment>)

  /** The strategy as the node library takes it, keyed by the signature's base-58 text. */
  datatype WireStrategy =
    | WireBlockhash(signature: string, blockhash: string, lastValidBlockHeight: nat)
    | WireDurableNonce(signature: string, minContextSlot: nat, nonceAccountPubkey: Web3PublicKey, nonceValue: string)

  /**
   Keeps the strategy's variant and fields, adds the encoded signature, and
   converts the nonce account's key; a blockhash strategy has no key to convert.
   */
  function ParseConfirmStrategy(
    signature: seq<byte>,
    options: ConfirmOptions,
    encode: seq<byte> -> string,
    toWeb3: PublicKey -> Web3PublicKey): (w: WireStrategy)
    ensures w.WireBlockhash? <==> options.strategy.BlockhashStrategy?
    ensures w.signature == encode(signature)
  {
    match options.strategy
    case BlockhashStrategy(blockhash, lastValidBlockHeight) =>
      WireBlockhash(encode(signature), blockhash, lastValidBlockHeight)
    case DurableNonceStrategy(minContextSlot, nonceAccountPubkey, nonceValue) =>
      WireDurableNonce(encode(signature), minContextSlot, toWeb3(nonceAccountPubkey), nonceValue)
  }

  /** Reads a wire strategy back into a signature and a client strategy; the inverse of `ParseConfirmStrategy`. */
  function StrategyOfWire(
    w: WireStrategy,
    decode: string -> Option<seq<byte>>,
    fromWeb3: Web3PublicKey -> PublicKey): Option<(seq<byte>, Strategy)>
  {
    match decode(w.signature)
    case None => None
    case Some(signature) =>
      match w
      case WireBlockhash(_, blockhash, lastValidBlockHeight) =>
        Some((signature, BlockhashStrategy(blockhash, lastValidBlockHeight)))
      case WireDurableNonce(_, minContextSlot, key, nonceValue) =>
        Some((signature, DurableNonceStrategy(minContextSlot, fromWeb3(key), nonceValue)))
  }

  /**
   Nothing of the strategy or the signature is lost: when decoding inverts
   encoding and the key adapter is invertible on the nonce account, the wire
   form reads back to exactly what was given.
   */
  lemma ParseConfirmStrategyRoundTrip(
    signature: seq<byte>,
    options: ConfirmOptions,
    encode: seq<byte> -> string,
    decode: string -> Option<seq<byte>>,
    toWeb3: PublicKey -> Web3PublicKey,
    fromWeb3: Web3PublicKey -> PublicKey)
    requires decode(encode(signature)) == Some(signature)
    requires options.strategy.DurableNonceStrategy? ==>
      fromWeb3(toWeb3(options.strategy.nonceAccountPubkey)) == options.strategy.nonceAccountPubkey
    ensures StrategyOfWire(ParseConfirmStrategy(signature, options, encode, toWeb3), decode, fromWeb3)
         == Some((signature, options.strategy))
  {
  }

  /** A blockhash strategy is copied field for field and never consults the key adapter. */
  lemma BlockhashStrategyCopied(
    signature: seq<byte>,
    options: ConfirmOptions,
    encode: seq<byte> -> string,
    f: PublicKey -> Web3PublicKey,
    g: PublicKey -> Web3PublicKey)
    requires options.strategy.BlockhashStrategy?
    ensures var w := ParseConfirmStrategy(signature, options, encode, f);
      && w == ParseConfirmStrategy(signature, options, encode, g)
      && w.blockhash == options.strategy.blockhash
      && w.lastValidBlockHeight == options.strategy.lastValidBlockHeight
  {
  }

  /** A nonce strategy keeps its slot and nonce value and carries the converted nonce account key. */
  lemma DurableNonceStrategyConverted(
    signature: seq<byte>,
    options: ConfirmOptions,
    encode: seq<byte> -> string,
    toWeb3: PublicKey -> Web3PublicKey)
    requires options.strategy.DurableNonceStrategy?
    ensures var w := ParseConfirmStrategy(signature, options, encode, toWeb3);
      && w.nonceAccountPubkey == toWeb3(options.strategy.nonceAccountPubkey)
      && w.minContextSlot == options.strategy.minContextSlot
      && w.nonceValue == options.strategy.nonceValue
  {
  }
}
