/**
 Balance, existence and rent queries. The node's answers are parameters:
 `balanceOf` gives an address's balance in lamports, and `rentFor` gives the
 rent-exempt minimum for an account of a given size at a given commitment.
 */
module Ledger {
  import opened RpcTypes
  import Accounts

  /** Bytes of per-account overhead the ledger charges rent for (the library's ACCOUNT_HEADER_SIZE). */
  const AccountHeaderSize: nat := 128

  /** A balance lookup wraps the node's lamport count as an amount. */
  function GetBalance(publicKey: PublicKey, balanceOf: PublicKey -> nat): (a: SolAmount)
    ensures a.basisPoints == balanceOf(publicKey)
    ensures IsZeroAmount(a) <==> balanceOf(publicKey) == 0
  {
    Lamports(balanceOf(publicKey))
  }

  /** An address counts as existing exactly when it holds a nonzero balance. */
  function AccountExists(publicKey: PublicKey, balanceOf: PublicKey -> nat): (r: bool)
    ensures r <==> balanceOf(publicKey) > 0
  {
    !IsZeroAmount(GetBalance(publicKey, balanceOf))
  }

  /** The node's answers are consistent when the balance of an address is the lamports of its record, or 0 without one. */
  ghost predicate ConsistentNode(
    publicKey: PublicKey, fetch: PublicKey -> Option<AccountInfo>, balanceOf: PublicKey -> nat)
  {
    balanceOf(publicKey) == (if fetch(publicKey).Some? then fetch(publicKey).value.lamports else 0)
  }

  /**
   Against a consistent node, the existence check agrees with the account lookup
   except for records that hold zero lamports, which it reports as missing.
   */
  lemma AccountExistsVersusGetAccount(
    publicKey: PublicKey, fetch: PublicKey -> Option<AccountInfo>, balanceOf: PublicKey -> nat)
    requires ConsistentNode(publicKey, fetch, balanceOf)
    ensures AccountExists(publicKey, balanceOf)
        <==> Accounts.GetAccount(publicKey, fetch).Exists? && Accounts.GetAccount(publicKey, fetch).account.lamports.basisPoints > 0
  {
  }

  /** A present record with no lamports: the lookup finds it, the existence check denies it. */
  lemma AccountExistsMissesEmptyAccount()
    ensures var key := PublicKey([7]);
            var info := AccountInfo([1, 2, 3], false, 0, PublicKey([0]), None);
            var fetch := (k: PublicKey) => if k == key then Some(info) else None;
            var balanceOf := (k: PublicKey) => 0;
            Accounts.GetAccount(key, fetch).Exists? && !AccountExists(key, balanceOf)
  {
  }

  /** Options of a rent query. */
  datatype RentOptions = RentOptions(includesHeaderBytes: Option<bool>, commitment: Option<Commitment>)

  /** Whether the size asked for already counts the account header (`?? false` on a missing flag). */
  predicate IncludesHeader(options: Option<RentOptions>)
  {
    options.Some? && options.value.includesHeaderBytes == Some(true)
  }

  function CommitmentOf(options: Option<RentOptions>): Option<Commitment>
  {
    if options.Some? then options.value.commitment else None
  }

  /** The lamports charged per byte, derived from the rent of a bare header, rounded down. */
  function RentPerByte(headerRent: nat): (rate: nat)
    ensures rate * AccountHeaderSize <= headerRent < (rate + 1) * AccountHeaderSize
  {
    headerRent / AccountHeaderSize
  }

  /**
   The rent-exempt minimum for an account of `bytes` bytes. With header bytes
   included, the node is asked only for the empty-account rent, and the answer is
   its whole per-byte share times the size; otherwise the node's answer for the
   size is returned as it is.
   */
  function GetRent(bytes: nat, options: Option<RentOptions>, rentFor: (nat, Option<Commitment>) -> nat): (r: SolAmount)
    ensures IncludesHeader(options) ==>
      && r.basisPoints == RentPerByte(rentFor(0, CommitmentOf(options))) * bytes
      && r.basisPoints * AccountHeaderSize <= rentFor(0, CommitmentOf(options)) * bytes
      && (bytes > 0 ==> rentFor(0, CommitmentOf(options)) * bytes < (r.basisPoints + bytes) * AccountHeaderSize)
    ensures !IncludesHeader(options) ==> r.basisPoints == rentFor(bytes, CommitmentOf(options))
  {
    if IncludesHeader(options) then
      var headerRent := rentFor(0, CommitmentOf(options));
      var rate := RentPerByte(headerRent);
      ScaleFloorBounds(rate * AccountHeaderSize, headerRent, (rate + 1) * AccountHeaderSize, bytes);
      Lamports(rate * bytes)
    else
      Lamports(rentFor(bytes, CommitmentOf(options)))
  }

  /** Multiplying `lo <= x < hi` by a size keeps the lower bound, and the strict upper bound for a nonzero size. */
  lemma ScaleFloorBounds(lo: int, x: int, hi: int, bytes: nat)
    requires lo <= x < hi
    ensures lo * bytes <= x * bytes
    ensures bytes > 0 ==> x * bytes < hi * bytes
  {
  }

  /** With header bytes included, an empty account costs nothing. */
  lemma GetRentZeroBytes(options: Option<RentOptions>, rentFor: (nat, Option<Commitment>) -> nat)
    requires IncludesHeader(options)
    ensures GetRent(0, options, rentFor).basisPoints == 0
  {
  }

  /** With header bytes included, rent never decreases as the size grows. */
  lemma GetRentMonotone(b1: nat, b2: nat, options: Option<RentOptions>, rentFor: (nat, Option<Commitment>) -> nat)
    requires IncludesHeader(options) && b1 <= b2
    ensures GetRent(b1, options, rentFor).basisPoints <= GetRent(b2, options, rentFor).basisPoints
  {
    var rate := RentPerByte(rentFor(0, CommitmentOf(options)));
    assert rate * b2 == rate * b1 + rate * (b2 - b1);
  }

  /** With header bytes included, rent is linear: the rent of two sizes together is the sum of their rents. */
  lemma GetRentAdditive(b1: nat, b2: nat, options: Option<RentOptions>, rentFor: (nat, Option<Commitment>) -> nat)
    requires IncludesHeader(options)
    ensures GetRent(b1 + b2, options, rentFor).basisPoints
         == GetRent(b1, options, rentFor).basisPoints + GetRent(b2, options, rentFor).basisPoints
  {
    var rate := RentPerByte(rentFor(0, CommitmentOf(options)));
    assert rate * (b1 + b2) == rate * b1 + rate * b2;
  }

  /** With header bytes included, the node's rent for any nonzero size is never consulted. */
  lemma GetRentAsksOnlyForHeader(
    bytes: nat, options: Option<RentOptions>, f: (nat, Option<Commitment>) -> nat, g: (nat, Option<Commitment>) -> nat)
    requires IncludesHeader(options)
    requires f(0, CommitmentOf(options)) == g(0, CommitmentOf(options))
    ensures GetRent(bytes, options, f) == GetRent(bytes, options, g)
  {
  }
}
