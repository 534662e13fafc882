/**
 Normalisation of the node's account records into the client's account
 variants, for single lookups, batched lookups and program-account scans.
 The node's replies are inputs: a batched reply is a sequence, a single
 lookup is a function from address to (possibly missing) record.
 */
module Accounts {
  import opened RpcTypes

  /** JavaScript truthiness of a `number | undefined`: absent and zero are falsy. */
  predicate Truthy(val: Option<int>)
  {
    val.Some? && val.value != 0
  }

  /** Converts the node's optional rent epoch; a falsy epoch becomes absent. */
  function ParseMaybeRentEpoch(val: Option<int>): (r: Option<int>)
    ensures r == (if val == Some(0) then None else val)
    ensures r != Some(0)
  {
    if Truthy(val) then Some(val.value) else None
  }

  /** Builds the client's account from a record, under the address given by the caller. */
  function ParseAccount(publicKey: PublicKey, info: AccountInfo): (a: RpcAccount)
    ensures a.publicKey == publicKey
    ensures a.data == info.data && a.executable == info.executable && a.owner == info.owner
    ensures a.lamports.basisPoints == info.lamports
    ensures a.rentEpoch == (if info.rentEpoch == Some(0) then None else info.rentEpoch)
  {
    RpcAccount(
      publicKey,
      info.data,
      info.executable,
      Lamports(info.lamports),
      info.owner,
      ParseMaybeRentEpoch(info.rentEpoch))
  }

  /** Recovers the node's record from a client account; the inverse of `ParseAccount`. */
  function ToAccountInfo(a: RpcAccount): AccountInfo
    requires a.lamports.basisPoints >= 0
  {
    AccountInfo(a.data, a.executable, a.lamports.basisPoints, a.owner, a.rentEpoch)
  }

  /** Tags a possibly missing record as present or absent, keeping the address asked for. */
  function ParseMaybeAccount(publicKey: PublicKey, info: Option<AccountInfo>): (r: MaybeAccount)
    ensures r.Exists? <==> info.Some?
    ensures r.PublicKey() == publicKey
    ensures r.Exists? ==>
      && r.account.data == info.value.data
      && r.account.executable == info.value.executable
      && r.account.lamports.basisPoints == info.value.lamports
      && r.account.owner == info.value.owner
      && r.account.rentEpoch == ParseMaybeRentEpoch(info.value.rentEpoch)
  {
    if info.Some? then Exists(ParseAccount(publicKey, info.value)) else Absent(publicKey)
  }

  /** A single lookup: `fetch` is the node's answer for an address. */
  function GetAccount(publicKey: PublicKey, fetch: PublicKey -> Option<AccountInfo>): (r: MaybeAccount)
    ensures r.Exists? <==> fetch(publicKey).Some?
    ensures r.PublicKey() == publicKey
    ensures r.Exists? ==>
      && r.account.data == fetch(publicKey).value.data
      && r.account.executable == fetch(publicKey).value.executable
      && r.account.lamports.basisPoints == fetch(publicKey).value.lamports
      && r.account.owner == fetch(publicKey).value.owner
      && r.account.rentEpoch == ParseMaybeRentEpoch(fetch(publicKey).value.rentEpoch)
  {
    ParseMaybeAccount(publicKey, fetch(publicKey))
  }

  /**
   A batched lookup: `infos` is the node's reply, one entry per requested key,
   and entry `i` is paired with `publicKeys[i]`.
   */
  function GetAccounts(publicKeys: seq<PublicKey>, infos: seq<Option<AccountInfo>>): (r: seq<MaybeAccount>)
    requires |infos| <= |publicKeys|
    ensures |r| == |infos|
    ensures forall i :: 0 <= i < |r| ==> r[i] == ParseMaybeAccount(publicKeys[i], infos[i])
    decreases |infos|
  {
    if infos == [] then []
    else [ParseMaybeAccount(publicKeys[0], infos[0])] + GetAccounts(publicKeys[1..], infos[1..])
  }

  /** Order and tagging of a batch: element `i` answers for key `i` and is present iff its record is. */
  lemma GetAccountsOrder(publicKeys: seq<PublicKey>, infos: seq<Option<AccountInfo>>)
    requires |infos| == |publicKeys|
    ensures |GetAccounts(publicKeys, infos)| == |publicKeys|
    ensures forall i :: 0 <= i < |publicKeys| ==>
      && GetAccounts(publicKeys, infos)[i].PublicKey() == publicKeys[i]
      && (GetAccounts(publicKeys, infos)[i].Exists? <==> infos[i].Some?)
  {
    var r := GetAccounts(publicKeys, infos);
    forall i | 0 <= i < |publicKeys|
      ensures r[i].PublicKey() == publicKeys[i] && (r[i].Exists? <==> infos[i].Some?)
    {
      assert r[i] == ParseMaybeAccount(publicKeys[i], infos[i]);
    }
  }

  /**
   A batch whose reply agrees with the single-lookup answers yields, element by
   element, exactly what the individual lookups yield.
   */
  lemma GetAccountsAgreesWithGetAccount(
    publicKeys: seq<PublicKey>, infos: seq<Option<AccountInfo>>, fetch: PublicKey -> Option<AccountInfo>)
    requires |infos| == |publicKeys|
    requires forall i :: 0 <= i < |publicKeys| ==> infos[i] == fetch(publicKeys[i])
    ensures GetAccounts(publicKeys, infos) == seq(|publicKeys|, i requires 0 <= i < |publicKeys| => GetAccount(publicKeys[i], fetch))
  {
  }

  /** Splitting a batch into two consecutive batches does not change the answers. */
  lemma GetAccountsSplit(
    p1: seq<PublicKey>, i1: seq<Option<AccountInfo>>, p2: seq<PublicKey>, i2: seq<Option<AccountInfo>>)
    requires |i1| == |p1| && |i2| <= |p2|
    ensures GetAccounts(p1 + p2, i1 + i2) == GetAccounts(p1, i1) + GetAccounts(p2, i2)
  {
    var whole := GetAccounts(p1 + p2, i1 + i2);
    var parts := GetAccounts(p1, i1) + GetAccounts(p2, i2);
    assert |whole| == |parts|;
    forall k | 0 <= k < |whole| ensures whole[k] == parts[k] {
      if k >= |i1| {
        assert (p1 + p2)[k] == p2[k - |p1|] && (i1 + i2)[k] == i2[k - |i1|];
      }
    }
  }

  /**
   A program-account scan as the code is written: every entry is parsed under
   the program's address, not under the entry's own address.
   */
  function GetProgramAccountsAsWritten(programId: PublicKey, reply: seq<KeyedAccountInfo>): (r: seq<RpcAccount>)
    ensures |r| == |reply|
    ensures forall i :: 0 <= i < |r| ==> r[i].publicKey == programId
    ensures forall i :: 0 <= i < |r| ==> r[i] == ParseAccount(programId, reply[i].account)
  {
    if reply == [] then []
    else [ParseAccount(programId, reply[0].account)] + GetProgramAccountsAsWritten(programId, reply[1..])
  }

  /** A program-account scan that keeps each entry's own address. */
  function GetProgramAccounts(reply: seq<KeyedAccountInfo>): (r: seq<RpcAccount>)
    ensures |r| == |reply|
    ensures forall i :: 0 <= i < |r| ==> r[i].publicKey == reply[i].pubkey
    ensures forall i :: 0 <= i < |r| ==> r[i] == ParseAccount(reply[i].pubkey, reply[i].account)
  {
    if reply == [] then []
    else [ParseAccount(reply[0].pubkey, reply[0].account)] + GetProgramAccounts(reply[1..])
  }

  /** The as-written scan reports the right addresses iff every entry lives at the program's own address. */
  lemma ProgramAccountsAsWrittenCorrectIff(programId: PublicKey, reply: seq<KeyedAccountInfo>)
    ensures GetProgramAccountsAsWritten(programId, reply) == GetProgramAccounts(reply)
        <==> forall i :: 0 <= i < |reply| ==> reply[i].pubkey == programId
  {
    var w := GetProgramAccountsAsWritten(programId, reply);
    var c := GetProgramAccounts(reply);
    if w == c {
      forall i | 0 <= i < |reply| ensures reply[i].pubkey == programId {
        assert w[i].publicKey == c[i].publicKey;
      }
    }
  }

  /** A one-entry scan whose entry is not the program itself is reported under the wrong address. */
  lemma ProgramAccountsAsWrittenLosesAddress()
    ensures var programId := PublicKey([1]);
            var entry := KeyedAccountInfo(PublicKey([2]), AccountInfo([], false, 0, programId, None));
            GetProgramAccountsAsWritten(programId, [entry])[0].publicKey != entry.pubkey
  {
  }

  /** Parsing loses nothing but a zero rent epoch: the record comes back iff its epoch is not 0. */
  lemma ParseAccountRoundTrip(publicKey: PublicKey, info: AccountInfo)
    ensures ParseAccount(publicKey, info).publicKey == publicKey
    ensures ToAccountInfo(ParseAccount(publicKey, info)) == info <==> info.rentEpoch != Some(0)
  {
  }

  /** A corrected scan can be turned back into the node's reply when no entry has a zero rent epoch. */
  lemma {:induction false} GetProgramAccountsRoundTrip(reply: seq<KeyedAccountInfo>)
    requires forall i :: 0 <= i < |reply| ==> reply[i].account.rentEpoch != Some(0)
    ensures var r := GetProgramAccounts(reply);
            forall i :: 0 <= i < |r| ==> KeyedAccountInfo(r[i].publicKey, ToAccountInfo(r[i])) == reply[i]
  {
    var r := GetProgramAccounts(reply);
    forall i | 0 <= i < |r| ensures KeyedAccountInfo(r[i].publicKey, ToAccountInfo(r[i])) == reply[i] {
      ParseAccountRoundTrip(reply[i].pubkey, reply[i].account);
    }
  }
}
