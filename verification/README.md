# Response adaptation of the QuickNode-backed RPC client

This project models the response-adaptation layer of the custom RPC client
that `createQuicknodeRpc` in `src/lib/umi.server.ts` builds for the Umi
framework. The layer sits between a Solana node's raw replies and the typed
values the client returns. It covers:

- normalising a nullable account record into a present/absent `MaybeAccount`, including the rent epoch;
- mapping batched replies (`getAccounts`, `getProgramAccounts`) element by element;
- the existence check and the rent arithmetic, in integer lamports;
- the choice of error thrown when a submission or simulation fails;
- converting a confirmation strategy into the node library's wire form.

Every node reply is an input to the model. So are the base-58 encoder and
decoder, the transaction serialiser, the public-key adapter and the
program-error resolver (`context.programs.resolveError`). Each is a function
parameter whose internals are not modelled.

Modules, one per component:

- `RpcTypes` (`rpc_types.dfy`): keys, amounts, the node's account records, the client's account variants, transactions and errors.
- `Accounts` (`accounts.dfy`): `parseMaybeRentEpoch`, `parseAccount`, `parseMaybeAccount`, `getAccount`, `getAccounts`, `getProgramAccounts`.
- `Ledger` (`ledger.dfy`): `getBalance`, `accountExists`, `getRent`.
- `Submission` (`submission.dfy`): `sendTransaction`, `simulateTransaction` and their shared catch logic.
- `Confirmation` (`confirmation.dfy`): `parseConfirmStrategy` and its inverse.

Three points about the code's semantics:

- With header bytes included, the rent is `(rent(0) / ACCOUNT_HEADER_SIZE) * bytes`, and nothing is added for the header (`src/lib/umi.server.ts:266-270`). The size is taken to already count the header.
- `accountExists` is a nonzero-balance test (`src/lib/umi.server.ts:334-337`). `Ledger.AccountExistsMissesEmptyAccount` exhibits a present account that it reports as missing.
- `ACCOUNT_HEADER_SIZE` comes from the Umi library and is not defined in the source. The model uses that library's value, 128.

## Model

| member | source | states |
|---|---|---|
| Accounts.ParseMaybeRentEpoch | src/lib/umi.server.ts:136-138 | a missing or zero rent epoch becomes absent, every other epoch is kept; the result is never `Some(0)` |
| Accounts.ParseAccount | src/lib/umi.server.ts:190-199 | the account carries the address passed in; its data, executable flag, lamports and owner are the record's; its rent epoch is the record's, with 0 made absent |
| Accounts.ParseMaybeAccount | src/lib/umi.server.ts:140-157 | the result is present iff the record is non-null; its address is always the key passed in; when present, data, executable, lamports and owner are the record's and the rent epoch is the record's normalised by `ParseMaybeRentEpoch` |
| Accounts.ParseAccountRoundTrip | src/lib/umi.server.ts:190-199 | the parsed account carries the given address, and the node's record can be read back from it exactly iff its rent epoch is not 0 |
| Accounts.GetAccount | src/lib/umi.server.ts:166-172 | a single lookup is present iff the node returns a record for the key, and it answers for that key; when present, it carries that record's data, executable flag, lamports, owner and normalised rent epoch |
| Accounts.GetAccounts | src/lib/umi.server.ts:181-188 | the batch has one element per node reply, and element i is the key-i record parsed under key i |
| Accounts.GetAccountsOrder | src/lib/umi.server.ts:181-188 | for a full reply the batch has as many elements as keys, element i answers for key i, and it is present iff reply i is non-null |
| Accounts.GetAccountsAgreesWithGetAccount | src/lib/umi.server.ts:166-188 | a batched reply that agrees with the single lookups gives, element by element, what the single lookups give |
| Accounts.GetAccountsSplit | src/lib/umi.server.ts:181-188 | fetching two consecutive batches gives the same answers as fetching them as one batch |
| Accounts.GetProgramAccountsAsWritten | src/lib/umi.server.ts:208-216 | the code as written returns one account per reply entry, in order, with every address set to the program id |
| Accounts.GetProgramAccounts | src/lib/umi.server.ts:190-216 | the corrected scan returns one account per reply entry, in order, each under its own address |
| Accounts.ProgramAccountsAsWrittenCorrectIff | src/lib/umi.server.ts:208-216 | the as-written scan agrees with the corrected one iff every entry's address is the program id |
| Accounts.ProgramAccountsAsWrittenLosesAddress | src/lib/umi.server.ts:213 | a one-entry reply for another address is reported under the program id |
| Accounts.GetProgramAccountsRoundTrip | src/lib/umi.server.ts:190-216 | without zero rent epochs, the node's reply is recovered from the corrected scan, address and record |
| Ledger.GetBalance | src/lib/umi.server.ts:237-241 | the amount is the node's balance for the key, in lamports, and it is zero iff that balance is 0 |
| Ledger.AccountExists | src/lib/umi.server.ts:334-337 | an address exists iff its balance is nonzero |
| Ledger.AccountExistsVersusGetAccount | src/lib/umi.server.ts:334-337 | against a node whose balances match its records, the existence check is true iff the lookup finds a record with a nonzero balance |
| Ledger.AccountExistsMissesEmptyAccount | src/lib/umi.server.ts:334-337 | a present record with zero lamports is found by the lookup but denied by the existence check |
| Ledger.RentPerByte | src/lib/umi.server.ts:267-268 | the per-byte rate is the largest whole rate whose header-sized cost does not exceed the header rent |
| Ledger.GetRent | src/lib/umi.server.ts:261-273 | with header bytes, the rent is the per-byte rate times the size, at most the proportional share of the header rent and less than one lamport per byte below it; otherwise it is the node's rent for the size |
| Ledger.GetRentZeroBytes | src/lib/umi.server.ts:266-270 | with header bytes, a size of 0 costs 0 |
| Ledger.GetRentMonotone | src/lib/umi.server.ts:266-270 | with header bytes, rent never decreases as the size grows |
| Ledger.GetRentAdditive | src/lib/umi.server.ts:266-270 | with header bytes, the rent of a sum of sizes is the sum of their rents |
| Ledger.GetRentAsksOnlyForHeader | src/lib/umi.server.ts:266-270 | with header bytes, only the node's rent for 0 bytes affects the result |
| Submission.SelectError | src/lib/umi.server.ts:383-392 | a resolved program error is thrown iff the caught error is an `Error` with logs and the resolver returns one; otherwise the caught error is thrown unchanged |
| Submission.SelectErrorWithoutLogs | src/lib/umi.server.ts:384-391 | without logs, the resolver is irrelevant and the caught error itself is thrown |
| Submission.SelectErrorUnresolved | src/lib/umi.server.ts:384-391 | when the resolver recognises nothing, the caught error is thrown unchanged |
| Submission.SendTransaction | src/lib/umi.server.ts:376-393 | a signature is returned iff the node accepts and the signature decodes, and it is the decoded signature; a rejection throws the selected error; a signature that fails to decode throws the decoder's error unchanged; a resolved error arises only from a rejection with logs |
| Submission.SendTransactionSignatureRoundTrip | src/lib/umi.server.ts:378-382 | when decoding inverts encoding, the returned signature encodes back to the node's text |
| Submission.SimulateTransaction | src/lib/umi.server.ts:402-425 | the node's simulation result is returned unchanged, and a failure throws the selected error; the request uses base-64 and an empty account list when none is given |
| Submission.SendAndSimulateThrowAlike | src/lib/umi.server.ts:376-425 | a submission and a simulation failing with the same node error throw the same thing |
| Confirmation.ParseConfirmStrategy | src/lib/umi.server.ts:428-443 | the wire strategy keeps the variant tag and carries the encoded signature |
| Confirmation.ParseConfirmStrategyRoundTrip | src/lib/umi.server.ts:428-443 | when decoding inverts encoding and the key adapter inverts on the nonce account, the wire strategy reads back to the original signature and strategy |
| Confirmation.BlockhashStrategyCopied | src/lib/umi.server.ts:432-437 | a blockhash strategy's fields are copied unchanged, and the key adapter is not consulted |
| Confirmation.DurableNonceStrategyConverted | src/lib/umi.server.ts:438-442 | a nonce strategy keeps its slot and nonce value, and its nonce account key is converted |

## Left out

- Network I/O: every `_solana.connection` call is replaced by its reply, given as an input.
- Key engine (`createWeb3JsEddsa`): signing, verification, curve checks, address derivation and keypair construction only delegate to external libraries whose code is not part of this model. The file and config loaders only throw.
- Base-58: encoding and decoding are an opaque pair of functions. A decode failure is modelled as the `Error` the decoder throws.
- `toWeb3JsTransaction`, used by `simulateTransaction`, is not imported in the file. The model takes the transaction's conversion as a parameter.
- `getTransaction`, `getSignatureStatuses`, `airdrop`, `confirmTransaction` and `call` are left out. They are unfinished or do not compile: no return on success, a bare signature, `await ;`, a call with no arguments, and an unconditional throw.
- `getEndpoint`, `getCluster`, `getSlot`, `getLatestBlockhash`, `getGenesisHash` and `getBlockTime` are left out. They pass a node value through, or a conversion whose code is not visible.
- Plugin wiring (`createUmiServer`, the plugin objects) and the HTTP route are left out. They are composition and I/O only.
- Floating point: JavaScript numbers (lamports, rent epochs, sizes) are modelled as unbounded integers. Precision loss above 2^53 and `NaN` are not modelled.
- `convertPublicKey` (`src/lib/umi.server.ts:121-123`) is not modelled. It is applied to every address before `getAccount`, `getAccounts`, `getProgramAccounts` and `getBalance` ask the node (lines 167, 182, 209, 238). The model keys the node's reply directly by the client's key. This assumes the conversion never throws and keeps the address. The code builds the node library's key from the key's `__publicKey` field, not from the key itself, and that constructor can throw. Whether the field is present at run time depends on the Umi library's key representation, which is not part of this model.
- Owner keys: the round trip of the owner key through its base-58 text is taken to be the identity.
- Accounts.GetAccounts: requires the node's reply to be no longer than the key list. In JavaScript a longer reply would pair its extra records with an `undefined` key; the node's batched call returns one entry per requested key.
- Ledger.GetRent: sizes are whole and non-negative. `BigInt` of a fractional size throws, and a negative size is not modelled.
- Submission.SendTransaction: the serialiser is taken to be total. A serialiser failure would also be caught and rethrown unchanged.
- Simulation leaving ledger state untouched cannot be stated here: the model is pure and holds no ledger state.

## Findings

| source | as written | input that shows it | evidently intended | confidence | as-written member | corrected member |
|---|---|---|---|---|---|---|
| src/lib/umi.server.ts:213 | each scanned account is parsed under `programId`, so every returned account's `publicKey` is the program's address | a reply with one entry at address `[2]` for program `[1]` is returned with `publicKey` `[1]` | parse each entry under its own `pubkey` from the reply, since an account's `publicKey` is its address | high; not executed | Accounts.GetProgramAccountsAsWritten | Accounts.GetProgramAccounts |
