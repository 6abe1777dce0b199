# Candy-machine minting hook, modelled in Dafny

This project models the self-contained rules in `useCandyMachine`. That hook is the React hook of an NFT "candy machine" minting page. It reads the sale state of a deployed candy-machine program, lists earlier mints, and submits a mint transaction from the connected wallet. Most of the hook calls into the Solana, Anchor, SPL Token and Metaplex SDKs. Here every SDK value is opaque data and every SDK or RPC call is an input. What remains is modelled and proved:

- `JsString`: the JavaScript built-ins the logic depends on. It models `String.prototype.indexOf` and the truthiness of numbers and optional strings.
- `Solana`: public keys, key-list entries (`AccountMeta`) and instructions, as data.
- `MetadataLayout`: the fixed-width fields of a Token Metadata account, and the byte offset of the creator filter.
- `MachineState`: the snapshot returned by `getCandyMachineState`.
- `HashTable`: the loop of `fetchHashTable`, as a method proved against a filter-map specification.
- `MintInstructions`: the derivation seed lists, the associated-token-account instruction, the four-instruction mint batch and the `mintNft` accounts record.
- `MintError`: the catch block of `mintToken`, which turns a caught error into a warning text.
- `CandyHook`: the `isMinting` flag and `mintToken`, as a class. A ghost event history is tied to the flag.

All files are verified together (`dafny verify *.dfy`); there is no `include`.

Notes on the code:

- `itemsRemaining` has no floor at zero. It is negative when more items were redeemed than are available.
- The insufficient-funds message is never produced by the code (see Findings).
- `fetchHashTable` does no URL de-duplication and no off-chain JSON fetch.
- The catch block of `mintToken` catches every failure inside its `try`, not only a failed submission. Among them are the rent lookup, the IDL fetch, a missing IDL and the `mintNft` submission, which the model covers. The same `try` also awaits the three address derivations (lines 120-122) and builds the `Connection` (124), the provider (169) and the `Program` (175); the model treats these as never failing.

How the code's details are modelled:

- The Metadata record is built with `hash` as its address (line 81). Only the account data is decoded, so `decode` takes the account info alone.
- The memcmp expression lists the uri before the symbol. The Token Metadata program stores the symbol first, and `MetadataLayout.Header` follows the account's order. Both fields come before the creators, so the offset is the same either way.
- `MintLayout.span` is fixed at 82, the size of an SPL Token mint account. It is a constant of the SPL Token library, not of the modelled files.

## Model

| member | source | states |
|---|---|---|
| `JsString.IndexOf` | src/hooks/useCandyMachine.ts:212-216 | `indexOf` is -1 exactly when the pattern does not occur. It is 0 exactly when the string starts with the pattern. Otherwise it is the position of the first occurrence. |
| `JsString.IndexOfFrom` | src/hooks/useCandyMachine.ts:212-216 | The search from position k returns the first occurrence at or after k, or -1 when there is none. |
| `MetadataLayout.CreatorFilterOffset` | src/hooks/useCandyMachine.ts:54-67 | The filter offset 1+32+32+4+32+4+200+4+10+2+1+4+0·34 is 326, and `MAX_CREATOR_LEN` is 34. |
| `MetadataLayout.HeaderSize` | src/hooks/useCandyMachine.ts:54-66 | The fields before the creator entries take up exactly the offset expression with creator index 0. |
| `MetadataLayout.CreatorEntrySize` | src/hooks/useCandyMachine.ts:25 | A creator entry (address, verified flag, share) is `MAX_CREATOR_LEN` = 32+1+1 bytes. |
| `MetadataLayout.CreatorAddressOffset` | src/hooks/useCandyMachine.ts:54-67 | In an account with n creators, creator i < n has its address field at exactly the offset the expression gives with i in place of 0. For i = 0 this is the filter's offset. |
| `MachineState.GetCandyMachineState` | src/hooks/useCandyMachine.ts:262-302 | The call rejects exactly when the IDL fetch rejects, or an IDL was found and the account fetch rejects; it rejects with that error. The result is `null` exactly when the IDL is missing. Otherwise it copies available, redeemed and go-live. The date text is formatted from go-live × 1000 ms. itemsRedeemed + itemsRemaining = itemsAvailable with no clamp: remaining is zero exactly when all items are redeemed, and negative exactly when redeemed exceeds available. |
| `HashTable.CollectMints` | src/hooks/useCandyMachine.ts:74-86 | The result has at most one entry per matched account. Every entry is a full record when `metadataEnabled` is true and a bare mint address when it is false. |
| `HashTable.FetchHashTable` | src/hooks/useCandyMachine.ts:47-87 | The indexed loop returns exactly `CollectMints`. Its input is the accounts that match the creator filter at offset 326 for `hash`. |
| `HashTable.CollectMintsIsOrderedSelection` | src/hooks/useCandyMachine.ts:74-86 | The result is a selection of the matched accounts in their original order. The chosen positions strictly increase. They include every account whose info lookup returns a value, and only such accounts. Entry k is made from the decoded metadata of the k-th chosen account. |
| `HashTable.CollectMintsComplete` | src/hooks/useCandyMachine.ts:76-83 | The result has one entry per matched account if and only if every info lookup returns a value. |
| `HashTable.MintOnlyIsMintOfFull` | src/hooks/useCandyMachine.ts:82 | With `metadataEnabled` false, the result is the list of `mint` fields of the result with it true. |
| `MintInstructions.GetMetadata` | src/hooks/useCandyMachine.ts:89-96 | The metadata account is derived under the Token Metadata program from the seeds ["metadata", Token Metadata program, mint]. |
| `MintInstructions.GetTokenWallet` | src/hooks/useCandyMachine.ts:107-114 | The token wallet is derived under the ATA program from the seeds [wallet, token program, mint]. |
| `MintInstructions.GetMasterEdition` | src/hooks/useCandyMachine.ts:98-105 | The master edition is derived under the Token Metadata program from the seeds of `getMetadata` with "edition" appended. |
| `MintInstructions.CreateAssociatedTokenAccountInstruction` | src/hooks/useCandyMachine.ts:230-259 | There are exactly 7 keys: payer, ATA, wallet, mint, system program, token program, rent sysvar. Only key 0 signs and only keys 0 and 1 are writable. The data is empty and the program is the ATA program. |
| `MintInstructions.AtaInstructionRoles` | src/hooks/useCandyMachine.ts:236-252 | The signer keys of the instruction are exactly [payer]. The writable keys are exactly [payer, ATA]. |
| `MintInstructions.MintBatch` | src/hooks/useCandyMachine.ts:145-167 | There are four instructions. (1) Create the mint account with `MintLayout.span` space and the rent as lamports, owned by SPL Token. (2) Initialise that same account with 0 decimals and the wallet as both authorities. (3) Create the wallet's ATA. (4) Mint exactly 1 of that mint into the account that (3) creates, signed by the mint authority. |
| `MintInstructions.BuildMintRequest` | src/hooks/useCandyMachine.ts:119-167 | The only extra signer is the new mint. The wallet is payer, mint authority and update authority. Metadata and master edition are derived from the mint. The candy-machine id and treasury are the environment strings, or '' when unset. The token goes to the address derived from the seeds [wallet, token program, mint] under the ATA program. The config account, the Token Metadata, SPL Token and System programs and the rent and clock sysvars are passed as themselves. |
| `MintError.ClassifyMintError` | src/hooks/useCandyMachine.ts:203-227 | When `msg` is truthy, code 311 gives "SOLD OUT!", code 312 gives the not-started text, and any other code gives `msg`, whatever `message` holds. When `msg` is falsy, an absent `message` throws a TypeError. Otherwise the result is "SOLD OUT!" exactly when `message` starts with "0x138" (or is that text); it is `message` itself, or the default text when `message` is empty. The insufficient-funds text comes out only when the error itself carried it. |
| `MintError.ClassifyMintErrorIntended` | src/hooks/useCandyMachine.ts:211-217 | Corrected reading with presence tests. A message containing 0x137 (and not 0x138) gives "SOLD OUT!". A message containing 0x135 (and neither earlier code) gives the insufficient-funds text. A message containing 0x138 is kept. |
| `MintError.AsWrittenMissesInsufficientFunds` | src/hooks/useCandyMachine.ts:211-217 | For the error `{message: "0x135"}`, the code as written warns "0x135", while the intended reading warns about insufficient funds. |
| `CandyHook.AfterIsInFlight` | src/hooks/useCandyMachine.ts:116-209 | Over any history of starts, notifications and caught errors, `isMinting` is true exactly when some mint has started and no caught error or error-free status notification has come since. |
| `CandyHook.MintHook.constructor` | src/hooks/useCandyMachine.ts:45 | The flag starts false and the history starts empty. |
| `CandyHook.MintHook.StartMint` | src/hooks/useCandyMachine.ts:118 | The flag is set and a start is recorded. |
| `CandyHook.MintHook.FinishMint` | src/hooks/useCandyMachine.ts:119-228 | The rest of `mintToken` once its awaits have settled, with any events that arrived meanwhile already in the history. If the rent lookup, the IDL fetch or the submission throws, or the IDL is missing ("Idl doesnt exist!"), the catch clears the flag and the result is that error, in that order of precedence. The attempt carries the warning `ClassifyMintError` gives for it. Otherwise the request `BuildMintRequest` describes is submitted, and the flag and history are unchanged. |
| `CandyHook.MintHook.MintToken` | src/hooks/useCandyMachine.ts:116-228 | A call with no event arriving between its steps. A submission leaves the flag set after one start, and what is submitted is the request `BuildMintRequest` describes, with the returned signature. A failure leaves the flag clear after a start and a caught error. The error is the first failure in the order rent lookup, IDL fetch, missing IDL, submission, and the attempt carries the warning `ClassifyMintError` gives for it. |
| `CandyHook.MintHook.CatchError` | src/hooks/useCandyMachine.ts:203-227 | Every caught error clears the flag, and the attempt carries the warning the classifier gives for that error (a TypeError outcome rejects `mintToken`'s promise). |
| `CandyHook.MintHook.OnSignatureNotification` | src/hooks/useCandyMachine.ts:188-202 | A status notification whose `result.err` is absent clears the flag. Any other notification leaves it unchanged. |

## Left out

- Program-address derivation (`findProgramAddress`) is the parameter `derive`. Its hashing and bump search are not modelled.
- The generated keypair is the input `mint`. The rent lookup, the IDL fetches, the candy-machine account fetch and `program.rpc.mintNft` are `Reply` inputs (a value or the error they reject with), because they are remote calls.
- HashTable.FetchHashTable: a rejected `getProgramAccounts` or `getParsedAccountInfo`, or a `Metadata` decoder that throws, rejects the whole call. The model has no such outcome: these three are total function parameters.
- `getProgramAccounts` is a function parameter: which accounts the RPC node matches against the memcmp filter is its business. `getParsedAccountInfo` and the Metaplex `Metadata` decoder are also function parameters.
- The encodings of the SPL Token `createAccount`, `initMint` and `mintTo` instructions are recorded only by their builder arguments, because the SDK builds them.
- The `onSignatureWithOptions` subscription is asynchronous and has no timeout. Only its callback's effect on the flag is modelled.
- `new Date(ms).toUTCString()` is the parameter `formatUtc`, because it is date-library formatting.
- Console logging is not modelled. The warning text is computed, but not emitted with `console.warn`.
- CandyHook.MintHook.MintToken: collapses the awaits of one call into a single step, so no other event falls between its start and its end. Overlapping calls and notifications that arrive mid-call are modelled by calling `StartMint`, any other operations, then `FinishMint`, and at the level of event histories by `After`/`AfterIsInFlight`. The button is never disabled while minting, so a second call can start at any await.
- React's deferred state updates are left out: `setIsMinting` is an immediate assignment to the field.
- MachineState.GetCandyMachineState: treats the `BN.toNumber()` conversions as exact. The bn.js failure or precision loss for counters beyond 2^53 is not modelled.
- MintError.ClassifyMintError: a thrown value that is not an object is not modelled. For `undefined` or `null`, line 207 itself would throw before the flag is cleared. A caught error is always seen through its `msg`, `message` and `code` properties.
- The configuration account's `new PublicKey(...)` at module load is not modelled; the account is an input.
- src/hooks/useWallet.ts is not part of this model: its wallet-provider detection, `alert` and load-event listener are browser I/O.
- src/services/solana.ts is not part of this model: it only wraps the Anchor `Provider` and `Connection` constructors.
- src/components/ is not part of this model: the components are React rendering with no logic of their own.

## Findings

| source | as written | input that shows it | evidently intended | confidence | as-written member | corrected member |
|---|---|---|---|---|---|---|
| src/hooks/useCandyMachine.ts:212-216 | Each `error.message.indexOf(code)` result is used as a truth value. -1 (absent) is truthy and 0 (at the start) is falsy. Only a message starting with "0x138" is rewritten, and it becomes "SOLD OUT!". The sold-out branch for 0x137 is reached only then, and the insufficient-funds branch never. | `{ message: "0x135" }` (or any message containing "custom program error: 0x135") warns with the message unchanged | Each test is `indexOf(code) !== -1`. A message with 0x137 reports sold out, and one with 0x135 reports insufficient funds. | high; not executed | `MintError.AsWrittenMissesInsufficientFunds` | `MintError.ClassifyMintErrorIntended` |
