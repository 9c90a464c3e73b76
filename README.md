# Vault watch-list bot: a Dafny model

This project models the Gelato Web3 Function `src/web3-functions/my-web3-function/index.ts`.
On every invocation the bot keeps a watch list of option-registry vault IDs up to date and
decides whether the executor should adjust collateral. One run does the following:

1. It recovers the cursor from storage: `lastQueryBlock`, `activeVaultIds` and
   `previousVaultCount`. If any of the three is falsy, it starts over from the registry's
   deploy block with an empty list and a count of 0.
2. It queries the controller's `VaultSettled` and `VaultLiquidated` events from
   `lastQueryBlock` on, then writes the current block as the new `lastQueryBlock`.
3. It keeps the IDs of settled vaults owned by the registry. It pushes the liquidated IDs
   as one nested array element.
4. It reads `vaultCount` and takes the IDs created since the last run. It writes
   `previousVaultCount`, appends the new IDs to the list, filters out the retired IDs and
   writes `activeVaultIds`.
5. If the list is non-empty it calls the multicall's `checkVaults` and drops the `0`
   entries. It returns `canExec` (whether anything remains) with that list as `callData`.

Modules:
- `Wrappers`: `Option`.
- `JsArray`: the JavaScript array built-ins the bot uses (`filter`, `map`, `keys`,
  `slice`), with facts about membership, order and concatenation.
- `Encoding`: `toString` on a number (decimal digits, proved to read back) and
  `JSON.stringify` of an ID list.
- `WatchList`: the pure steps: recovery with the truthiness rule, harvesting, the new-ID
  range, reconciliation, zero-stripping and the decision.
- `Web3Function`: the chain's answers as a `Ledger` value, the key-value store as a
  `Storage` class (a map plus a ghost log of writes in order), the specification function
  `Run`, and the imperative `OnRun` proved equal to it. The store's keys are the three
  names the bot uses (`lastQueryBlock`, `activeVaultIds`, `previousVaultCount`), written as
  an enumeration `StorageKey`: the bot never reads or writes any other key.

Behaviour of the code as written, kept by the model:
- A stored count of `0` is falsy, so it resets the cursor like missing data does (`RecoverCases`,
  `NextRunRecovers`).
- The liquidated IDs are `push`ed as one array element, and `includes` on a number never
  matches an array. So liquidations never remove anything from the watch list
  (`LiquidationsIgnored`). Only settlements retire vaults.
- `lastQueryBlock` is written before the vault count is read. A rejected `vaultCount()`
  call therefore leaves the cursor advanced while the count and the list are unchanged
  (`RunWriteOrder`). A crash-safe ordering would write the scan position last, and a
  stricter recovery would test presence instead of truthiness. The code does neither, and
  the model follows the code.
- A negative stored count (only possible if storage is corrupted) makes `slice` count from
  the end of the range. With `-1` that range includes ID 0 (`AdditionalVaultIdsRange`).

## Model

| member | source | states |
|---|---|---|
| WatchList.RecoverCases | src/web3-functions/my-web3-function/index.ts:30-48 | The cursor is reset exactly when the parsed block is NaN or 0, `JSON.parse` of the stored list throws or yields a falsy value, or the parsed count is NaN or 0. A reset cursor is (deploy block, [], 0). Otherwise the three parsed values are kept unchanged. A count of 0 never survives recovery. |
| WatchList.Recover | src/web3-functions/my-web3-function/index.ts:30-48 | State recovery with the `??` defaults and the truthiness reset. Its contract is `RecoverCases` (reset exactly on a falsy value, parsed values kept otherwise), with `MissingNumberResets` and `MissingListKeepsNumbers` for absent keys. |
| WatchList.MissingNumberResets | src/web3-functions/my-web3-function/index.ts:32-48 | A missing `lastQueryBlock` or `previousVaultCount` key defaults to "0", which parses to the falsy 0 and resets the cursor. |
| WatchList.MissingListKeepsNumbers | src/web3-functions/my-web3-function/index.ts:36-48 | A missing `activeVaultIds` key alone does not reset: the "[]" default is a truthy empty array, and the stored block and count are kept. |
| WatchList.SettledIdsMembers | src/web3-functions/my-web3-function/index.ts:77-81 | An ID is harvested from the settled events exactly when some event whose `accountOwner` is the registry carries it. |
| WatchList.SettledIds | src/web3-functions/my-web3-function/index.ts:77-81 | The registry's settled vault IDs in event order. Contract: `SettledIdsMembers`, `SettledIdsAppend` and `SettledIdsSingle`. |
| WatchList.LiquidatedIds | src/web3-functions/my-web3-function/index.ts:82-87 | The registry's liquidated vault IDs, filtered and mapped the same way. Contract: `LiquidationsIgnored` and `LiquidatedIdStaysWatched`, which show they never affect the list. |
| WatchList.SettledIdsAppend | src/web3-functions/my-web3-function/index.ts:78-80 | Harvesting two event batches one after the other gives the concatenation of their IDs, in event order. |
| WatchList.SettledIdsSingle | src/web3-functions/my-web3-function/index.ts:79-80 | An event owned by another registry contributes nothing. An event owned by the registry contributes its vault ID. |
| WatchList.RetiredIdsSpec | src/web3-functions/my-web3-function/index.ts:76-88 | `settledEventIds` starts with exactly the registry's settled IDs as numbers, in event order. When there is at least one liquidation event it has one extra element, placed last: the nested array of liquidated IDs. A number is in it exactly when it is a settled ID. |
| WatchList.RetiredIds | src/web3-functions/my-web3-function/index.ts:76-88 | `settledEventIds` with the nested `push`. Contract: `RetiredIdsSpec`. |
| WatchList.AdditionalVaultIdsRange | src/web3-functions/my-web3-function/index.ts:95-97 | For a count `prev >= 0` the new IDs are prev+1, ..., vaultCount, ascending, and there are none when vaultCount <= prev. A stored -1 gives 0 .. vaultCount. A smaller negative count gives a tail of that range. The result is always strictly increasing. |
| WatchList.AdditionalVaultIds | src/web3-functions/my-web3-function/index.ts:95-97 | `Array(vaultCount + 1).keys()` sliced at `previousVaultCount + 1`. Contract: `AdditionalVaultIdsRange` and `AdditionalVaultIdsMembers`. |
| JsArray.Filter | src/web3-functions/my-web3-function/index.ts:104 | `Array.prototype.filter`, also used at lines 79, 85 and 115. It keeps only elements that pass and never lengthens the array (its ensures). `FilterMembers`, `FilterMultiset`, `FilterIsSubsequence` and `FilterAppend` state which elements survive, how many copies, their order, and how it splits over concatenation. |
| JsArray.Map | src/web3-functions/my-web3-function/index.ts:80 | `.map`, also used at lines 86 and 115: same length, with element i equal to the function applied to input element i (its ensures). `MapAppend` splits it over concatenation. |
| Wrappers.Option.GetOr | src/web3-functions/my-web3-function/index.ts:33-37 | `??` on the result of `storage.get`: the stored value, or the default when the key is absent. Contract: `MissingNumberResets` and `MissingListKeepsNumbers`. |
| JsArray.Keys | src/web3-functions/my-web3-function/index.ts:95 | `Array(n).keys()`. Contract: `AdditionalVaultIdsRange`. |
| JsArray.SliceStart | src/web3-functions/my-web3-function/index.ts:95-97 | Where one-argument `slice` starts, never past the end of the array. Contract: `AdditionalVaultIdsRange`. |
| JsArray.SliceFrom | src/web3-functions/my-web3-function/index.ts:95-97 | `slice(start)` with one argument: the suffix from `SliceStart`. Contract: `AdditionalVaultIdsRange`, which works out every case that the bot's arguments can reach. |
| WatchList.AdditionalVaultIdsMembers | src/web3-functions/my-web3-function/index.ts:95-97 | For `prev >= 0`, an ID is new exactly when prev < id <= vaultCount. |
| WatchList.ReconcileMembers | src/web3-functions/my-web3-function/index.ts:102-104 | An ID is in the new list exactly when it was in the old list or is new, and is not retired as a number. A surviving ID keeps every copy it had in the old list and the new IDs together, so nothing else is removed. |
| WatchList.RemoveRetired | src/web3-functions/my-web3-function/index.ts:102-104 | `filter` with `includes`: contract given by `ReconcileMembers` and `ReconcileOrder` (membership, multiplicity, order), and `LiquidationsIgnored` for the nested element. |
| WatchList.Reconcile | src/web3-functions/my-web3-function/index.ts:102-104 | Append, then remove. Contract: `ReconcileMembers`, `ReconcileOrder`, `NewAndSettledExcluded` and `ReconcileKeepsWellFormed`. |
| JsArray.FilterMultiset | src/web3-functions/my-web3-function/index.ts:102-104 | `filter` keeps every copy of a kept value and drops every copy of a rejected one. |
| WatchList.ReconcileOrder | src/web3-functions/my-web3-function/index.ts:102-104 | The new list is the surviving old IDs in their order, then the surviving new IDs in theirs. It is a subsequence of old ++ new. |
| WatchList.NewAndSettledExcluded | src/web3-functions/my-web3-function/index.ts:102-104 | An ID that is both new and settled in the same run is not in the new list, because the append comes before the filter. |
| WatchList.LiquidationsIgnored | src/web3-functions/my-web3-function/index.ts:82-104 | The reconciled list is the same with or without the liquidation events, because their IDs only appear inside one nested element. |
| WatchList.LiquidatedIdStaysWatched | src/web3-functions/my-web3-function/index.ts:82-104 | A watched vault that is not settled stays in the list, whatever the liquidation events are, including a liquidation of that vault. |
| WatchList.ReconcileKeepsWellFormed | src/web3-functions/my-web3-function/index.ts:95-104 | If the old list is strictly increasing with IDs in 1..prev, then the new list is strictly increasing with IDs in 1..max(prev, vaultCount). |
| WatchList.StripZerosSpec | src/web3-functions/my-web3-function/index.ts:115 | `vaultsToAdjust` contains no 0. It holds exactly the non-zero entries of the check result, each with its multiplicity, in their order (a subsequence of the result). |
| WatchList.StripZeros | src/web3-functions/my-web3-function/index.ts:115 | Dropping the 0 sentinels. Contract: `StripZerosSpec`. |
| WatchList.VaultsToAdjust | src/web3-functions/my-web3-function/index.ts:110-116 | An empty list gives empty `vaultsToAdjust`. A non-empty list fails exactly when `checkVaults` fails, and otherwise gives the zero-stripped result of `checkVaults` on that list. |
| WatchList.EmptyListNotChecked | src/web3-functions/my-web3-function/index.ts:112-116 | For an empty list, the result is `[]` whichever checker is supplied. |
| WatchList.Decide | src/web3-functions/my-web3-function/index.ts:120-131 | `callData` is `vaultsToAdjust` in both branches. `canExec` holds exactly when it is non-empty. |
| Encoding.NatToDecimal | src/web3-functions/my-web3-function/index.ts:71-74 | `toString` of a count or a block number gives a non-empty digit string. It has no leading zero except for 0 itself, and one digit exactly for values below 10. |
| Encoding.DecimalRoundTrip | src/web3-functions/my-web3-function/index.ts:71-74 | Reading the written digits back as a decimal gives the original number. |
| Encoding.DecimalInjective | src/web3-functions/my-web3-function/index.ts:100 | Different counts are stored as different strings. |
| Encoding.IdsToJson | src/web3-functions/my-web3-function/index.ts:106 | The stored list is bracketed, and is "[]" exactly for the empty list. |
| Encoding.JoinDecimals | src/web3-functions/my-web3-function/index.ts:106 | The comma-separated decimal IDs inside `JSON.stringify`'s brackets. Contract: `IdsToJson`'s bracketing and empty-list case. |
| Web3Function.Storage.Set | src/web3-functions/my-web3-function/index.ts:71-74 | `storage.set` updates the one key and appends the write to the write log. |
| Web3Function.Storage.Get | src/web3-functions/my-web3-function/index.ts:32-37 | `storage.get(key)`: the stored string, or None when the key is absent. `RecoverCursor` proves the three reads with their defaults equal `Recover`. |
| Web3Function.RecoverCursor | src/web3-functions/my-web3-function/index.ts:30-48 | The three reads and the reset give `Recover` of the stored map. |
| Web3Function.CollectRetired | src/web3-functions/my-web3-function/index.ts:76-88 | Building `settledEventIds` by assignment and `push` gives `RetiredIds`. |
| Web3Function.WriteBackAndDecide | src/web3-functions/my-web3-function/index.ts:70-131 | After the queries: a rejected `vaultCount()` rejects the run with only `lastQueryBlock` written. Otherwise the three keys are written in source order (block, count, reconciled list) and the outcome is the health check and decision on the reconciled list. |
| Web3Function.CheckAndDecide | src/web3-functions/my-web3-function/index.ts:110-131 | The `if`/`else` over the list length, the multicall and the filter give the outcome of `Conclude`: rejected when the multicall fails, otherwise the decision on the zero-stripped result. |
| Web3Function.OnRun | src/web3-functions/my-web3-function/index.ts:16-132 | The whole run returns the outcome of `Run` on the old storage. It appends exactly `Run`'s writes, in order, to the write log, and leaves storage equal to the old map with those writes applied. |
| Web3Function.Run | src/web3-functions/my-web3-function/index.ts:16-132 | The whole run as a function of the stored map, the chain's answers and the parsers. Contract: `OnRun` is proved equal to it, and `RunAllReadsSucceed`, `RunWriteOrder`, `RunDecision`, `RunCallData`, `EmptyWatchListSkipsCheck`, `NextRunRecovers` and `SettledVaultNotReadded` state its properties. |
| Web3Function.RunAfterQueries | src/web3-functions/my-web3-function/index.ts:70-131 | The run after the three queries. `WriteBackAndDecide` is proved to match it: one write and a rejection on a failed `vaultCount()`, otherwise three writes in order and the decision. |
| Web3Function.Conclude | src/web3-functions/my-web3-function/index.ts:110-131 | The health check and the decision. `CheckAndDecide` is proved equal to it, and `RunDecision` and `RunCallData` state what it returns. |
| Web3Function.NewWatchList | src/web3-functions/my-web3-function/index.ts:76-104 | The reconciled list one run stores. Contract: the `Reconcile` lemmas, and `SettledVaultNotReadded`, which connects it across two runs. |
| Web3Function.RunAllReadsSucceed | src/web3-functions/my-web3-function/index.ts:54-131 | When every chain read succeeds, the writes are `lastQueryBlock` = current block, then `previousVaultCount` = vault count, then `activeVaultIds` = the reconciled list. The outcome then depends only on the health check. |
| Web3Function.RunWriteOrder | src/web3-functions/my-web3-function/index.ts:54-106 | A failure of `getBlockNumber` or of either event query writes nothing. A failure of `vaultCount()` leaves only `lastQueryBlock` changed. A run that gets past the count writes the three keys in source order. |
| Web3Function.RunDecision | src/web3-functions/my-web3-function/index.ts:110-131 | In a returned decision, `canExec` holds exactly when `callData` is non-empty, and `callData` never contains 0. |
| Web3Function.RunCallData | src/web3-functions/my-web3-function/index.ts:110-131 | An empty reconciled list returns `canExec: false` with empty call data. Otherwise a failed `checkVaults` rejects the run, and a successful one returns a subsequence of its result holding exactly its non-zero entries, each as many times as the result holds it. |
| Web3Function.EmptyWatchListSkipsCheck | src/web3-functions/my-web3-function/index.ts:110-116 | When the reconciled list is empty, the run, including its writes, is the same for any `checkVaults`: the multicall is never consulted. |
| Web3Function.RecoverAfterWrites | src/web3-functions/my-web3-function/index.ts:30-48 | A store holding the decimal block, the decimal count and the JSON list, with parsers that invert them, recovers exactly those three values, or the initial cursor when the block or the count is 0. |
| Web3Function.NextRunRecovers | src/web3-functions/my-web3-function/index.ts:30-106 | Suppose a run succeeds and the parsers invert what it wrote. Then the next run recovers (current block, new list, vault count), or the initial cursor when the block or the count is 0. |
| Web3Function.SettledVaultNotReadded | src/web3-functions/my-web3-function/index.ts:76-106 | Suppose a successful run settles a vault whose ID is at most the vault count, with a non-zero block and count, and the parsers invert what it wrote. Then that ID is absent from the next run's reconciled list, whatever the next run's events and count are. |

## Left out

- The Gelato SDK, the construction of the ethers `Contract` objects, and `console.log`
  output. The chain's answers are a `Ledger` input: the block number, the two event
  queries as functions of their start block, `vaultCount()` and `checkVaults`. Each answer
  is `None` when its promise is rejected.
- The internals of the on-chain `checkVaults` multicall: it is an uninterpreted function
  from the ID list to an optional list of numbers.
- `parseInt` and `JSON.parse` are abstract parsers in `Parsers`. A truthy JSON value that
  is not an array of non-negative integers is not modelled; on such a value the bot's
  `push` would throw or misbehave.
- Failures of `storage.get` (caught by the bot's `try`) and of `storage.set` are not
  modelled: storage reads and writes always succeed.
- Events without decoded `args` and BigNumber `toNumber` overflow are not modelled: vault
  IDs, counts and block numbers are unbounded naturals.
- Addresses are compared by exact string equality, as the bot's `==` does. No checksum
  normalisation is done.
- How the event queries relate to the blocks they cover is not modelled. The queries
  are open-ended from `lastQueryBlock`, and nothing is assumed about which blocks
  "latest" reaches.
- Encoding.IdsToJson: no round trip with `JSON.parse` is proved, because the parser is
  abstract. `NextRunRecovers` takes that round trip as a hypothesis.
- Concurrency and repeated invocations by the host are not modelled.
- Splitting the block range into bounded sub-ranges, per-vault health checks with an
  over-collateralisation buffer, and a choice between evaluation strategies are not part
  of this code. The single query is open-ended and the check is one batched multicall.
