# sand-dollar front-end core, modelled in Dafny

sand-dollar is a Sui dApp. A user escrows a coin, and optionally an NFT they
already own, into a Move contract that routes the coin to a yield provider
(none, Navi or SuiLend). This project models the front-end logic that turns a
form submission into a transaction and follows it to the ledger:

- `frontend/src/lib/sui.ts`:
  - the configuration read from `NEXT_PUBLIC_*` variables and `getRpcUrl`;
  - the `YieldProvider` enum;
  - the four transaction builders `createEscrowMintNft`,
    `createEscrowWithNft`, `redeemEscrow` and `burnEscrowNft`, including the
    gas-coin choice of the first;
  - the confirmation loop they share. It makes at most three ledger reads,
    waits 2 s and then 4 s between them, and reports the effects to the wallet
    once they are found.
- `frontend/src/components/WalletProvider.tsx`: the guards in front of the
  wallet's three features.
- `frontend/src/components/ConnectExistingNft.tsx`: the filter that picks the
  owned objects that may be NFTs, and the submit handler.
- `frontend/src/components/CreateEscrow.tsx`: the coin lookup, the balance
  guard, and the transaction that the submit handler builds itself.

How the model is built:

- The outside world is passed in as values. The signer's answer is
  `signing`. The ledger's answers to successive reads are `oracle`.
  `reportFails` says whether the wallet's report call throws. `gasCoins` is
  what `getCoins` returned.
- Each operation returns a log of `Event`s: the transaction it signed, each
  ledger read, each wait, each report, and each change of a form's loading
  flag. Ordering and "at most once" properties are stated about that log.
- `Transaction` is a class whose builder methods update its fields.
- The confirmation loop is a `while` loop. It is proved against `Expected`, a
  reference function built from the number of leading failed reads.
- Amounts are in MIST, as unbounded naturals.

Modules, one per file: `Common` (Option, Result, first match), `Config`,
`Tx`, `Events`, `Confirm`, `Sui`, `Wallet`, `ConnectNft` and `CreateEscrow`.

Facts about the confirmation loop that are easy to misread in the code:

- The comment at sui.ts:117 says "2s, 4s, 8s". But `retryCount` is
  incremented first (sui.ts:113), and the third failure throws at sui.ts:114
  before any wait. So a digest that never resolves gets three reads and two
  waits, of 2000 ms and 4000 ms, 6000 ms in total.
- `maxRetries` is the constant 3 (sui.ts:99).
- A read whose response has null effects ends the loop with no report
  (`NoEffects`), because the report call is guarded by `if (effects)`
  (sui.ts:125).

## Model

| member | source | states |
|---|---|---|
| Config.Network | frontend/src/lib/sui.ts:7 | the network is the variable when it is set, and is never empty (`testnet` otherwise) |
| Config.Contract | frontend/src/lib/sui.ts:8-9 | the package id is taken as given (empty when unset); the module name is the variable when set and `sand_dollar` otherwise |
| Config.UnsetEnvironment | frontend/src/lib/sui.ts:7-24 | with no variable set, the network is `testnet`, the contract is (empty package id, `sand_dollar`) and the URL is the SDK's testnet full node |
| Config.GetRpcUrl | frontend/src/lib/sui.ts:11-24 | per network: `local`, `devnet` and `mainnet` use their own override or default; every other name uses the testnet override or default; the URL is non-empty whenever the SDK's defaults are |
| Config.RpcUrlIsOverrideOrDefault | frontend/src/lib/sui.ts:11-24 | the URL is always one of the four override variables or one of the four defaults |
| Config.UnknownNetworkIsTestnet | frontend/src/lib/sui.ts:21-22 | an unknown or unset network name gives exactly the testnet URL |
| Tx.Target | frontend/src/lib/sui.ts:90 | a call target is `packageId::moduleName::` followed by the entry point's name |
| Tx.TargetNamesEntryPoint | frontend/src/lib/sui.ts:89-93 | under one configuration, two targets are equal if and only if they name the same entry point |
| Tx.Transaction.constructor | frontend/src/lib/sui.ts:50 | a fresh transaction has no sender, no budget, no gas payment and no commands |
| Tx.Transaction.SetSender | frontend/src/lib/sui.ts:52 | sets the sender and leaves budget, gas payment and commands unchanged |
| Tx.Transaction.SetGasBudget | frontend/src/lib/sui.ts:218 | sets the gas budget and changes nothing else |
| Tx.Transaction.SetGasPayment | frontend/src/lib/sui.ts:79-85 | sets the gas payment and changes nothing else |
| Tx.Transaction.SplitCoins | frontend/src/lib/sui.ts:55-57 | appends one split command, changes nothing else, and returns the argument that refers to the new command's index |
| Tx.Transaction.MoveCall | frontend/src/lib/sui.ts:89-93 | appends one call command and changes nothing else |
| Confirm.LeadingFailures | frontend/src/lib/sui.ts:103-111 | the number of failed reads before the first successful one, capped at the limit |
| Confirm.Backoff | frontend/src/lib/sui.ts:116-121 | the i-th wait is 1000 · 2^(i+1) ms |
| Confirm.Expected | frontend/src/lib/sui.ts:99-127 | 1 to 3 reads; the waits are the back-off of all but the last read |
| Confirm.AwaitEffects | frontend/src/lib/sui.ts:97-134 | the loop's outcome equals `Expected`, and its log is reads and waits in alternation, followed by at most one report |
| Confirm.StopsAtFirstSuccess | frontend/src/lib/sui.ts:103-111 | when read k is the first to succeed, exactly k+1 reads are made, the loop does not give up, and the effects reported are that read's |
| Confirm.ExhaustedIffThreeFailures | frontend/src/lib/sui.ts:113-114 | the loop gives up if and only if the first three reads all fail; it then waited 2000 and 4000 ms and reported nothing |
| Confirm.ReportsOnlyFetchedEffects | frontend/src/lib/sui.ts:110-127 | a report is made only with the effects of the read that succeeded, and only when that read carried effects |
| Confirm.WaitOfAttempts | frontend/src/lib/sui.ts:113-121 | for any confirmation of n reads that waited the back-off of all but the last, the waits sum to 1000 · (2^n − 2) ms, 6000 ms for three reads |
| Confirm.TotalWait | frontend/src/lib/sui.ts:113-121 | the total wait before the n-th read is 1000 · (2^n − 2) ms, and 6000 ms when the loop gives up |
| Confirm.FailedRoundsShape | frontend/src/lib/sui.ts:103-122 | j failed rounds contain j reads and exactly the first j back-off waits |
| Confirm.LogOfAttempts | frontend/src/lib/sui.ts:99-127 | for any confirmation of n reads, its log has n reads, the back-off waits, a report exactly when effects were reported and then last, and no signing |
| Confirm.ConfirmLogShape | frontend/src/lib/sui.ts:99-127 | the reads in the log equal the attempts (at most 3), its waits are the back-off, a report occurs at most once and only last, and nothing is signed |
| Sui.YieldProvider.Code | frontend/src/lib/sui.ts:33-37 | None is 0, Navi is 1 and SuiLend is 2, so every code fits the `u8` argument |
| Sui.SelectGasCoin | frontend/src/lib/sui.ts:70-76 | the first listed coin whose id differs from the escrowed coin's id; none if and only if every listed coin is the escrowed one |
| Sui.MintNftShape | frontend/src/lib/sui.ts:55-93 | the mint call takes the amount split off the chosen coin, the provider code and the clock `0x6`, with the coin type as its type argument |
| Sui.WithNftShape | frontend/src/lib/sui.ts:153-161 | the with-NFT call takes the split amount, the NFT object, the provider code and the clock, with NFT and coin types as type arguments |
| Sui.RedeemAndBurnShape | frontend/src/lib/sui.ts:222-287 | redeem takes NFT, escrow and clock; burn takes only the NFT and no type arguments; each is a single call command, so neither splits a coin |
| Sui.SignThenConfirm | frontend/src/lib/sui.ts:95-136 | the signer is called once; its error propagates with nothing read; otherwise the confirmation runs and the submission is returned unchanged |
| Sui.CreateEscrowMintNft | frontend/src/lib/sui.ts:39-137 | fails before signing with "No gas coins found" or "No coin available for gas payment"; otherwise signs the sender-set mint transaction whose gas coin is never the escrowed coin |
| Sui.CreateEscrowWithNft | frontend/src/lib/sui.ts:139-204 | signs the with-NFT transaction, with no sender, budget or gas payment, then confirms |
| Sui.RedeemEscrow | frontend/src/lib/sui.ts:206-270 | signs the redeem transaction with a 0.01 SUI gas budget, then confirms |
| Sui.BurnEscrowNft | frontend/src/lib/sui.ts:272-333 | signs the burn transaction, then confirms |
| Sui.SubmissionLogShape | frontend/src/lib/sui.ts:95-136 | an operation signs exactly once and first, reads at most three times, reports at most once, and reads nothing when signing fails |
| Wallet.Check | frontend/src/components/WalletProvider.tsx:52-60 | passes if and only if the wallet is connected, present and has the feature; "No wallet connected" exactly when it is disconnected or absent |
| Wallet.SignAndExecuteTransaction | frontend/src/components/WalletProvider.tsx:48-68 | the feature receives the transaction, the account and chain `sui:<network>` if and only if the guard passes; otherwise the guard's error is thrown |
| Wallet.SignTransaction | frontend/src/components/WalletProvider.tsx:70-88 | the same, for the sign-only feature |
| Wallet.ReportEffects | frontend/src/components/WalletProvider.tsx:90-101 | the feature receives the effects if and only if the guard passes; otherwise the call returns quietly |
| Wallet.SharedConnectionGuard | frontend/src/components/WalletProvider.tsx:52-94 | the three operations share the connection guard, and a report reaches only a connected wallet that has the feature |
| Wallet.SigningOnlyWallet | frontend/src/components/WalletProvider.tsx:56-97 | any connected wallet with both signing features but not the reporting one forwards both signing calls and skips reporting |
| Wallet.FeatureNamesDistinct | frontend/src/components/WalletProvider.tsx:56-94 | the three feature names are equal only for the same feature |
| ConnectNft.FilterPotentialNfts | frontend/src/components/ConnectExistingNft.tsx:54-58 | keeps exactly the objects with a type containing `::` but neither `::coin::` nor `::escrow::`, each as often as it was owned, in order |
| ConnectNft.FilterIdempotent | frontend/src/components/ConnectExistingNft.tsx:54-58 | filtering the filtered list changes nothing |
| ConnectNft.CoinsAndUntypedObjectsDropped | frontend/src/components/ConnectExistingNft.tsx:55-56 | in every list, an object without data, without a type, or whose type includes `::coin::` is never offered |
| ConnectNft.SuiCoinDropped | frontend/src/components/ConnectExistingNft.tsx:56 | the type `0x2::coin::Coin<0x2::sui::SUI>` includes `::coin::`, so a SUI coin is dropped |
| ConnectNft.ConnectExistingNftForm.FetchUserNfts | frontend/src/components/ConnectExistingNft.tsx:48-63 | without an address nothing changes; a failed query keeps the old list; otherwise the list becomes the filtered objects |
| ConnectNft.ConnectExistingNftForm.OnSubmit | frontend/src/components/ConnectExistingNft.tsx:65-92 | without an account or wallet nothing happens; otherwise the loading flag is raised, the with-NFT operation runs with the SUI coin type and the NFT type, and the flag is lowered in every outcome |
| CreateEscrow.SelectedCoin | frontend/src/components/CreateEscrow.tsx:52 | the first listed coin with the chosen id; none if and only if no listed coin has it |
| CreateEscrow.CheckFunds | frontend/src/components/CreateEscrow.tsx:52-62 | passes exactly when the coin is listed with a balance of at least amount + 0.01 SUI, and then yields the coin `find` returns; otherwise "Selected coin not found" or "Insufficient balance", each in exactly its case |
| CreateEscrow.SmallerAmountStillPasses | frontend/src/components/CreateEscrow.tsx:59-62 | a request that passes the guards passes, with the same coin, for any smaller amount |
| CreateEscrow.CreateEscrowForm.OnSubmit | frontend/src/components/CreateEscrow.tsx:43-106 | without an account or wallet nothing happens; a failed guard ends in the failure alert without signing; otherwise the form's transaction is signed once; the flag is lowered in every outcome |
| CreateEscrow.FormTxShape | frontend/src/components/CreateEscrow.tsx:67-88 | the form's transaction is from the account, with a 0.01 SUI budget, and calls `create_escrow_mint_nft<0x2::sui::SUI>` on the amount split off the chosen coin, the provider code and the clock |

## Left out

- Network calls are inputs, not calls. This covers `getCoins` (its query fields and limit of 5 are not modelled), `getTransactionBlock`, and the signer.
- A rejected `getCoins` promise is not modelled. It would propagate before signing, like the "No gas coins found" error.
- `setTimeout` is not modelled. A wait is recorded as an event with its length.
- `console` output is not modelled, and neither is the wording of the alerts. A form's ending is summarised as `SubmitOutcome`, which keeps the caught error's message.
- The SDK's transaction internals are not modelled: the inputs table, BCS encoding, the range checks of `u8`/`u64` and `tx.serialize()`. `getFullnodeUrl` is an input (`Fullnodes`).
- The `suiClient` singleton (sui.ts:26) is not modelled.
- `getOwnedObjects` and `getUserCoins` (sui.ts:335-358) and each form's `fetchUserCoins` are not modelled. They are thin query wrappers; their results are inputs.
- The forms turn text into numbers with `parseFloat` and `parseInt`. This is floating-point, so the amount arrives as MIST and the provider as a `YieldProvider`.
- The error path of that conversion is not modelled. `BigInt(parseFloat(data.amount) * 1_000_000_000)` (CreateEscrow.tsx:48, ConnectExistingNft.tsx:70) throws a RangeError when the product is not an integer. That error reaches the failure alert before the coin guard runs.
- CreateEscrow.CheckFunds: the insufficient-balance message is kept only up to its first sentence. The required total in SUI that the source appends is a floating-point rendering.
- Wallet.SignAndExecuteTransaction: what the wallet's feature answers is not modelled. The result is the request the feature receives.
- Wallet.SignTransaction: likewise, only the request the feature receives is modelled.
- The wallet's network is a parameter of the wallet operations. It is not derived from `NETWORK` in WalletProvider.tsx:17.
- React rendering, hooks and `react-hook-form` are not modelled, and neither are WalletProvider's network configuration and query client.
- ConnectExistingNft.tsx (:4, :21) and page.tsx (:8, :11) import `useWallet`. WalletProvider.tsx exports only `useWalletContext` (:38) and `WalletProvider` (:116), so `useWallet` is undefined at run time and the component throws while rendering. ConnectNft.ConnectExistingNftForm.OnSubmit models the handler as if some hook supplied the account, the wallet, the signer and the reporter. They appear as `hasAccount`, `walletSelected`, `signing` and `reportFails`.
- The provider in WalletProvider.tsx is not the one the app mounts. ClientLayout.tsx (:3, :23) mounts dapp-kit's own `WalletProvider`. Module `Wallet` models the guards of `WalletProviderContent` as written.
- Two call-shape mismatches are not modelled:
  - sui.ts calls the signer with the transaction alone.
  - ConnectExistingNft.tsx passes a ninth argument, the account, that `createEscrowWithNft` does not take.
- The escrow filter excludes only types containing `::escrow::`. The contract's own module is `sand_dollar` by default, so its escrow objects are not excluded. The model keeps the filter as written.
- The redeem page, the landing page, the feature tabs and the other presentation and configuration files are not part of this model.
