/** The four contract operations of frontend/src/lib/sui.ts. Each builds a
    transaction step by step on a fresh `Transaction`, hands it once to the
    injected signing function, and then runs the confirmation loop of module
    Confirm. The signer, the gas-coin query and the ledger are oracles passed
    in as values: `signing` is what the signer resolves with (or the error it
    throws), `gasCoins` what `getCoins` returned in its `data` field. */
module Sui {
  import opened Common
  import opened Tx
  import opened Events
  import Confirm
  import Config

  /** `YieldProvider`; `NoYield` is the source's `YieldProvider.None`. */
  datatype YieldProvider = NoYield | Navi | SuiLend
  {
    /** The enum's numeric value, passed as `tx.pure.u8`. */
    function Code(): (r: nat)
      ensures this == NoYield ==> r == 0
      ensures this == Navi ==> r == 1
      ensures this == SuiLend ==> r == 2
      ensures r < 256
    {
      match this
      case NoYield => 0
      case Navi => 1
      case SuiLend => 2
    }
  }

  /** A coin as `getCoins` lists it. */
  datatype CoinStruct = CoinStruct(coinObjectId: string, version: string, digest: string, balance: nat)

  const SuiCoinType := "0x2::sui::SUI"
  const RedeemGasBudget: nat := 10_000_000

  /** The gas coin: the first listed coin that is not the coin being escrowed. */
  function SelectGasCoin(coins: seq<CoinStruct>, coinObjectId: string): (r: Option<CoinStruct>)
    ensures r.Some? ==> r.value in coins && r.value.coinObjectId != coinObjectId
    ensures r.Some? ==> exists k :: 0 <= k < |coins| && coins[k] == r.value
                          && forall j :: 0 <= j < k ==> coins[j].coinObjectId == coinObjectId
    ensures r.None? <==> forall j :: 0 <= j < |coins| ==> coins[j].coinObjectId == coinObjectId
  {
    Find(coins, (c: CoinStruct) => c.coinObjectId != coinObjectId)
  }

  function RefOf(c: CoinStruct): ObjectRef
  {
    ObjectRef(c.coinObjectId, c.version, c.digest)
  }

  /** The commands of `createEscrowMintNft`: split `amount` off the coin, then
      call `create_escrow_mint_nft<coinType>(split, provider, clock)`. */
  function MintNftCommands(config: Config.ContractConfig, coinType: string, coinObjectId: string,
                           amount: nat, provider: YieldProvider): seq<Command>
  {
    [SplitCoins(Object(coinObjectId), [PureU64(amount)]),
     MoveCall(Target(config, EntryPoint.CreateEscrowMintNft), [coinType],
              [SplitResult(0), PureU8(provider.Code()), Object(ClockId)])]
  }

  /** The commands of `createEscrowWithNft`. */
  function WithNftCommands(config: Config.ContractConfig, coinType: string, coinObjectId: string,
                           amount: nat, nftObjectId: string, nftType: string,
                           provider: YieldProvider): seq<Command>
  {
    [SplitCoins(Object(coinObjectId), [PureU64(amount)]),
     MoveCall(Target(config, EntryPoint.CreateEscrowWithNft), [nftType, coinType],
              [SplitResult(0), Object(nftObjectId), PureU8(provider.Code()), Object(ClockId)])]
  }

  /** The commands of `redeemEscrow`. */
  function RedeemCommands(config: Config.ContractConfig, escrowId: string, nftObjectId: string,
                          nftType: string, coinType: string): seq<Command>
  {
    [MoveCall(Target(config, EntryPoint.RedeemEscrow), [nftType, coinType],
              [Object(nftObjectId), Object(escrowId), Object(ClockId)])]
  }

  /** The commands of `burnEscrowNft`: no type arguments. */
  function BurnCommands(config: Config.ContractConfig, nftObjectId: string): seq<Command>
  {
    [MoveCall(Target(config, EntryPoint.BurnEscrowNft), [], [Object(nftObjectId)])]
  }

  /** The split coin an argument stands for: `arg` is the result of a command
      that splits exactly `amount` off object `coinObjectId`. */
  predicate PaysFrom(commands: seq<Command>, arg: Arg, coinObjectId: string, amount: nat)
  {
    arg.SplitResult? && arg.command < |commands|
    && commands[arg.command] == SplitCoins(Object(coinObjectId), [PureU64(amount)])
  }

  /** The last command is the call to `entry`, with these type arguments. */
  predicate CallsEntry(commands: seq<Command>, config: Config.ContractConfig, entry: EntryPoint, typeArguments: seq<string>)
  {
    |commands| > 0 && commands[|commands| - 1].MoveCall?
    && commands[|commands| - 1].target == Target(config, entry)
    && commands[|commands| - 1].typeArguments == typeArguments
  }

  /** Argument shape of the mint-and-escrow call: the escrowed payment is the
      `amount` split off the chosen coin, the provider travels as its u8 code
      and the clock is `0x6`; the command list is one the SDK can resolve. */
  lemma MintNftShape(config: Config.ContractConfig, coinType: string, coinObjectId: string,
                     amount: nat, provider: YieldProvider)
    ensures var cs := MintNftCommands(config, coinType, coinObjectId, amount, provider);
            && WellFormed(cs)
            && CallsEntry(cs, config, EntryPoint.CreateEscrowMintNft, [coinType])
            && |cs[1].arguments| == 3
            && PaysFrom(cs, cs[1].arguments[0], coinObjectId, amount)
            && cs[1].arguments[1] == PureU8(provider.Code())
            && cs[1].arguments[2] == Object(ClockId)
  {
    var cs := MintNftCommands(config, coinType, coinObjectId, amount, provider);
    assert ArgsOf(cs[0]) == [Object(coinObjectId), PureU64(amount)];
  }

  /** Argument shape of the escrow-with-NFT call. */
  lemma WithNftShape(config: Config.ContractConfig, coinType: string, coinObjectId: string,
                     amount: nat, nftObjectId: string, nftType: string, provider: YieldProvider)
    ensures var cs := WithNftCommands(config, coinType, coinObjectId, amount, nftObjectId, nftType, provider);
            && WellFormed(cs)
            && CallsEntry(cs, config, EntryPoint.CreateEscrowWithNft, [nftType, coinType])
            && |cs[1].arguments| == 4
            && PaysFrom(cs, cs[1].arguments[0], coinObjectId, amount)
            && cs[1].arguments[1] == Object(nftObjectId)
            && cs[1].arguments[2] == PureU8(provider.Code())
            && cs[1].arguments[3] == Object(ClockId)
  {
    var cs := WithNftCommands(config, coinType, coinObjectId, amount, nftObjectId, nftType, provider);
    assert ArgsOf(cs[0]) == [Object(coinObjectId), PureU64(amount)];
  }

  /** The redeem and burn calls consume objects only: no coin is split. */
  lemma RedeemAndBurnShape(config: Config.ContractConfig, escrowId: string, nftObjectId: string,
                           nftType: string, coinType: string)
    ensures var cs := RedeemCommands(config, escrowId, nftObjectId, nftType, coinType);
            && |cs| == 1
            && WellFormed(cs) && CallsEntry(cs, config, EntryPoint.RedeemEscrow, [nftType, coinType])
            && cs[0].arguments == [Object(nftObjectId), Object(escrowId), Object(ClockId)]
    ensures var cs := BurnCommands(config, nftObjectId);
            && |cs| == 1
            && WellFormed(cs) && CallsEntry(cs, config, EntryPoint.BurnEscrowNft, [])
            && cs[0].arguments == [Object(nftObjectId)]
  {
  }

  /** The common tail of the four operations (sui.ts:95-136): sign once,
      outside the `try`, so that a signing error propagates and nothing is
      read; then confirm, swallowing every later failure, and return the
      submission unchanged. */
  method SignThenConfirm(tx: Transaction, signing: Result<Submission, string>,
                         oracle: seq<Confirm.FetchOutcome>, reportFails: bool)
    returns (r: Result<Submission, string>, log: seq<Event>)
    ensures r == signing
    ensures signing.Err? ==> log == [Signed(tx.Data())]
    ensures signing.Ok? ==>
      log == [Signed(tx.Data())] + Confirm.ConfirmLog(signing.value.digest, Confirm.Expected(oracle, reportFails))
  {
    log := [Signed(tx.Data())];
    if signing.Err? {
      return signing, log;
    }
    var result := signing.value;
    var _, confirmLog := Confirm.AwaitEffects(result.digest, oracle, reportFails);
    log := log + confirmLog;
    r := Ok(result);
  }

  /** `createEscrowMintNft` (sui.ts:39-137). */
  method CreateEscrowMintNft(config: Config.ContractConfig, signing: Result<Submission, string>,
                             oracle: seq<Confirm.FetchOutcome>, reportFails: bool,
                             coinType: string, coinObjectId: string, amount: nat,
                             provider: YieldProvider, sender: string,
                             gasCoins: Option<seq<CoinStruct>>)
    returns (r: Result<Submission, string>, log: seq<Event>)
    ensures gasCoins.None? ==> r == Err("No gas coins found") && log == []
    ensures gasCoins.Some? && SelectGasCoin(gasCoins.value, coinObjectId).None? ==>
              r == Err("No coin available for gas payment") && log == []
    ensures gasCoins.Some? && SelectGasCoin(gasCoins.value, coinObjectId).Some? ==>
              var gas := SelectGasCoin(gasCoins.value, coinObjectId).value;
              var data := TxData(Some(sender), None, [RefOf(gas)],
                                 MintNftCommands(config, coinType, coinObjectId, amount, provider));
              && r == signing
              && log == [Signed(data)] + (if signing.Ok? then
                                            Confirm.ConfirmLog(signing.value.digest, Confirm.Expected(oracle, reportFails))
                                          else [])
    ensures log != [] ==> log[0].Signed? && |log[0].tx.gasPayment| == 1
                          && log[0].tx.gasPayment[0].objectId != coinObjectId
  {
    var tx := new Transaction();
    tx.SetSender(sender);
    var coinForContract := tx.SplitCoins(Object(coinObjectId), [PureU64(amount)]);
    if gasCoins.None? {
      return Err("No gas coins found"), [];
    }
    var gasCoin := SelectGasCoin(gasCoins.value, coinObjectId);
    if gasCoin.None? {
      return Err("No coin available for gas payment"), [];
    }
    tx.SetGasPayment([RefOf(gasCoin.value)]);
    var clock := Object(ClockId);
    tx.MoveCall(Target(config, EntryPoint.CreateEscrowMintNft), [coinType],
                [coinForContract, PureU8(provider.Code()), clock]);
    assert tx.Data() == TxData(Some(sender), None, [RefOf(gasCoin.value)],
                               MintNftCommands(config, coinType, coinObjectId, amount, provider));
    r, log := SignThenConfirm(tx, signing, oracle, reportFails);
  }

  /** `createEscrowWithNft` (sui.ts:139-204): no sender or gas payment is set. */
  method CreateEscrowWithNft(config: Config.ContractConfig, signing: Result<Submission, string>,
                             oracle: seq<Confirm.FetchOutcome>, reportFails: bool,
                             coinType: string, coinObjectId: string, amount: nat,
                             nftObjectId: string, nftType: string, provider: YieldProvider)
    returns (r: Result<Submission, string>, log: seq<Event>)
    ensures r == signing
    ensures var data := TxData(None, None, [], WithNftCommands(config, coinType, coinObjectId, amount, nftObjectId, nftType, provider));
            log == [Signed(data)] + (if signing.Ok? then
                                       Confirm.ConfirmLog(signing.value.digest, Confirm.Expected(oracle, reportFails))
                                     else [])
  {
    var tx := new Transaction();
    var coin := tx.SplitCoins(Object(coinObjectId), [PureU64(amount)]);
    var clock := Object(ClockId);
    tx.MoveCall(Target(config, EntryPoint.CreateEscrowWithNft), [nftType, coinType],
                [coin, Object(nftObjectId), PureU8(provider.Code()), clock]);
    assert tx.Data() == TxData(None, None, [], WithNftCommands(config, coinType, coinObjectId, amount, nftObjectId, nftType, provider));
    r, log := SignThenConfirm(tx, signing, oracle, reportFails);
  }

  /** `redeemEscrow` (sui.ts:206-270): fixed gas budget, no sender. */
  method RedeemEscrow(config: Config.ContractConfig, signing: Result<Submission, string>,
                         oracle: seq<Confirm.FetchOutcome>, reportFails: bool,
                         escrowId: string, nftObjectId: string, nftType: string, coinType: string)
    returns (r: Result<Submission, string>, log: seq<Event>)
    ensures r == signing
    ensures var data := TxData(None, Some(RedeemGasBudget), [], RedeemCommands(config, escrowId, nftObjectId, nftType, coinType));
            log == [Signed(data)] + (if signing.Ok? then
                                       Confirm.ConfirmLog(signing.value.digest, Confirm.Expected(oracle, reportFails))
                                     else [])
  {
    var tx := new Transaction();
    tx.SetGasBudget(RedeemGasBudget);
    var clock := Object(ClockId);
    tx.MoveCall(Target(config, EntryPoint.RedeemEscrow), [nftType, coinType],
                [Object(nftObjectId), Object(escrowId), clock]);
    assert tx.Data() == TxData(None, Some(RedeemGasBudget), [], RedeemCommands(config, escrowId, nftObjectId, nftType, coinType));
    r, log := SignThenConfirm(tx, signing, oracle, reportFails);
  }

  /** `burnEscrowNft` (sui.ts:272-333). */
  method BurnEscrowNft(config: Config.ContractConfig, signing: Result<Submission, string>,
                         oracle: seq<Confirm.FetchOutcome>, reportFails: bool, nftObjectId: string)
    returns (r: Result<Submission, string>, log: seq<Event>)
    ensures r == signing
    ensures log == [Signed(TxData(None, None, [], BurnCommands(config, nftObjectId)))]
                   + (if signing.Ok? then
                        Confirm.ConfirmLog(signing.value.digest, Confirm.Expected(oracle, reportFails))
                      else [])
  {
    var tx := new Transaction();
    tx.MoveCall(Target(config, EntryPoint.BurnEscrowNft), [], [Object(nftObjectId)]);
    assert tx.Data() == TxData(None, None, [], BurnCommands(config, nftObjectId));
    r, log := SignThenConfirm(tx, signing, oracle, reportFails);
  }

  /** Whatever the ledger and the wallet do after submission, an operation
      signs exactly once, as its first outside action, never reads the ledger
      more than three times, and reports at most once. */
  lemma SubmissionLogShape(data: TxData, signing: Result<Submission, string>,
                           oracle: seq<Confirm.FetchOutcome>, reportFails: bool)
    ensures var log := [Signed(data)] + (if signing.Ok? then
                          Confirm.ConfirmLog(signing.value.digest, Confirm.Expected(oracle, reportFails))
                        else []);
            && log[0] == Signed(data)
            && CountKind(log, SignKind) == 1
            && CountKind(log, FetchKind) <= Confirm.MaxRetries
            && CountKind(log, ReportKind) <= 1
            && (signing.Err? ==> CountKind(log, FetchKind) == 0)
  {
    var rest := if signing.Ok? then
                  Confirm.ConfirmLog(signing.value.digest, Confirm.Expected(oracle, reportFails))
                else [];
    if signing.Ok? {
      Confirm.ConfirmLogShape(signing.value.digest, oracle, reportFails);
    } else {
      assert rest == [];
    }
    CountKindOne(Signed(data), SignKind);
    CountKindOne(Signed(data), FetchKind);
    CountKindOne(Signed(data), ReportKind);
    CountKindAppend([Signed(data)], rest, SignKind);
    CountKindAppend([Signed(data)], rest, FetchKind);
    CountKindAppend([Signed(data)], rest, ReportKind);
  }
}
