/** The `CreateEscrow` form (frontend/src/components/CreateEscrow.tsx): on
    submit it looks up the chosen coin among the listed ones, checks that it
    covers the amount plus a 0.01 SUI gas allowance, builds the
    mint-and-escrow transaction itself and hands it to the wallet kit's
    signer. Unlike the other operations there is no confirmation loop here.
    Amounts are in MIST, as naturals. */
module CreateEscrow {
  import opened Common
  import opened Events
  import opened Tx
  import Config
  import Sui

  /** The gas allowance added to the amount, and the transaction's budget. */
  const GasBudget: nat := 10_000_000

  const CoinNotFound := "Selected coin not found"
  /** The source's message continues with the required total in SUI, a
      floating-point rendering this model does not reproduce. */
  const InsufficientBalance := "Insufficient balance"

  /** `coins.find(...)`: the first listed coin with the chosen id. */
  function SelectedCoin(coins: seq<Sui.CoinStruct>, coinObject: string): (r: Option<Sui.CoinStruct>)
    ensures r.Some? ==> r.value in coins && r.value.coinObjectId == coinObject
    ensures r.Some? ==> exists k :: 0 <= k < |coins| && coins[k] == r.value
                          && forall j :: 0 <= j < k ==> coins[j].coinObjectId != coinObject
    ensures r.None? <==> forall j :: 0 <= j < |coins| ==> coins[j].coinObjectId != coinObject
  {
    Find(coins, (c: Sui.CoinStruct) => c.coinObjectId == coinObject)
  }

  /** The two guards before any transaction is built: the coin must be
      listed, and its balance must reach `amount + GasBudget`. */
  function CheckFunds(coins: seq<Sui.CoinStruct>, coinObject: string, amount: nat): (r: Result<Sui.CoinStruct, string>)
    ensures r.Ok? ==> r.value in coins && r.value.coinObjectId == coinObject
                      && r.value.balance >= amount + GasBudget
    ensures r.Ok? ==> Some(r.value) == SelectedCoin(coins, coinObject)
    ensures r == Err(CoinNotFound) <==> forall j :: 0 <= j < |coins| ==> coins[j].coinObjectId != coinObject
    ensures r == Err(InsufficientBalance) <==>
              SelectedCoin(coins, coinObject).Some? && SelectedCoin(coins, coinObject).value.balance < amount + GasBudget
    ensures r.Ok? || r == Err(CoinNotFound) || r == Err(InsufficientBalance)
  {
    match SelectedCoin(coins, coinObject)
    case None => Err(CoinNotFound)
    case Some(coin) =>
      var totalAmount := amount + GasBudget;
      if coin.balance < totalAmount then Err(InsufficientBalance) else Ok(coin)
  }

  /** A request that passes the guards still passes, with the same coin, for
      any smaller amount. */
  lemma SmallerAmountStillPasses(coins: seq<Sui.CoinStruct>, coinObject: string, amount: nat, smaller: nat)
    requires smaller <= amount
    requires CheckFunds(coins, coinObject, amount).Ok?
    ensures CheckFunds(coins, coinObject, smaller) == CheckFunds(coins, coinObject, amount)
  {
  }

  /** The transaction the form signs: the mint-and-escrow commands with the
      SUI coin type, a sender and a fixed gas budget. */
  function FormTx(config: Config.ContractConfig, sender: string, coinObject: string,
                  amount: nat, provider: Sui.YieldProvider): TxData
  {
    TxData(Some(sender), Some(GasBudget), [], Sui.MintNftCommands(config, Sui.SuiCoinType, coinObject, amount, provider))
  }

  class CreateEscrowForm {
    var isLoading: bool
    /** The coins `fetchUserCoins` listed. */
    var coins: seq<Sui.CoinStruct>

    constructor (coins: seq<Sui.CoinStruct>)
      ensures !isLoading && this.coins == coins
    {
      isLoading := false;
      this.coins := coins;
    }

    /** `onSubmit` (CreateEscrow.tsx:43-106). Without an account (`sender`)
        or wallet it does nothing. Otherwise it raises the loading flag, and
        lowers it again in every outcome; a transaction is built and signed
        only when both guards pass, and any error lands in the failure alert. */
    method OnSubmit(config: Config.ContractConfig, sender: Option<string>, walletPresent: bool,
                    coinObject: string, amount: nat, provider: Sui.YieldProvider,
                    signing: Result<Submission, string>)
      returns (outcome: SubmitOutcome, log: seq<Event>)
      modifies this`isLoading
      ensures sender.None? || !walletPresent ==> outcome == Ignored && log == [] && isLoading == old(isLoading)
      ensures sender.Some? && walletPresent ==>
        && !isLoading
        && match CheckFunds(coins, coinObject, amount)
           case Err(e) =>
             outcome == Failed(e) && log == [LoadingSet(true), LoadingSet(false)]
           case Ok(_) =>
             && outcome == (if signing.Ok? then Succeeded else Failed(signing.error))
             && log == [LoadingSet(true), Signed(FormTx(config, sender.value, coinObject, amount, provider)), LoadingSet(false)]
    {
      if sender.None? || !walletPresent {
        return Ignored, [];
      }
      isLoading := true;
      log := [LoadingSet(true)];
      var selectedCoin := SelectedCoin(coins, coinObject);
      if selectedCoin.None? {
        outcome := Failed(CoinNotFound);
      } else if selectedCoin.value.balance < amount + GasBudget {
        outcome := Failed(InsufficientBalance);
      } else {
        var tx := new Transaction();
        tx.SetSender(sender.value);
        tx.SetGasBudget(GasBudget);
        var clock := Object(ClockId);
        var escrowCoin := tx.SplitCoins(Object(coinObject), [PureU64(amount)]);
        tx.MoveCall(Target(config, EntryPoint.CreateEscrowMintNft), [Sui.SuiCoinType],
                    [escrowCoin, PureU8(provider.Code()), clock]);
        assert tx.Data() == FormTx(config, sender.value, coinObject, amount, provider);
        log := log + [Signed(tx.Data())];
        if signing.Ok? {
          outcome := Succeeded;
        } else {
          outcome := Failed(signing.error);
        }
      }
      isLoading := false;
      log := log + [LoadingSet(false)];
    }
  }

  /** The form's transaction: a resolvable command list whose call is
      `create_escrow_mint_nft<0x2::sui::SUI>`, paying exactly `amount` split
      off the chosen coin, from the account, with the 0.01 SUI gas budget. */
  lemma FormTxShape(config: Config.ContractConfig, sender: string, coinObject: string,
                    amount: nat, provider: Sui.YieldProvider)
    ensures var data := FormTx(config, sender, coinObject, amount, provider);
            && data.sender == Some(sender) && data.gasBudget == Some(GasBudget)
            && WellFormed(data.commands)
            && Sui.CallsEntry(data.commands, config, EntryPoint.CreateEscrowMintNft, [Sui.SuiCoinType])
            && Sui.PaysFrom(data.commands, data.commands[1].arguments[0], coinObject, amount)
            && data.commands[1].arguments[1..] == [PureU8(provider.Code()), Object(ClockId)]
  {
    Sui.MintNftShape(config, Sui.SuiCoinType, coinObject, amount, provider);
  }
}
