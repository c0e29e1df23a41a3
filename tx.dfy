/** The part of the Sui SDK's `Transaction` builder that the front-end uses,
    seen as an abstract command list. The SDK's own encoding (inputs table,
    BCS serialisation) is not part of this model: an argument names what it
    refers to, and a command is what the front-end asked for. */
module Tx {
  import opened Common
  import Config

  /** An argument of a command: an object input (`tx.object(id)`), a pure
      value (`tx.pure.u8`, `tx.pure.u64`), or the coin produced by an earlier
      `splitCoins` command, named by that command's index. */
  datatype Arg = Object(id: string) | PureU8(byte: nat) | PureU64(n: nat) | SplitResult(command: nat)

  datatype Command =
    | SplitCoins(coin: Arg, amounts: seq<Arg>)
    | MoveCall(target: string, typeArguments: seq<string>, arguments: seq<Arg>)

  /** The reference `setGasPayment` receives for one gas coin. */
  datatype ObjectRef = ObjectRef(objectId: string, version: string, digest: string)

  /** Everything a built transaction carries, as handed to the signer. */
  datatype TxData = TxData(
    sender: Option<string>,
    gasBudget: Option<nat>,
    gasPayment: seq<ObjectRef>,
    commands: seq<Command>)

  /** The shared clock object `0x6` every escrow call receives. */
  const ClockId := "0x6"

  /** The contract's entry points. */
  datatype EntryPoint = CreateEscrowMintNft | CreateEscrowWithNft | RedeemEscrow | BurnEscrowNft
  {
    function Name(): string {
      match this
      case CreateEscrowMintNft => "create_escrow_mint_nft"
      case CreateEscrowWithNft => "create_escrow_with_nft"
      case RedeemEscrow => "redeem_escrow"
      case BurnEscrowNft => "burn_escrow_nft"
    }
  }

  /** The prefix `packageId::moduleName::` of every call target. */
  function TargetPrefix(config: Config.ContractConfig): string
  {
    config.packageId + "::" + config.moduleName + "::"
  }

  /** The call target `packageId::moduleName::entry`. */
  function Target(config: Config.ContractConfig, entry: EntryPoint): (r: string)
    ensures |r| == |TargetPrefix(config)| + |entry.Name()|
    ensures r[..|TargetPrefix(config)|] == TargetPrefix(config)
    ensures r[|TargetPrefix(config)|..] == entry.Name()
  {
    TargetPrefix(config) + entry.Name()
  }

  /** Under one configuration, distinct entry points never share a target, so
      a target names the entry point it calls. */
  lemma TargetNamesEntryPoint(config: Config.ContractConfig, e1: EntryPoint, e2: EntryPoint)
    ensures Target(config, e1) == Target(config, e2) <==> e1 == e2
  {
    if Target(config, e1) == Target(config, e2) {
      var n := |TargetPrefix(config)|;
      assert e1.Name() == Target(config, e1)[n..] == Target(config, e2)[n..] == e2.Name();
    }
  }

  /** Every split-result argument of a command refers to an earlier command,
      and that command is a `splitCoins`. */
  predicate ArgsWellFormed(commands: seq<Command>, at: nat, args: seq<Arg>)
    requires at <= |commands|
  {
    forall a :: a in args && a.SplitResult? ==> a.command < at && commands[a.command].SplitCoins?
  }

  /** All arguments a command consumes. */
  function ArgsOf(c: Command): seq<Arg>
  {
    match c
    case SplitCoins(coin, amounts) => [coin] + amounts
    case MoveCall(_, _, arguments) => arguments
  }

  /** A command list the SDK can resolve: no command uses a result that does
      not exist yet. */
  predicate WellFormed(commands: seq<Command>)
  {
    forall i :: 0 <= i < |commands| ==> ArgsWellFormed(commands, i, ArgsOf(commands[i]))
  }

  /** The SDK's mutable `Transaction`, reduced to the fields the front-end sets. */
  class Transaction {
    var sender: Option<string>
    var gasBudget: Option<nat>
    var gasPayment: seq<ObjectRef>
    var commands: seq<Command>

    function Data(): TxData
      reads this
    {
      TxData(sender, gasBudget, gasPayment, commands)
    }

    /** `new Transaction()` */
    constructor ()
      ensures Data() == TxData(None, None, [], [])
    {
      sender := None;
      gasBudget := None;
      gasPayment := [];
      commands := [];
    }

    method SetSender(address: string)
      modifies this
      ensures Data() == old(Data()).(sender := Some(address))
    {
      sender := Some(address);
    }

    method SetGasBudget(budget: nat)
      modifies this
      ensures Data() == old(Data()).(gasBudget := Some(budget))
    {
      gasBudget := Some(budget);
    }

    method SetGasPayment(payment: seq<ObjectRef>)
      modifies this
      ensures Data() == old(Data()).(gasPayment := payment)
    {
      gasPayment := payment;
    }

    /** `splitCoins(coin, amounts)`: appends the command and returns the
        argument that stands for the coin it produces. */
    method SplitCoins(coin: Arg, amounts: seq<Arg>) returns (result: Arg)
      modifies this
      ensures Data() == old(Data()).(commands := old(commands) + [Command.SplitCoins(coin, amounts)])
      ensures result == SplitResult(|old(commands)|)
    {
      result := SplitResult(|commands|);
      commands := commands + [Command.SplitCoins(coin, amounts)];
    }

    /** `moveCall({ target, typeArguments, arguments })` */
    method MoveCall(target: string, typeArguments: seq<string>, arguments: seq<Arg>)
      modifies this
      ensures Data() == old(Data()).(commands := old(commands) + [Command.MoveCall(target, typeArguments, arguments)])
    {
      commands := commands + [Command.MoveCall(target, typeArguments, arguments)];
    }
  }
}
