/** The `ConnectExistingNft` form (frontend/src/components/ConnectExistingNft.tsx):
    it lists the owned objects that look like NFTs, and on submit escrows a
    coin together with the chosen NFT through `createEscrowWithNft`, keeping
    an `isLoading` flag set for the duration of the call. */
module ConnectNft {
  import opened Common
  import opened Events
  import Config
  import Tx
  import Sui
  import Confirm

  /** An owned object as `getOwnedObjects` returns it; `data` and its `type`
      may both be absent. */
  datatype ObjectData = ObjectData(objectId: string, objectType: Option<string>)
  datatype OwnedObject = OwnedObject(data: Option<ObjectData>)

  /** The NFT type the form always submits, next to `Sui.SuiCoinType`. */
  const NftType := "0x2::nft::NFT"

  predicate OccursAt(s: string, sub: string, i: nat)
  {
    i + |sub| <= |s| && s[i..i + |sub|] == sub
  }

  /** `s.includes(sub)` */
  predicate Includes(s: string, sub: string)
  {
    exists i :: 0 <= i <= |s| && OccursAt(s, sub, i)
  }

  /** The filter of `fetchUserNfts`: a type that is a Move struct path (has
      `::`) and is neither in a `coin` nor an `escrow` module. An object
      without `data` or `type` is dropped: the optional chain yields
      `undefined`, which is falsy. */
  predicate IsPotentialNft(obj: OwnedObject)
  {
    obj.data.Some? && obj.data.value.objectType.Some?
    && var t := obj.data.value.objectType.value;
       Includes(t, "::") && !Includes(t, "::coin::") && !Includes(t, "::escrow::")
  }

  /** `b` contains the elements of `a` in the same order, possibly with others
      in between. */
  predicate IsSubsequence<T(==)>(a: seq<T>, b: seq<T>)
  {
    if |a| == 0 then true
    else if |b| == 0 then false
    else if a[0] == b[0] then IsSubsequence(a[1..], b[1..])
    else IsSubsequence(a, b[1..])
  }

  /** `objects.filter(...)`: exactly the potential NFTs, each as often as it
      was owned, in their original order. */
  function FilterPotentialNfts(objects: seq<OwnedObject>): (r: seq<OwnedObject>)
    ensures forall o :: o in r ==> IsPotentialNft(o)
    ensures forall o :: o in objects && IsPotentialNft(o) ==> o in r
    ensures forall o :: multiset(r)[o] == if IsPotentialNft(o) then multiset(objects)[o] else 0
    ensures IsSubsequence(r, objects)
  {
    if |objects| == 0 then []
    else
      var rest := FilterPotentialNfts(objects[1..]);
      assert objects == [objects[0]] + objects[1..];
      if IsPotentialNft(objects[0]) then [objects[0]] + rest else rest
  }

  /** Filtering the list the form already shows changes nothing. */
  lemma {:induction false} FilterIdempotent(objects: seq<OwnedObject>)
    ensures FilterPotentialNfts(FilterPotentialNfts(objects)) == FilterPotentialNfts(objects)
  {
    if |objects| > 0 {
      FilterIdempotent(objects[1..]);
      var rest := FilterPotentialNfts(objects[1..]);
      if IsPotentialNft(objects[0]) {
        assert ([objects[0]] + rest)[1..] == rest;
      }
    }
  }

  /** No coin is ever offered as an NFT, and neither is an object whose data
      or type is missing. */
  lemma {:induction false} CoinsAndUntypedObjectsDropped(objects: seq<OwnedObject>)
    ensures forall o :: o in objects && (o.data.None? || o.data.value.objectType.None?) ==>
              o !in FilterPotentialNfts(objects)
    ensures forall o :: o in objects && o.data.Some? && o.data.value.objectType.Some?
                        && Includes(o.data.value.objectType.value, "::coin::") ==>
              o !in FilterPotentialNfts(objects)
  {
  }

  /** The type of a SUI coin object is in the `coin` module, so a SUI coin is
      dropped by the filter. */
  lemma SuiCoinDropped(id: string)
    ensures Includes("0x2::coin::Coin<0x2::sui::SUI>", "::coin::")
    ensures FilterPotentialNfts([OwnedObject(Some(ObjectData(id, Some("0x2::coin::Coin<0x2::sui::SUI>"))))]) == []
  {
    var t := "0x2::coin::Coin<0x2::sui::SUI>";
    assert t == "0x2" + "::coin::" + "Coin<0x2::sui::SUI>";
    assert t[3..11] == "::coin::";
    assert OccursAt(t, "::coin::", 3);
  }

  /** The form's NFT list, as `setNfts` leaves it. */
  class ConnectExistingNftForm {
    var isLoading: bool
    var nfts: seq<OwnedObject>

    constructor ()
      ensures !isLoading && nfts == []
    {
      isLoading := false;
      nfts := [];
    }

    /** `fetchUserNfts` (ConnectExistingNft.tsx:48-63): returns early without
        an address; a failed query is logged and leaves the list as it was. */
    method FetchUserNfts(address: Option<string>, owned: Result<seq<OwnedObject>, string>)
      modifies this
      ensures isLoading == old(isLoading)
      ensures nfts == if address.Some? && address.value != "" && owned.Ok?
                      then FilterPotentialNfts(owned.value) else old(nfts)
    {
      if address.None? || address.value == "" {
        return;
      }
      if owned.Ok? {
        nfts := FilterPotentialNfts(owned.value);
      }
    }

    /** `onSubmit` (ConnectExistingNft.tsx:65-92): with an account and a
        selected wallet, sets the loading flag, runs `createEscrowWithNft`
        with the fixed SUI coin type and NFT type, and clears the flag on
        success and on failure alike. */
    method OnSubmit(config: Config.ContractConfig, hasAccount: bool, walletSelected: bool,
                    coinObject: string, amount: nat, nftObject: string, provider: Sui.YieldProvider,
                    signing: Result<Submission, string>, oracle: seq<Confirm.FetchOutcome>, reportFails: bool)
      returns (outcome: SubmitOutcome, log: seq<Event>)
      modifies this
      ensures nfts == old(nfts)
      ensures !hasAccount || !walletSelected ==> outcome == Ignored && log == [] && isLoading == old(isLoading)
      ensures hasAccount && walletSelected ==>
        var data := Tx.TxData(None, None, [],
                              Sui.WithNftCommands(config, Sui.SuiCoinType, coinObject, amount, nftObject, NftType, provider));
        && !isLoading
        && outcome == (if signing.Ok? then Succeeded else Failed(signing.error))
        && log == [LoadingSet(true), Signed(data)]
                  + (if signing.Ok? then
                       Confirm.ConfirmLog(signing.value.digest, Confirm.Expected(oracle, reportFails))
                     else [])
                  + [LoadingSet(false)]
    {
      if !hasAccount || !walletSelected {
        return Ignored, [];
      }
      isLoading := true;
      log := [LoadingSet(true)];
      var r, opLog := Sui.CreateEscrowWithNft(config, signing, oracle, reportFails,
                                              Sui.SuiCoinType, coinObject, amount, nftObject, NftType, provider);
      log := log + opLog;
      if r.Ok? {
        outcome := Succeeded;
      } else {
        outcome := Failed(r.error);
      }
      isLoading := false;
      log := log + [LoadingSet(false)];
    }
  }
}
