/** The entries of the action log: every store action a saga dispatches, and
    every external call whose arguments the model tracks. */
module Actions {
  import opened Outcomes
  import Collections
  import OfferMatching

  /** An asset as the marketplace reports it. */
  datatype NftAsset = NftAsset(contractAddress: string, tokenId: string)

  /** An entry of the offers-made feed. */
  datatype AssetEvent = AssetEvent(id: string)

  /** A fee quote. */
  datatype GasData = GasData(gasFees: nat, gasPrice: nat)

  /** The order-flow steps the sagas set (only CANCEL_OFFER). */
  datatype OrderStep = CancelOfferStep

  /** External calls made with arguments the model computes. */
  datatype ApiCall =
    | GetNftAssets(owner: string, page: nat)
    | GetOffersMade(owner: string, page: nat)
    | GetNftCollections(sortBy: Option<string>, direction: Option<string>)
    | GetNftSellOrder(listingTime: Option<int>, expirationTime: int)
    | GetNftBuyOrder(offerExpiration: Option<int>, amount: string)
    | GetNftOrders(assetContract: string, tokenId: string, paymentToken: string, page: nat, maker: string)
    | GetNftAsset(assetContract: string, tokenId: string)

  datatype Action =
    | Called(call: ApiCall)
      // assets list
    | FetchNftAssetsLoading
    | SetAssetBounds(atBound: bool)
    | SetAssetPage(page: nat)
    | FetchNftAssetsSuccess(assets: seq<NftAsset>)
    | FetchNftAssetsFailure(error: string)
    | ResetNftAssets
    | FetchNftAssets
    | ClearAndRefetchAssets
      // offers-made list
    | FetchNftOffersMadeLoading
    | SetOffersMadeBounds(atBound: bool)
    | SetOffersMadePage(page: nat)
    | FetchNftOffersMadeSuccess(events: seq<AssetEvent>)
    | FetchNftOffersMadeFailure(error: string)
    | ResetNftOffersMade
    | FetchNftOffersMade
    | ClearAndRefetchOffersMade
    | ClearAndRefetchOrders
      // collections
    | FetchNftCollections(sortBy: Option<string>, direction: Option<string>)
    | FetchNftCollectionsLoading
    | FetchNftCollectionsSuccess(collections: seq<Collections.Collection>)
    | FetchNftCollectionsFailure(error: string)
    | SetAssetCollection(collection: string)
      // fees
    | FetchFeesLoading
    | FetchMatchingOrderLoading
    | FetchMatchingOrderSuccess
    | FetchMatchingOrderFailure(error: string)
    | FetchFeesSuccess(fees: GasData)
    | FetchFeesFailure(error: string)
      // order flow
    | SetOrderFlowIsSubmitting(isSubmitting: bool)
    | ShowOrderModal
    | SetOfferToCancel(offer: Option<OfferMatching.Order>)
    | SetOrderFlowStep(step: OrderStep)
    | FetchNftOrderAssetLoading
    | FetchNftOrderAssetSuccess(asset: NftAsset)
    | FetchNftOrderAssetFailure(error: string)
      // modals, router, alerts, logs
    | CloseAllModals
    | RouterPush(path: string)
    | DisplaySuccess(message: string)
    | DisplayError(message: string)
    | LogErrorMessage(message: string)
}
