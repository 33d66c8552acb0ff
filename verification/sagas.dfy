/** The NFT sagas as one object: its fields are the parts of the store the
    sagas read and the reducers of their actions update, and `log` records, in
    order, every action the sagas dispatch and every tracked external call.
    Results of external calls (marketplace API, order SDK, wallet) are
    parameters; the clock is the parameter `nowMs`. */
module Sagas {
  import opened Outcomes
  import opened Paging
  import opened OrderTiming
  import opened Collections
  import opened OfferMatching
  import opened Actions
  import opened OrderFlow

  const NO_ETH_ADDRESS: string := "No ETH address."
  const NO_ASSET_FOUND: string := "No asset found"

  /** The operations a fee quote is asked for. */
  datatype GasOperation = Buy | Sell | CreateOfferFees | AcceptOfferFees | Cancel | Transfer

  /** What opening the order flow is asked for. */
  datatype FlowOpenPayload = FlowOpenPayload(
    assetContractAddress: Option<string>,
    tokenId: Option<string>,
    asset: Option<NftAsset>,
    offer: Option<Offer>)

  /** The asset the order flow opens on, as contract address and token id. */
  datatype AssetRef = AssetRef(address: Option<string>, tokenId: Option<string>)

  /** A given asset overrides the payload's address and token id. */
  function ResolveAsset(payload: FlowOpenPayload): (target: AssetRef)
    ensures payload.asset.Some? ==>
              target == AssetRef(Some(payload.asset.value.contractAddress), Some(payload.asset.value.tokenId))
    ensures payload.asset.None? ==> target == AssetRef(payload.assetContractAddress, payload.tokenId)
  {
    match payload.asset
    case Some(a) => AssetRef(Some(a.contractAddress), Some(a.tokenId))
    case None => AssetRef(payload.assetContractAddress, payload.tokenId)
  }

  /** `getDefaultAddress(...).getOrElse('')`. */
  function OrEmpty(ethAddr: Option<string>): string {
    if ethAddr.Some? then ethAddr.value else ""
  }

  /** The check that an offer has a coin selected. */
  function CoinSelected(coin: Option<string>): (r: Outcome)
    ensures r.Pass? <==> Truthy(coin)
    ensures r.Fail? ==> r.error == NO_COIN_SELECTED
  {
    if Truthy(coin) then Pass else Fail(NO_COIN_SELECTED)
  }

  /** The lookup of the coin's ERC-20 address: the lookup may throw, and a
      coin without an ERC-20 address is refused. */
  function Erc20Check(erc20Address: Result<Option<string>>): (r: Outcome)
    ensures r.Pass? <==> erc20Address.Success? && Truthy(erc20Address.value)
    ensures erc20Address.Success? && r.Fail? ==> r.error == ERC20_REQUIRED
    ensures erc20Address.Failure? ==> r == Fail(erc20Address.error)
  {
    match erc20Address
    case Failure(e) => Fail(e)
    case Success(a) => if Truthy(a) then Pass else Fail(ERC20_REQUIRED)
  }

  /** The check that a cancelled offer names an order. */
  function OfferGiven(order: Option<Order>): (r: Outcome)
    ensures r.Pass? <==> order.Some?
    ensures r.Fail? ==> r.error == NO_OFFER_FOUND
  {
    if order.Some? then Pass else Fail(NO_OFFER_FOUND)
  }

  /** The order flow is opened on an offer the user made itself. */
  predicate OwnOfferOpened(payload: FlowOpenPayload, defaultEthAddr: Option<string>) {
    payload.offer.Some? && IsOwnOffer(payload.offer.value, OrEmpty(defaultEthAddr))
  }

  /** What looking up the offer to cancel dispatches: the call for the user's
      active orders on the asset, then, if it answered, the offer to cancel
      and the cancel-offer step. */
  function OfferLookup(offer: Offer, ethAddr: string, activeOrders: Result<seq<Order>>): seq<Action> {
    [Called(GetNftOrders(offer.assetContract, offer.tokenId, offer.paymentToken, 0, ethAddr))] +
    match activeOrders
    case Failure(_) => []
    case Success(orders) => [SetOfferToCancel(OfferToCancel(orders, ethAddr)), SetOrderFlowStep(CancelOfferStep)]
  }

  /** What fetching the shown asset dispatches. */
  function OrderAssetFetch(address: string, tokenId: string, asset: Result<NftAsset>): seq<Action> {
    [FetchNftOrderAssetLoading, Called(GetNftAsset(address, tokenId)),
     match asset
     case Success(a) => FetchNftOrderAssetSuccess(a)
     case Failure(e) => FetchNftOrderAssetFailure(e)]
  }

  /** How opening the order flow ends: the lookup's error for the user's own
      offer, "No asset found" without an address and a token id, otherwise
      normally (a failed asset fetch is stored, not thrown). */
  function OpenOutcome(payload: FlowOpenPayload, defaultEthAddr: Option<string>, activeOrders: Result<seq<Order>>)
    : (outcome: Outcome)
    ensures OwnOfferOpened(payload, defaultEthAddr) && activeOrders.Failure? ==> outcome == Fail(activeOrders.error)
    ensures outcome.Pass? <==>
              !(OwnOfferOpened(payload, defaultEthAddr) && activeOrders.Failure?) &&
              Truthy(ResolveAsset(payload).address) && Truthy(ResolveAsset(payload).tokenId)
    ensures outcome.Fail? && !(OwnOfferOpened(payload, defaultEthAddr) && activeOrders.Failure?) ==>
              outcome.error == NO_ASSET_FOUND
  {
    if OwnOfferOpened(payload, defaultEthAddr) && activeOrders.Failure? then Fail(activeOrders.error)
    else if !Truthy(ResolveAsset(payload).address) || !Truthy(ResolveAsset(payload).tokenId) then Fail(NO_ASSET_FOUND)
    else Pass
  }

  /** `amount || '0'`: the offer amount sent is never empty. */
  function AmountOrZero(amount: Option<string>): (sent: string)
    ensures sent != ""
    ensures Truthy(amount) ==> sent == amount.value
    ensures !Truthy(amount) ==> sent == "0"
  {
    if Truthy(amount) then amount.value else "0"
  }

  /** The fee saga's last action: the quote, or the error of the failed call. */
  function FeesOutcome(end: Outcome, gas: Result<GasData>): seq<Action>
    requires end.Pass? ==> gas.Success?
  {
    if end.Fail? then [FetchFeesFailure(end.error)] else [FetchFeesSuccess(gas.value)]
  }

  /** The first error of an order-building step followed by the fee calculation. */
  function PrepareThenGas(prepared: Outcome, gas: Result<GasData>): (end: Outcome)
    ensures end.Pass? <==> prepared.Pass? && gas.Success?
    ensures prepared.Fail? ==> end == prepared
    ensures prepared.Pass? && gas.Failure? ==> end == Fail(gas.error)
  {
    if prepared.Fail? then prepared else if gas.Failure? then Fail(gas.error) else Pass
  }

  /** The outcome of a quote that only calculates fees. */
  function GasOnly(gas: Result<GasData>): (end: Outcome)
    ensures end.Pass? <==> gas.Success?
    ensures gas.Failure? ==> end == Fail(gas.error)
  {
    if gas.Failure? then Fail(gas.error) else Pass
  }

  class NftSagas {
    /** The marketplace's page size (`NFT_ORDER_PAGE_LIMIT`). */
    const pageLimit: nat
    var assets: PageCursor
    var offersMade: PageCursor
    var collections: Remote<seq<Collection>>
    var isSubmitting: bool
    var offerToCancel: Option<Order>
    var step: Option<OrderStep>
    var log: seq<Action>

    constructor (pageLimit: nat)
      ensures this.pageLimit == pageLimit
      ensures assets == Start && offersMade == Start && collections == NotAsked
      ensures !isSubmitting && offerToCancel == None && step == None && log == []
    {
      this.pageLimit := pageLimit;
      assets, offersMade, collections := Start, Start, NotAsked;
      isSubmitting, offerToCancel, step := false, None, None;
      log := [];
    }

    method Put(a: Action)
      modifies this`log
      ensures log == old(log) + [a]
    {
      log := log + [a];
    }

    /** Fetches the next page of the user's assets, unless the last page was already seen. */
    method FetchNftAssets(ethAddr: Option<string>, response: Result<seq<NftAsset>>)
      modifies this`assets, this`log
      ensures assets == if ethAddr.Some? && response.Success? then Advance(old(assets), |response.value|, pageLimit)
                        else old(assets)
      ensures old(assets).atBound ==> log == old(log)
      ensures !old(assets).atBound ==>
        log == old(log) + [FetchNftAssetsLoading] +
          match ethAddr
          case None => [FetchNftAssetsFailure(NO_ETH_ADDRESS)]
          case Some(owner) =>
            [Called(GetNftAssets(owner, old(assets).page))] +
            match response
            case Failure(e) => [FetchNftAssetsFailure(e)]
            case Success(nfts) =>
              [if |nfts| < pageLimit then SetAssetBounds(true) else SetAssetPage(old(assets).page + 1),
               FetchNftAssetsSuccess(nfts)]
    {
      if assets.atBound {
        return;
      }
      Put(FetchNftAssetsLoading);
      if ethAddr.None? {
        Put(FetchNftAssetsFailure(NO_ETH_ADDRESS));
        return;
      }
      Put(Called(GetNftAssets(ethAddr.value, assets.page)));
      if response.Failure? {
        Put(FetchNftAssetsFailure(response.error));
        return;
      }
      var nfts := response.value;
      if |nfts| < pageLimit {
        Put(SetAssetBounds(true));
        assets := assets.(atBound := true);
      } else {
        Put(SetAssetPage(assets.page + 1));
        assets := assets.(page := assets.page + 1);
      }
      Put(FetchNftAssetsSuccess(nfts));
    }

    /** Fetches the next page of the offers the user made, unless the last page was already seen. */
    method FetchNftOffersMade(ethAddr: Option<string>, response: Result<seq<AssetEvent>>)
      modifies this`offersMade, this`log
      ensures offersMade == if ethAddr.Some? && response.Success? then Advance(old(offersMade), |response.value|, pageLimit)
                            else old(offersMade)
      ensures old(offersMade).atBound ==> log == old(log)
      ensures !old(offersMade).atBound ==>
        log == old(log) + [FetchNftOffersMadeLoading] +
          match ethAddr
          case None => [FetchNftOffersMadeFailure(NO_ETH_ADDRESS)]
          case Some(owner) =>
            [Called(GetOffersMade(owner, old(offersMade).page))] +
            match response
            case Failure(e) => [FetchNftOffersMadeFailure(e)]
            case Success(events) =>
              [if |events| < pageLimit then SetOffersMadeBounds(true) else SetOffersMadePage(old(offersMade).page + 1),
               FetchNftOffersMadeSuccess(events)]
    {
      if offersMade.atBound {
        return;
      }
      Put(FetchNftOffersMadeLoading);
      if ethAddr.None? {
        Put(FetchNftOffersMadeFailure(NO_ETH_ADDRESS));
        return;
      }
      Put(Called(GetOffersMade(ethAddr.value, offersMade.page)));
      if response.Failure? {
        Put(FetchNftOffersMadeFailure(response.error));
        return;
      }
      var events := response.value;
      if |events| < pageLimit {
        Put(SetOffersMadeBounds(true));
        offersMade := offersMade.(atBound := true);
      } else {
        Put(SetOffersMadePage(offersMade.page + 1));
        offersMade := offersMade.(page := offersMade.page + 1);
      }
      Put(FetchNftOffersMadeSuccess(events));
    }

    /** Empties the assets list and asks for its first page again. */
    method ClearAndRefetchAssets()
      modifies this`assets, this`log
      ensures assets == Start
      ensures log == old(log) + [ResetNftAssets, Action.FetchNftAssets]
    {
      Put(ResetNftAssets);
      assets := Start;
      Put(Action.FetchNftAssets);
    }

    /** Empties the offers-made list and asks for its first page again. */
    method ClearAndRefetchOffersMade()
      modifies this`offersMade, this`log
      ensures offersMade == Start
      ensures log == old(log) + [ResetNftOffersMade, Action.FetchNftOffersMade]
    {
      Put(ResetNftOffersMade);
      offersMade := Start;
      Put(Action.FetchNftOffersMade);
    }

    /** Fetches the collection list, unless it is loaded and no sort is asked for. */
    method FetchNftCollections(sortBy: Option<string>, direction: Option<string>, response: Result<seq<Collection>>)
      modifies this`collections, this`log
      ensures SkipFetch(old(collections), sortBy, direction) ==> collections == old(collections) && log == old(log)
      ensures !SkipFetch(old(collections), sortBy, direction) ==>
        match response
        case Success(list) =>
          collections == Loaded(Shown(list)) &&
          log == old(log) + [FetchNftCollectionsLoading, Called(GetNftCollections(sortBy, direction)),
                             FetchNftCollectionsSuccess(Shown(list))]
        case Failure(e) =>
          collections == Failed(e) &&
          log == old(log) + [FetchNftCollectionsLoading, Called(GetNftCollections(sortBy, direction)),
                             FetchNftCollectionsFailure(e)]
    {
      if SkipFetch(collections, sortBy, direction) {
        return;
      }
      var request := [FetchNftCollectionsLoading, Called(GetNftCollections(sortBy, direction))];
      match response {
        case Success(list) =>
          var shown := Shown(list);
          log := log + (request + [FetchNftCollectionsSuccess(shown)]);
          collections := Loaded(shown);
        case Failure(e) =>
          log := log + (request + [FetchNftCollectionsFailure(e)]);
          collections := Failed(e);
      }
    }

    /** Quotes the fees of an operation. Buying and accepting an offer first
        resolve the matching orders; creating an offer and selling first build
        the order (with the listing and expiration policy for a sale). The
        quote's errors are reported as they are, without remapping. */
    method FetchFees(op: GasOperation, nowMs: int, listing: DateField, expiration: DateField, offerAmount: string,
                     signer: Outcome, prepared: Outcome, gas: Result<GasData>)
      modifies this`log
      ensures GetEthSigner(signer).Fail? ==> log == old(log) + [FetchFeesLoading, FetchFeesFailure(WALLET_SIGNER_ERR)]
      ensures signer.Pass? && (op.Buy? || op.AcceptOfferFees?) ==>
        var end := PrepareThenGas(prepared, gas);
        log == old(log) + [FetchFeesLoading, FetchMatchingOrderLoading] +
               (if end.Fail? then [FetchMatchingOrderFailure(end.error)] else [FetchMatchingOrderSuccess]) +
               FeesOutcome(end, gas)
      ensures signer.Pass? && op.CreateOfferFees? ==>
        log == old(log) + [FetchFeesLoading, Called(GetNftBuyOrder(None, offerAmount))] +
               FeesOutcome(PrepareThenGas(prepared, gas), gas)
      ensures signer.Pass? && op.Sell? ==>
        log == old(log) + [FetchFeesLoading,
                           Called(GetNftSellOrder(ListingTime(listing, nowMs), ExpirationTime(expiration, nowMs)))] +
               FeesOutcome(PrepareThenGas(prepared, gas), gas)
      ensures signer.Pass? && (op.Cancel? || op.Transfer?) ==>
        log == old(log) + [FetchFeesLoading] + FeesOutcome(GasOnly(gas), gas)
    {
      Put(FetchFeesLoading);
      var end := GetEthSigner(signer);
      if end.Fail? {
        Put(FetchFeesFailure(end.error));
        return;
      }
      match op {
        case Buy =>
          Put(FetchMatchingOrderLoading);
          end := PrepareThenGas(prepared, gas);
          if end.Pass? { Put(FetchMatchingOrderSuccess); } else { Put(FetchMatchingOrderFailure(end.error)); }
        case AcceptOfferFees =>
          Put(FetchMatchingOrderLoading);
          end := PrepareThenGas(prepared, gas);
          if end.Pass? { Put(FetchMatchingOrderSuccess); } else { Put(FetchMatchingOrderFailure(end.error)); }
        case CreateOfferFees =>
          Put(Called(GetNftBuyOrder(None, offerAmount)));
          end := PrepareThenGas(prepared, gas);
        case Cancel =>
          end := GasOnly(gas);
        case Sell =>
          var listingTime := ListingTime(listing, nowMs);
          var expirationTime := ExpirationTime(expiration, nowMs);
          Put(Called(GetNftSellOrder(listingTime, expirationTime)));
          end := PrepareThenGas(prepared, gas);
        case Transfer =>
          end := GasOnly(gas);
      }
      if end.Pass? {
        Put(FetchFeesSuccess(gas.value));
      } else {
        Put(FetchFeesFailure(end.error));
      }
    }

    method SetSubmitting(flag: bool)
      modifies this`isSubmitting, this`log
      ensures isSubmitting == flag && log == old(log) + [SetOrderFlowIsSubmitting(flag)]
    {
      Put(SetOrderFlowIsSubmitting(flag));
      isSubmitting := flag;
    }

    /** The end of the try block on success, or the catch block on an error. */
    method Close(flow: Flow, end: Outcome)
      modifies this`log
      ensures log == old(log) + Closing(flow, end)
    {
      if end.Pass? {
        log := log + SuccessEffects(flow);
      } else {
        var shown := RemapError(flow, end.error);
        if flow == Flow.CancelOffer {
          log := log + [DisplayError(shown), LogErrorMessage(shown)];
        } else {
          log := log + [LogErrorMessage(shown), DisplayError(shown)];
        }
      }
    }

    /** One statement of a flow's try block: skipped once an earlier one threw;
        otherwise its call, if the log records it, is logged and its outcome
        becomes the flow's. `todo` are the statements not yet run, this one first. */
    method Attempt(ghost todo: seq<Step>, end: Outcome, step: Step) returns (next: Outcome, ghost rest: seq<Step>)
      requires todo != [] && todo[0] == step
      modifies this`log
      ensures rest == todo[1..]
      ensures Continue(Ran(log, next), rest) == Continue(Ran(old(log), end), todo)
      ensures end.Fail? ==> log == old(log) && next == end
      ensures end.Pass? ==> log == old(log) + StepCalls(step) && next == step.outcome
    {
      ContinueStep(Ran(log, end), todo);
      rest := todo[1..];
      if end.Fail? {
        next := end;
        return;
      }
      if step.Request? {
        Put(Called(step.call));
      }
      next := step.outcome;
    }

    /** Fulfils the matching buy and sell orders of an accepted offer. */
    method AcceptOffer(signer: Outcome, fulfil: Outcome)
      modifies this`isSubmitting, this`log
      ensures !isSubmitting
      ensures log == old(log) + Bracket(Flow.AcceptOffer, [], [Effect(GetEthSigner(signer)), Effect(fulfil)])
    {
      SetSubmitting(true);
      ghost var block := [Effect(GetEthSigner(signer)), Effect(fulfil)];
      ghost var todo := block;
      var end := Pass;
      end, todo := Attempt(todo, end, Effect(GetEthSigner(signer)));
      end, todo := Attempt(todo, end, Effect(fulfil));
      ContinueDone(Ran(log, end));
      Close(Flow.AcceptOffer, end);
      SetSubmitting(false);
      BracketRaisedFirst(Flow.AcceptOffer, block, Run(block).calls, end, old(log));
    }

    /** Builds, signs and posts an offer in the selected ERC-20 coin, always
        expiring seven days from now. */
    method CreateOffer(nowMs: int, signer: Outcome, coin: Option<string>, erc20Address: Result<Option<string>>,
                       amount: Option<string>, buyOrder: Outcome, gas: Outcome, fulfil: Outcome, post: Outcome)
      modifies this`isSubmitting, this`log
      ensures !isSubmitting
      ensures log == old(log) + Bracket(Flow.CreateOffer, [],
        [Effect(GetEthSigner(signer)), Effect(CoinSelected(coin)), Effect(Erc20Check(erc20Address)),
         Request(GetNftBuyOrder(Some(OfferExpirationTime(nowMs)), AmountOrZero(amount)), buyOrder),
         Effect(gas), Effect(fulfil), Effect(post)])
    {
      SetSubmitting(true);
      var expirationTime := OfferExpirationTime(nowMs);
      var buy := GetNftBuyOrder(Some(expirationTime), AmountOrZero(amount));
      ghost var block := [Effect(GetEthSigner(signer)), Effect(CoinSelected(coin)), Effect(Erc20Check(erc20Address)),
                          Request(buy, buyOrder), Effect(gas), Effect(fulfil), Effect(post)];
      ghost var todo := block;
      var end := Pass;
      end, todo := Attempt(todo, end, Effect(GetEthSigner(signer)));
      end, todo := Attempt(todo, end, Effect(CoinSelected(coin)));
      end, todo := Attempt(todo, end, Effect(Erc20Check(erc20Address)));
      end, todo := Attempt(todo, end, Request(buy, buyOrder));
      end, todo := Attempt(todo, end, Effect(gas));
      end, todo := Attempt(todo, end, Effect(fulfil));
      end, todo := Attempt(todo, end, Effect(post));
      ContinueDone(Ran(log, end));
      Close(Flow.CreateOffer, end);
      SetSubmitting(false);
      BracketRaisedFirst(Flow.CreateOffer, block, Run(block).calls, end, old(log));
    }

    /** Fulfils a buy order the user chose. */
    method CreateOrder(signer: Outcome, fulfil: Outcome)
      modifies this`isSubmitting, this`log
      ensures !isSubmitting
      ensures log == old(log) + Bracket(Flow.CreateOrder, [], [Effect(GetEthSigner(signer)), Effect(fulfil)])
    {
      SetSubmitting(true);
      ghost var block := [Effect(GetEthSigner(signer)), Effect(fulfil)];
      ghost var todo := block;
      var end := Pass;
      end, todo := Attempt(todo, end, Effect(GetEthSigner(signer)));
      end, todo := Attempt(todo, end, Effect(fulfil));
      ContinueDone(Ran(log, end));
      Close(Flow.CreateOrder, end);
      SetSubmitting(false);
      BracketRaisedFirst(Flow.CreateOrder, block, Run(block).calls, end, old(log));
    }

    /** Lists an asset for sale: the listing and expiration times follow the
        listing policy, then the order is built, signed and posted. */
    method CreateSellOrder(nowMs: int, listing: DateField, expiration: DateField, signer: Outcome,
                           sellOrder: Outcome, fulfilSell: Outcome, post: Outcome)
      modifies this`isSubmitting, this`log
      ensures !isSubmitting
      ensures log == old(log) + Bracket(Flow.CreateSellOrder, [],
        [Effect(GetEthSigner(signer)),
         Request(GetNftSellOrder(ListingTime(listing, nowMs), ExpirationTime(expiration, nowMs)), sellOrder),
         Effect(fulfilSell), Effect(post)])
    {
      var listingTime := ListingTime(listing, nowMs);
      var expirationTime := ExpirationTime(expiration, nowMs);
      var sell := GetNftSellOrder(listingTime, expirationTime);
      SetSubmitting(true);
      ghost var block := [Effect(GetEthSigner(signer)), Request(sell, sellOrder), Effect(fulfilSell), Effect(post)];
      ghost var todo := block;
      var end := Pass;
      end, todo := Attempt(todo, end, Effect(GetEthSigner(signer)));
      end, todo := Attempt(todo, end, Request(sell, sellOrder));
      end, todo := Attempt(todo, end, Effect(fulfilSell));
      end, todo := Attempt(todo, end, Effect(post));
      ContinueDone(Ran(log, end));
      Close(Flow.CreateSellOrder, end);
      SetSubmitting(false);
      BracketRaisedFirst(Flow.CreateSellOrder, block, Run(block).calls, end, old(log));
    }

    /** Transfers an asset to another address and posts the transfer. */
    method CreateTransfer(signer: Outcome, transfer: Outcome, post: Outcome)
      modifies this`isSubmitting, this`log
      ensures !isSubmitting
      ensures log == old(log) + Bracket(Flow.CreateTransfer, [],
                                        [Effect(GetEthSigner(signer)), Effect(transfer), Effect(post)])
    {
      SetSubmitting(true);
      ghost var block := [Effect(GetEthSigner(signer)), Effect(transfer), Effect(post)];
      ghost var todo := block;
      var end := Pass;
      end, todo := Attempt(todo, end, Effect(GetEthSigner(signer)));
      end, todo := Attempt(todo, end, Effect(transfer));
      end, todo := Attempt(todo, end, Effect(post));
      ContinueDone(Ran(log, end));
      Close(Flow.CreateTransfer, end);
      SetSubmitting(false);
      BracketRaisedFirst(Flow.CreateTransfer, block, Run(block).calls, end, old(log));
    }

    /** Cancels one of the user's listings; the signer is obtained before the
        flag is raised. */
    method CancelListing(signer: Outcome, cancel: Outcome)
      modifies this`isSubmitting, this`log
      ensures !isSubmitting
      ensures log == old(log) + Bracket(Flow.CancelListing, [Effect(GetEthSigner(signer))], [Effect(cancel)])
    {
      ghost var checks, block := [Effect(GetEthSigner(signer))], [Effect(cancel)];
      ghost var todo := checks;
      var end := Pass;
      end, todo := Attempt(todo, end, Effect(GetEthSigner(signer)));
      ContinueDone(Ran(log, end));
      ghost var first := end;
      if end.Pass? {
        SetSubmitting(true);
        todo := block;
        end, todo := Attempt(todo, end, Effect(cancel));
        ContinueDone(Ran(log, end));
      }
      Close(Flow.CancelListing, end);
      SetSubmitting(false);
      BracketChecksFirst(Flow.CancelListing, checks, block, Run(checks).calls, first,
                         Run(block).calls, Run(block).outcome, old(log));
    }

    /** Cancels one of the user's offers: a missing order is refused before the
        signer is obtained, and both happen before the flag is raised. */
    method CancelOffer(order: Option<Order>, signer: Outcome, cancel: Outcome)
      modifies this`isSubmitting, this`log
      ensures !isSubmitting
      ensures log == old(log) + Bracket(Flow.CancelOffer, [Effect(OfferGiven(order)), Effect(GetEthSigner(signer))],
                                        [Effect(cancel)])
    {
      ghost var checks, block := [Effect(OfferGiven(order)), Effect(GetEthSigner(signer))], [Effect(cancel)];
      ghost var todo := checks;
      var end := Pass;
      end, todo := Attempt(todo, end, Effect(OfferGiven(order)));
      end, todo := Attempt(todo, end, Effect(GetEthSigner(signer)));
      ContinueDone(Ran(log, end));
      ghost var first := end;
      if end.Pass? {
        SetSubmitting(true);
        todo := block;
        end, todo := Attempt(todo, end, Effect(cancel));
        ContinueDone(Ran(log, end));
      }
      Close(Flow.CancelOffer, end);
      SetSubmitting(false);
      BracketChecksFirst(Flow.CancelOffer, checks, block, Run(checks).calls, first,
                         Run(block).calls, Run(block).outcome, old(log));
    }

    /** Routes a form change: a new sort of the collection search refetches
        the collections, a chosen collection filters the assets. */
    method FormChanged(form: string, field: string, payload: string)
      modifies this`log
      ensures form == "nftSearch" && field == "sortBy" ==>
                log == old(log) + [Action.FetchNftCollections(Some(SortBy(payload)), SortDirection(payload))]
      ensures form == "nftCollection" && field == "collection" ==> log == old(log) + [SetAssetCollection(payload)]
      ensures !(form == "nftSearch" && field == "sortBy") && !(form == "nftCollection" && field == "collection") ==>
                log == old(log)
    {
      if form == "nftSearch" && field == "sortBy" {
        Put(Action.FetchNftCollections(Some(SortBy(payload)), SortDirection(payload)));
      }
      if form == "nftCollection" && field == "collection" {
        Put(SetAssetCollection(payload));
      }
    }

    /** Looks up, among the user's active orders on the offered asset, the one
        to cancel, and moves the flow to the cancel-offer step. */
    method LookUpOfferToCancel(offer: Offer, ethAddr: string, activeOrders: Result<seq<Order>>)
      returns (outcome: Outcome)
      modifies this`offerToCancel, this`step, this`log
      ensures outcome == if activeOrders.Failure? then Fail(activeOrders.error) else Pass
      ensures log == old(log) + OfferLookup(offer, ethAddr, activeOrders)
      ensures activeOrders.Success? ==>
                offerToCancel == OfferToCancel(activeOrders.value, ethAddr) && step == Some(CancelOfferStep)
      ensures activeOrders.Failure? ==> offerToCancel == old(offerToCancel) && step == old(step)
    {
      Put(Called(GetNftOrders(offer.assetContract, offer.tokenId, offer.paymentToken, 0, ethAddr)));
      if activeOrders.Failure? {
        return Fail(activeOrders.error);
      }
      var toCancel := OfferToCancel(activeOrders.value, ethAddr);
      Put(SetOfferToCancel(toCancel));
      offerToCancel := toCancel;
      Put(SetOrderFlowStep(CancelOfferStep));
      step := Some(CancelOfferStep);
      return Pass;
    }

    /** Fetches the asset the order flow shows and stores it, or the error. */
    method FetchOrderAsset(address: string, tokenId: string, asset: Result<NftAsset>)
      modifies this`log
      ensures log == old(log) + OrderAssetFetch(address, tokenId, asset)
    {
      Put(FetchNftOrderAssetLoading);
      Put(Called(GetNftAsset(address, tokenId)));
      match asset {
        case Success(a) => Put(FetchNftOrderAssetSuccess(a));
        case Failure(e) => Put(FetchNftOrderAssetFailure(e));
      }
    }

    /** Opens the order flow on an asset. An offer made by the user itself is
        looked up among the user's active orders to be cancelled; a failed
        lookup, or an asset without address or token id, ends the saga with
        that error; otherwise the asset is fetched and the result stored. */
    method NftOrderFlowOpen(payload: FlowOpenPayload, defaultEthAddr: Option<string>,
                            activeOrders: Result<seq<Order>>, asset: Result<NftAsset>)
      returns (outcome: Outcome)
      modifies this`offerToCancel, this`step, this`log
      ensures outcome == OpenOutcome(payload, defaultEthAddr, activeOrders)
      ensures OwnOfferOpened(payload, defaultEthAddr) && activeOrders.Success? ==>
                offerToCancel == OfferToCancel(activeOrders.value, OrEmpty(defaultEthAddr)) &&
                step == Some(CancelOfferStep)
      ensures !(OwnOfferOpened(payload, defaultEthAddr) && activeOrders.Success?) ==>
                offerToCancel == old(offerToCancel) && step == old(step)
      ensures var lookup :=
                if OwnOfferOpened(payload, defaultEthAddr)
                then OfferLookup(payload.offer.value, OrEmpty(defaultEthAddr), activeOrders) else [];
              var target := ResolveAsset(payload);
              log == old(log) + [ShowOrderModal] + lookup +
                     if outcome.Fail? then [] else OrderAssetFetch(target.address.value, target.tokenId.value, asset)
    {
      Put(ShowOrderModal);
      var target := ResolveAsset(payload);
      var ethAddr := OrEmpty(defaultEthAddr);
      if payload.offer.Some? && IsOwnOffer(payload.offer.value, ethAddr) {
        outcome := LookUpOfferToCancel(payload.offer.value, ethAddr, activeOrders);
        if outcome.Fail? {
          return;
        }
      }
      if !Truthy(target.address) || !Truthy(target.tokenId) {
        return Fail(NO_ASSET_FOUND);
      }
      FetchOrderAsset(target.address.value, target.tokenId.value, asset);
      return Pass;
    }
  }
}
