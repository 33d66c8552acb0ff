/** Choosing which active order to cancel when the order flow is opened on an
    offer the user made: the order whose calldata mentions the user's address. */
module OfferMatching {
  import opened Outcomes
  import opened Text

  /** An active marketplace order, reduced to what the match reads. */
  datatype Order = Order(id: string, calldata: string)

  /** An offer shown in the UI: who made it and the asset and token it is for. */
  datatype Offer = Offer(fromAddress: string, assetContract: string, tokenId: string, paymentToken: string)

  /** The offer was made by the user: addresses compared ignoring case. */
  predicate IsOwnOffer(offer: Offer, ethAddr: string) {
    SameIgnoringCase(offer.fromAddress, ethAddr)
  }

  /** The lower-cased calldata contains the user's address, `0x` dropped and lower-cased. */
  predicate MentionsMaker(order: Order, ethAddr: string) {
    Contains(Lower(order.calldata), Lower(StripHexPrefix(ethAddr)))
  }

  /** `orders.findIndex(...)` from position `from` on: the first order there
      that mentions the user, if any. */
  function FirstMention(orders: seq<Order>, ethAddr: string, from: nat): (r: Option<nat>)
    requires from <= |orders|
    ensures r.Some? ==> from <= r.value < |orders| && MentionsMaker(orders[r.value], ethAddr)
    ensures r.Some? ==> forall j :: from <= j < r.value ==> !MentionsMaker(orders[j], ethAddr)
    ensures r.None? <==> forall j :: from <= j < |orders| ==> !MentionsMaker(orders[j], ethAddr)
    decreases |orders| - from
  {
    if from == |orders| then None
    else if MentionsMaker(orders[from], ethAddr) then Some(from)
    else FirstMention(orders, ethAddr, from + 1)
  }

  /** The offer to cancel: the first mentioning order, or `undefined` when none does. */
  function OfferToCancel(orders: seq<Order>, ethAddr: string): (r: Option<Order>)
    ensures r.Some? ==> exists i :: 0 <= i < |orders| && orders[i] == r.value && MentionsMaker(orders[i], ethAddr) &&
                                    forall j :: 0 <= j < i ==> !MentionsMaker(orders[j], ethAddr)
    ensures r.None? <==> forall o :: o in orders ==> !MentionsMaker(o, ethAddr)
  {
    match FirstMention(orders, ethAddr, 0)
    case None => None
    case Some(i) => Some(orders[i])
  }

  /** For an address written with the `0x` prefix, an order mentions it exactly
      when its calldata, lower-cased, contains the hex digits lower-cased. */
  lemma MentionIgnoresCaseOfHex(order: Order, hex: string)
    ensures MentionsMaker(order, "0x" + hex) <==> Contains(Lower(order.calldata), Lower(hex))
  {
    assert StartsWith("0x" + hex, "0x");
    assert ("0x" + hex)[2..] == hex;
  }

  /** Whether an order mentions the user does not depend on how the hex digits
      of the address are cased. */
  lemma MentionSameForCaseVariants(order: Order, hex1: string, hex2: string)
    requires SameIgnoringCase(hex1, hex2)
    ensures MentionsMaker(order, "0x" + hex1) <==> MentionsMaker(order, "0x" + hex2)
  {
    MentionIgnoresCaseOfHex(order, hex1);
    MentionIgnoresCaseOfHex(order, hex2);
  }
}
