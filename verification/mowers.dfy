/** The Mower aggregate: an equipment listing with capped lists of reviews
    and offers, and the transforms makeMowerReview and manageMowerOffer apply
    to a mower once it has been found. */
module Mowers {
  import opened Common
  import opened SubLists

  datatype Review = Review(shortid: string, name: string, content: string, test: string, rate: real)

  datatype Offer = Offer(
    shortid: string, name: string, marketplace: string, format: string,
    cost: real, cords: Cord, likes: int)

  datatype Mower = Mower(
    shortid: string, accountId: string, username: string, title: string,
    category: string, format: string, country: string, cutSize: real, isStripe: bool,
    link: string, mainPhoto: string, reviews: seq<Review>, offers: seq<Offer>)

  function ReviewKey(r: Review): string { r.shortid }
  function OfferKey(o: Offer): string { o.shortid }

  ghost predicate Valid(m: Mower) {
    && |m.reviews| <= Cap && |m.offers| <= Cap
    && UniqueKeys(m.reviews, ReviewKey) && UniqueKeys(m.offers, OfferKey)
  }

  /** `id` is not yet used by any review or offer of `m`. */
  ghost predicate Fresh(m: Mower, id: string) {
    KeyAbsent(m.reviews, ReviewKey, id) && KeyAbsent(m.offers, OfferKey, id)
  }

  function LikeOffer(o: Offer): Offer { o.(likes := o.likes + 1) }

  /** makeMowerReview on a found mower: append the review, keep the last 20. */
  function AddReview(m: Mower, name: string, content: string, test: string, rate: real, freshId: string): (n: Mower)
    ensures n.(reviews := m.reviews) == m
    ensures n.reviews == CappedAppend(m.reviews, Review(freshId, name, content, test, rate))
  {
    m.(reviews := CappedAppend(m.reviews, Review(freshId, name, content, test, rate)))
  }

  /** manageMowerOffer on a found mower. "create" appends an offer with no
      likes and caps the list; "like" adds one like to the offers with id
      `collId`; any other option deletes them. */
  function OfferStep(
    m: Mower, option: string, name: string, marketplace: string, format: string,
    cost: real, cords: Cord, collId: string, freshId: string): (n: Mower)
    ensures n.(offers := m.offers) == m
    ensures option == "create" ==>
      n.offers == CappedAppend(m.offers, Offer(freshId, name, marketplace, format, cost, cords, 0))
    ensures option == "like" ==>
      && |n.offers| == |m.offers|
      && forall i :: 0 <= i < |m.offers| ==>
           n.offers[i] == (if m.offers[i].shortid == collId then m.offers[i].(likes := m.offers[i].likes + 1) else m.offers[i])
    ensures option != "create" && option != "like" ==>
      n.offers == RemoveKey(m.offers, OfferKey, collId)
  {
    if option == "create" then
      m.(offers := CappedAppend(m.offers, Offer(freshId, name, marketplace, format, cost, cords, 0)))
    else if option == "like" then
      m.(offers := MapWhere(m.offers, OfferKey, collId, LikeOffer))
    else
      m.(offers := RemoveKey(m.offers, OfferKey, collId))
  }

  lemma AddReviewKeepsValid(m: Mower, name: string, content: string, test: string, rate: real, freshId: string)
    requires Valid(m) && Fresh(m, freshId)
    ensures Valid(AddReview(m, name, content, test, rate, freshId))
  {
    CappedAppendKeepsUnique(m.reviews, ReviewKey, Review(freshId, name, content, test, rate));
  }

  lemma OfferStepKeepsValid(
    m: Mower, option: string, name: string, marketplace: string, format: string,
    cost: real, cords: Cord, collId: string, freshId: string)
    requires Valid(m) && Fresh(m, freshId)
    ensures Valid(OfferStep(m, option, name, marketplace, format, cost, cords, collId, freshId))
  {
    if option == "create" {
      CappedAppendKeepsUnique(m.offers, OfferKey, Offer(freshId, name, marketplace, format, cost, cords, 0));
    } else if option == "like" {
      MapWhereKeepsUnique(m.offers, OfferKey, collId, LikeOffer);
    } else {
      RemoveKeyKeepsUnique(m.offers, OfferKey, collId);
    }
  }
}
