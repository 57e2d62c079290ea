/** What a caller of the aggregate can conclude from the contracts of `Entity`
    alone: adding twice is adding once, adding and then removing restores the
    collection, and moving an offer to another product leaves the offer with its
    new owner when the old owner lets go of it. */
module Scenarios {
  import Collection
  import opened Entity

  /** A fresh product and a fresh offer, linked both ways. */
  method NewLinkedPair() returns (p: Product, o: Offer)
    ensures fresh(p) && fresh(o)
    ensures p.offers == [o] && o.product == p && p.Valid()
  {
    p := new Product();
    o := new Offer();
    var _ := p.AddOffer(o);
  }

  /** Calling `AddOffer` a second time with the same object changes nothing:
      the outcome is that of a single call. */
  method AddTwice(p: Product, o: Offer)
    modifies p`offers, o`product
    ensures old(o in p.offers) ==> p.offers == old(p.offers) && o.product == old(o.product)
    ensures old(o !in p.offers) ==> p.offers == old(p.offers) + [o] && o.product == p
    ensures old(p.Valid()) ==> p.Valid()
  {
    var _ := p.AddOffer(o);
    var _ := p.AddOffer(o);
  }

  /** Adding an offer the product did not have and removing it again gives back
      the product's collection as it was and leaves the offer unattached. */
  method AddThenRemove(p: Product, o: Offer)
    requires o !in p.offers
    modifies p`offers, o`product
    ensures p.offers == old(p.offers) && o.product == null
    ensures old(p.Valid()) ==> p.Valid()
  {
    var _ := p.AddOffer(o);
    Collection.RemoveAppended(old(p.offers), o);
    var _ := p.RemoveOffer(o);
  }

  /** An offer of `p1` added to `p2` now points at `p2` while `p1` still lists
      it; when `p1` then removes it, the back-reference is left alone because it
      no longer points at `p1`. */
  method MoveOffer(p1: Product, p2: Product, o: Offer)
    requires p1 != p2 && p1.Valid() && o in p1.offers && o !in p2.offers
    modifies p1`offers, p2`offers, o`product
    ensures p1.offers == Collection.RemoveElement(old(p1.offers), o) && o !in p1.offers
    ensures p2.offers == old(p2.offers) + [o]
    ensures o.product == p2
  {
    var _ := p2.AddOffer(o);
    assert p1.offers == old(p1.offers) && o in p1.offers;
    Collection.RemoveElementNoDuplicates(p1.offers, o);
    var _ := p1.RemoveOffer(o);
  }
}
