/** The catalog's two entities and the relationship between them: a `Product`
    owns an ordered collection of `Offer`s, and each `Offer` points back at the
    product it belongs to (or at nothing). Both are mutable objects; the
    collection is compared by object identity. */
module Entity {
  import Collection

  datatype Option<T> = None | Some(value: T)

  /** A value held by a property declared without a type: it starts as null and
      accepts whatever scalar it is given. */
  datatype Value = Null | Bool(b: bool) | Int(i: int) | Str(s: string)

  /** How a call with a declared `string` return type ends under strict typing:
      it returns a string, or the returned value is not one and a TypeError is
      thrown. */
  datatype Outcome<T> = Returned(value: T) | ThrowsTypeError

  /** An offer for a product: where to buy it (offer URL), for how much (price,
      an uninterpreted string) and in which currency, and the product it is
      attached to. The three strings are typed properties without a default, so
      they stay uninitialised (`None`) until set, and reading one before that is
      an error; `id` is assigned by the storage layer, never by this class. */
  class Offer {
    var id: Option<int>
    var url: Option<string>
    var price: Option<string>
    var priceCurrency: Option<string>
    var product: Product?

    constructor ()
      ensures id == None && product == null
      ensures url == None && price == None && priceCurrency == None
    {
      id := None;
      url := None;
      price := None;
      priceCurrency := None;
      product := null;
    }

    /** The storage-assigned identifier; no method of this class assigns it. */
    function GetId(): (r: Option<int>)
      reads this
      ensures r == id
    {
      id
    }

    method SetUrl(u: string)
      modifies this`url
      ensures url == Some(u) && GetUrl() == u
    {
      url := Some(u);
    }

    function GetUrl(): (r: string)
      reads this
      requires url.Some?
      ensures url == Some(r)
    {
      url.value
    }

    method SetPrice(p: string)
      modifies this`price
      ensures price == Some(p) && GetPrice() == p
    {
      price := Some(p);
    }

    function GetPrice(): (r: string)
      reads this
      requires price.Some?
      ensures price == Some(r)
    {
      price.value
    }

    method SetPriceCurrency(c: string)
      modifies this`priceCurrency
      ensures priceCurrency == Some(c) && GetPriceCurrency() == c
    {
      priceCurrency := Some(c);
    }

    function GetPriceCurrency(): (r: string)
      reads this
      requires priceCurrency.Some?
      ensures priceCurrency == Some(r)
    {
      priceCurrency.value
    }

    function GetProduct(): (r: Product?)
      reads this
      ensures r == product
    {
      product
    }

    /** Points this offer at `p`, which may be null, and returns this offer. */
    method SetProduct(p: Product?) returns (r: Offer)
      modifies this`product
      ensures product == p && GetProduct() == p
      ensures r == this
    {
      product := p;
      r := this;
    }
  }

  /** A catalog item. `name` and `description` are typed properties without a
      default (uninitialised until set); `image` and `url` are untyped and start
      as null. `offers` is the ordered collection of offers, empty at first. */
  class Product {
    var id: Option<int>
    var name: Option<string>
    var description: Option<string>
    var image: Value
    var offers: seq<Offer>
    var url: Value

    /** The aggregate's invariant: no offer is in the collection twice, and every
        offer in it points back at this product. */
    ghost predicate Valid()
      reads this, offers
    {
      Collection.NoDuplicates(offers) &&
      forall o :: o in offers ==> o.product == this
    }

    constructor ()
      ensures offers == [] && Valid()
      ensures id == None && name == None && description == None
      ensures image == Null && url == Null
    {
      id := None;
      name := None;
      description := None;
      image := Null;
      offers := [];
      url := Null;
    }

    /** The storage-assigned identifier; no method of this class assigns it. */
    function GetId(): (r: Option<int>)
      reads this
      ensures r == id
    {
      id
    }

    method SetName(n: string)
      modifies this`name
      ensures name == Some(n) && GetName() == n
    {
      name := Some(n);
    }

    function GetName(): (r: string)
      reads this
      requires name.Some?
      ensures name == Some(r)
    {
      name.value
    }

    method SetDescription(d: string)
      modifies this`description
      ensures description == Some(d) && GetDescription() == d
    {
      description := Some(d);
    }

    function GetDescription(): (r: string)
      reads this
      requires description.Some?
      ensures description == Some(r)
    {
      description.value
    }

    method SetImage(v: Value)
      modifies this`image
      ensures image == v && GetImage() == v
    {
      image := v;
    }

    function GetImage(): (r: Value)
      reads this
      ensures r == image
    {
      image
    }

    method SetUrl(v: Value)
      modifies this`url
      ensures url == v && GetUrl() == v
      ensures v.Str? ==> ToString() == Returned(v.s)
    {
      url := v;
    }

    function GetUrl(): (r: Value)
      reads this
      ensures r == url
    {
      url
    }

    /** The product rendered as text is its URL; anything but a string there
        makes the declared `string` return type throw. */
    function ToString(): (r: Outcome<string>)
      reads this
      ensures r.Returned? <==> url.Str?
      ensures r.Returned? ==> url == Str(r.value)
    {
      match url
      case Str(s) => Returned(s)
      case _ => ThrowsTypeError
    }

    function GetOffers(): (r: seq<Offer>)
      reads this
      ensures r == offers
    {
      offers
    }

    /** Appends `offer` unless that very object is already in the collection,
        and, when it appends, also points it back at this product. Nothing else
        changes: in particular a product `offer` belonged to before keeps it in
        its own collection. Returns this product. */
    method AddOffer(offer: Offer) returns (r: Product)
      modifies this`offers, offer`product
      ensures r == this
      ensures old(offer in offers) ==> offers == old(offers) && offer.product == old(offer.product)
      ensures old(offer !in offers) ==> offers == old(offers) + [offer] && offer.product == this
      ensures old(Valid()) ==> Valid()
    {
      if offer !in offers {
        ghost var before := offers;
        offers := offers + [offer];
        var _ := offer.SetProduct(this);
        if old(Valid()) {
          Collection.AppendNoDuplicates(before, offer);
        }
      }
      r := this;
    }

    /** Takes `offer` out of the collection if it is there, keeping the order of
        the rest, and then clears its back-reference only if it still points at
        this product. An offer that is not in the collection changes nothing,
        even when it points at this product. Returns this product. */
    method RemoveOffer(offer: Offer) returns (r: Product)
      modifies this`offers, offer`product
      ensures r == this
      ensures offers == Collection.RemoveElement(old(offers), offer)
      ensures offer.product ==
        if old(offer in offers) && old(offer.product) == this then null else old(offer.product)
      ensures old(offer !in offers) ==> offers == old(offers) && offer.product == old(offer.product)
      ensures old(Valid()) ==> Valid() && offer !in offers
    {
      if offer in offers {
        ghost var before := offers;
        offers := Collection.RemoveElement(offers, offer);
        if offer.GetProduct() == this {
          var _ := offer.SetProduct(null);
        }
        if old(Valid()) {
          Collection.RemoveElementNoDuplicates(before, offer);
          forall o | o in offers ensures o.product == this {
            Collection.RemoveElementSubset(before, offer, o);
          }
        }
      }
      r := this;
    }
  }
}
