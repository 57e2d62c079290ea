# Product ↔ Offer aggregate

A verified model of the in-memory part of a small e-commerce catalog: the
`Product` entity, which owns an ordered collection of `Offer`s, and the `Offer`
entity, a record of a URL, a price, a currency and a nullable back-reference to
its product. The two sides of the relationship are kept in step only by
`Product.addOffer` and `Product.removeOffer`; everything else is plain field
storage.

- `collection.dfy`, module `Collection`: the behaviour of the offers collection
  under identity comparison, as pure functions on sequences. `RemoveElement`
  takes out the first occurrence of an element, and `IndexOf` finds that
  occurrence. Removal also reports whether it found the element; the model
  reads that as membership before the call. The lemmas say that removal keeps the order of the rest, that it
  keeps a duplicate-free collection duplicate-free, and that removing an element
  just appended restores the collection.
- `entity.dfy`, module `Entity`: the classes `Offer` and `Product`. Every setter
  is a method whose `modifies` clause names only its own field. Getters and
  `ToString` are functions. `Product.Valid()` is the aggregate's invariant: no
  duplicates, and every listed offer points back at the product. `AddOffer` and
  `RemoveOffer` are proved to preserve it.
- `scenarios.dfy`, module `Scenarios`: client methods that rely on the contracts
  alone. They cover a new linked pair, adding twice, adding then removing, and
  moving an offer to another product.

Modelling decisions:

- A typed property declared without a default stays uninitialised until its
  setter runs, and reading it before then is a runtime error. This covers
  `Offer.url`, `Offer.price`, `Offer.priceCurrency`, `Product.name` and
  `Product.description`. Each is an `Option<string>` that starts as `None`, and
  its getter requires `Some`.
- `Product.image` and `Product.url` are declared without a type, so they start
  as null and accept any value. They hold a `Value` (null, boolean, integer or
  string).
- `__toString` is declared to return `string` under strict typing. It is
  modelled as `ToString`, which returns an `Outcome`: the URL when it is a
  string, `ThrowsTypeError` otherwise.
- `id` is assigned by the storage layer. The constructors leave it `None`, and
  no method's `modifies` clause names it.
- `removeOffer` clears the back-reference only when it still points at the
  removing product (src/Entity/Product.php:149); an offer moved to another
  product keeps pointing there. `Product.url` is declared without a type, so it
  starts as null (src/Entity/Product.php:75).

## Model

| member | source | states |
|---|---|---|
| Collection.IndexOf | src/Entity/Product.php:147 | the position found is the first at which the element occurs |
| Collection.RemoveElement | src/Entity/Product.php:147 | removing an absent element changes nothing; removing a present one shortens the collection by exactly one |
| Collection.RemoveElementMultiset | src/Entity/Product.php:147 | exactly one occurrence of the removed element leaves the collection and every other element stays (multiset difference) |
| Collection.RemoveElementSubset | src/Entity/Product.php:147 | every element left after a removal was in the collection before |
| Collection.RemoveElementAt | src/Entity/Product.php:147 | given the position of the first occurrence, removal cuts out exactly that position, and the other elements keep their relative order |
| Collection.RemoveElementAtIndexOf | src/Entity/Product.php:147 | the position removal cuts out is the one the strict search finds |
| Collection.NoDuplicatesTail | src/Entity/Product.php:145-155 | helper of `RemoveElementNoDuplicates`: the head of a duplicate-free collection does not recur, and its tail is duplicate-free |
| Collection.ConsNoDuplicates | src/Entity/Product.php:145-155 | helper of `RemoveElementNoDuplicates`: putting a new element in front of a duplicate-free collection keeps it duplicate-free |
| Collection.RemoveElementNoDuplicates | src/Entity/Product.php:145-155 | on a duplicate-free collection, removal keeps it duplicate-free and leaves no occurrence of the removed element |
| Collection.AppendNoDuplicates | src/Entity/Product.php:135-143 | appending an element not yet present keeps the collection duplicate-free |
| Collection.RemoveAppended | src/Entity/Product.php:135-155 | appending an absent offer and then removing it restores the collection |
| Entity.Offer.constructor | src/Entity/Offer.php:25-60 | a new offer has no id and no product, and url, price and currency are uninitialised |
| Entity.Offer.GetId | src/Entity/Offer.php:62-65 | returns the storage-assigned id, which no method of the class assigns |
| Entity.Offer.SetUrl | src/Entity/Offer.php:67-70 | only `url` changes; afterwards `GetUrl` returns the value set |
| Entity.Offer.GetUrl | src/Entity/Offer.php:72-75 | requires the URL to be initialised and returns the stored URL |
| Entity.Offer.SetPrice | src/Entity/Offer.php:77-80 | only `price` changes; afterwards `GetPrice` returns the uninterpreted string set |
| Entity.Offer.GetPrice | src/Entity/Offer.php:82-85 | requires the price to be initialised and returns it |
| Entity.Offer.SetPriceCurrency | src/Entity/Offer.php:87-90 | only `priceCurrency` changes; afterwards `GetPriceCurrency` returns the value set |
| Entity.Offer.GetPriceCurrency | src/Entity/Offer.php:92-95 | requires the currency to be initialised and returns it |
| Entity.Offer.GetProduct | src/Entity/Offer.php:97-100 | returns the back-reference, possibly null |
| Entity.Offer.SetProduct | src/Entity/Offer.php:102-107 | only `product` changes; it becomes the given, possibly null, product, and the offer itself is returned |
| Entity.Product.constructor | src/Entity/Product.php:77-80 | a new product has an empty offers collection and satisfies the invariant; id null, name and description uninitialised, image and url null |
| Entity.Product.GetId | src/Entity/Product.php:92-95 | returns the storage-assigned id, which no method of the class assigns |
| Entity.Product.SetName | src/Entity/Product.php:97-100 | only `name` changes; afterwards `GetName` returns the value set |
| Entity.Product.GetName | src/Entity/Product.php:102-105 | requires the name to be initialised and returns it |
| Entity.Product.SetDescription | src/Entity/Product.php:107-110 | only `description` changes; afterwards `GetDescription` returns the value set |
| Entity.Product.GetDescription | src/Entity/Product.php:112-115 | requires the description to be initialised and returns it |
| Entity.Product.SetImage | src/Entity/Product.php:117-120 | only `image` changes; afterwards `GetImage` returns the value set |
| Entity.Product.GetImage | src/Entity/Product.php:122-125 | returns the stored image value, null until set |
| Entity.Product.GetOffers | src/Entity/Product.php:130-133 | returns the current offers collection |
| Entity.Product.AddOffer | src/Entity/Product.php:135-143 | an absent offer is appended at the end and pointed at this product; an offer already present (same object) leaves both sides untouched; only this product's `offers` and the offer's `product` may change; returns this product; preserves the invariant |
| Entity.Product.RemoveOffer | src/Entity/Product.php:145-155 | the collection loses the offer's first occurrence, in order; the back-reference is cleared only if the offer was present and pointed at this product; an absent offer changes nothing even when it points here; returns this product; preserves the invariant and leaves the offer out of the collection |
| Entity.Product.ToString | src/Entity/Product.php:157-160 | returns the URL exactly when it is a string, otherwise throws a TypeError |
| Entity.Product.GetUrl | src/Entity/Product.php:165-168 | returns the stored URL value, null until set |
| Entity.Product.SetUrl | src/Entity/Product.php:173-176 | only `url` changes; afterwards `GetUrl` returns the value set, and a string URL is what `ToString` returns |
| Scenarios.NewLinkedPair | src/Entity/Product.php:77-80 | a new product given a new offer lists exactly that offer, which points back at it, and the invariant holds |
| Scenarios.AddTwice | src/Entity/Product.php:135-143 | two calls of `AddOffer` with the same offer have the effect of one |
| Scenarios.AddThenRemove | src/Entity/Product.php:135-155 | adding an absent offer and removing it restores the collection and leaves the offer unattached |
| Scenarios.MoveOffer | src/Entity/Product.php:135-155 | an offer added to a second product keeps pointing at that product when the first product removes it, and it is gone from the first |

## Left out

- The registration controller (`src/Controller/ApiController.php`): JSON body decoding, password hashing and persistence are all done by framework services whose code is not part of this model, and the `api` route is an empty placeholder.
- Validation constraints (URL syntax, not-null). They are enforced by an external validator component, not by the entity code.
- API resource metadata, search and order filters, and serializer groups. They only configure framework machinery.
- ORM mapping and id generation: the storage layer assigns `id`, so the model only carries an id that starts as `None`.
- `setImageFile` and `imageFile`: file upload handling belongs to an external upload bundle.
- The collection's array keys: removal in the real collection unsets a key without reindexing. The model views `offers` as a plain ordered sequence.
- Entity.Product.GetOffers: the source returns the live collection object, so a caller could mutate it directly. The model returns the sequence as a value, and aliasing through the returned collection is not captured.
- `Value` covers null, booleans, integers and strings. Floats, arrays and objects stored in the untyped `image` and `url` properties are not modelled. Under `ToString` every non-string value behaves the same way.
- Repair of a previous owner: when `AddOffer` takes an offer that another product lists, that product keeps it in its collection and its invariant no longer holds. The source does not repair this either, so neither does the model (`Scenarios.MoveOffer` shows the consequence).
