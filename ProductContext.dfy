/** The in-memory listing collection shared by the pages: insertion at the front,
    lookup by id, and the listings of one seller. */
module ProductContext {
  import opened Wrappers
  import opened Types
  import Seqs
  import Text

  /** What a caller hands to `addProduct`: a listing without `id` and `createdAt`. */
  datatype ProductInput = ProductInput(
    name: string,
    category: Category,
    subcategory: string,
    quantity: string,
    price: Option<string>,
    location: string,
    description: Option<string>,
    images: seq<string>,
    sellerId: string,
    sellerName: string,
    sellerPhone: string)

  /** The id given to a new listing: "product-" followed by the clock reading in decimal. */
  function ProductIdFor(stamp: int): (id: string)
    ensures |id| > 8 && id[..8] == "product-"
    ensures id[8..] == Text.IntToString(stamp)
  {
    "product-" + Text.IntToString(stamp)
  }

  /** The listing `addProduct` builds: the caller's fields plus an id and a creation date. */
  function WithIdentity(input: ProductInput, id: string, createdAt: int): Product {
    Product(id, input.name, input.category, input.subcategory, input.quantity, input.price,
            input.location, input.description, input.images, input.sellerId,
            input.sellerName, input.sellerPhone, createdAt)
  }

  /** The fields of a listing a caller supplies, i.e. everything but `id` and `createdAt`. */
  function InputOf(p: Product): ProductInput {
    ProductInput(p.name, p.category, p.subcategory, p.quantity, p.price, p.location,
                 p.description, p.images, p.sellerId, p.sellerName, p.sellerPhone)
  }

  /** A new listing keeps every supplied field and sets only `id` and `createdAt`. */
  lemma WithIdentityKeepsInput(input: ProductInput, id: string, createdAt: int)
    ensures InputOf(WithIdentity(input, id, createdAt)) == input
    ensures WithIdentity(input, id, createdAt).id == id
    ensures WithIdentity(input, id, createdAt).createdAt == createdAt
  {
  }

  /** `ps[i]` is the first listing with this id. */
  predicate IsFirstWithId(ps: seq<Product>, id: string, i: int) {
    0 <= i < |ps| && ps[i].id == id && forall j :: 0 <= j < i ==> ps[j].id != id
  }

  /** `products.find(p => p.id === id)`. */
  function FindById(ps: seq<Product>, id: string): (r: Option<Product>)
    ensures r.None? <==> forall i :: 0 <= i < |ps| ==> ps[i].id != id
    ensures r.Some? ==> exists i :: IsFirstWithId(ps, id, i) && ps[i] == r.value
  {
    if ps == [] then None
    else if ps[0].id == id then
      assert IsFirstWithId(ps, id, 0);
      Some(ps[0])
    else
      var r := FindById(ps[1..], id);
      assert r.Some? ==> exists i :: IsFirstWithId(ps, id, i) && ps[i] == r.value by {
        if r.Some? {
          var i :| IsFirstWithId(ps[1..], id, i) && ps[1..][i] == r.value;
          assert IsFirstWithId(ps, id, i + 1);
        }
      }
      r
  }

  /** `products.filter(p => p.sellerId === userId)`. */
  function SellerListings(ps: seq<Product>, sellerId: string): (r: seq<Product>)
    ensures |r| <= |ps|
    ensures forall p :: p in r <==> p in ps && p.sellerId == sellerId
    ensures forall p :: multiset(r)[p] == if p.sellerId == sellerId then multiset(ps)[p] else 0
  {
    var keep := (p: Product) => p.sellerId == sellerId;
    assert forall p :: multiset(Seqs.Filter(ps, keep))[p] == if keep(p) then multiset(ps)[p] else 0 by {
      forall p { Seqs.FilterCounts(ps, keep, p); }
    }
    Seqs.Filter(ps, keep)
  }

  /** The listings of a seller keep the collection's order. */
  lemma SellerListingsInOrder(ps: seq<Product>, sellerId: string)
    ensures Seqs.IsSubsequence(SellerListings(ps, sellerId), ps)
  {
    Seqs.FilterIsSubsequence(ps, (p: Product) => p.sellerId == sellerId);
  }

  /** A listing put in front of the collection is found by its id, whatever follows it. */
  lemma FindAfterInsert(p: Product, ps: seq<Product>, id: string)
    ensures FindById([p] + ps, p.id) == Some(p)
    ensures id != p.id ==> FindById([p] + ps, id) == FindById(ps, id)
  {
    assert ([p] + ps)[1..] == ps;
  }

  /** A listing put in front of the collection heads its seller's listings,
      followed by that seller's earlier ones. */
  lemma SellerListingsAfterInsert(p: Product, ps: seq<Product>)
    ensures SellerListings([p] + ps, p.sellerId) == [p] + SellerListings(ps, p.sellerId)
    ensures SellerListings([p] + ps, p.sellerId)[0] == p
  {
    assert ([p] + ps)[1..] == ps;
  }

  /** Other sellers' listings are not affected by the insertion. */
  lemma OtherSellersAfterInsert(p: Product, ps: seq<Product>, sellerId: string)
    requires sellerId != p.sellerId
    ensures SellerListings([p] + ps, sellerId) == SellerListings(ps, sellerId)
  {
    assert ([p] + ps)[1..] == ps;
  }

  /** The provider's state. Holding a reference to a store stands for being inside the
      provider; the hook's failure outside it has no counterpart. */
  class ProductStore {
    var products: seq<Product>

    /** The provider starts from a fixed seed collection. */
    constructor (seed: seq<Product>)
      ensures products == seed
    {
      products := seed;
    }

    /** `addProduct`: the new listing goes first and the previous collection follows it
        unchanged. `stamp` is `Date.now()` and `now` the time `new Date()` reads. */
    method AddProduct(input: ProductInput, stamp: int, now: int)
      modifies this
      ensures products == [WithIdentity(input, ProductIdFor(stamp), now)] + old(products)
      ensures |products| == |old(products)| + 1
      ensures products[1..] == old(products)
    {
      var newProduct := WithIdentity(input, ProductIdFor(stamp), now);
      products := [newProduct] + products;
    }

    /** The first listing with the id, or nothing when no listing has it. */
    function GetProductById(id: string): (r: Option<Product>)
      reads this
      ensures r.None? <==> forall p :: p in products ==> p.id != id
      ensures r.Some? ==> r.value in products && r.value.id == id
    {
      FindById(products, id)
    }

    /** Every listing of the seller, each as often as it is held, and no other listing. */
    function GetProductsByUser(userId: string): (r: seq<Product>)
      reads this
      ensures forall p :: multiset(r)[p] == if p.sellerId == userId then multiset(products)[p] else 0
    {
      SellerListings(products, userId)
    }
  }
}
