/** The records and fixed tables of the marketplace: listings (`Product`), accounts
    (`User`), the category -> subcategory table and the list of cities. Dates are
    milliseconds since the epoch. */
module Types {
  import opened Wrappers

  /** A listing's category: exactly one of the two keys of the category table. */
  datatype Category = Crops | Livestock

  /** A listing. `price` and `description` may be absent; every other field is present. */
  datatype Product = Product(
    id: string,
    name: string,
    category: Category,
    subcategory: string,
    quantity: string,
    price: Option<string>,
    location: string,
    description: Option<string>,
    images: seq<string>,
    sellerId: string,
    sellerName: string,
    sellerPhone: string,
    createdAt: int)

  /** An account; only `email` may be absent. */
  datatype User = User(
    id: string,
    name: string,
    email: Option<string>,
    phone: string,
    location: string,
    isSeller: bool,
    createdAt: int)

  /** The key under which a category appears in the category table and in listings. */
  function CategoryKey(c: Category): string {
    match c
    case Crops => "crops"
    case Livestock => "livestock"
  }

  /** Reads a category key back; any other text names no category. */
  function CategoryFromKey(key: string): (r: Option<Category>)
    ensures r.Some? <==> key == "crops" || key == "livestock"
  {
    if key == "crops" then Some(Crops)
    else if key == "livestock" then Some(Livestock)
    else None
  }

  /** Keys and categories correspond one to one. */
  lemma CategoryKeyRoundTrip(c: Category, key: string)
    ensures CategoryFromKey(CategoryKey(c)) == Some(c)
    ensures CategoryFromKey(key) == Some(c) ==> CategoryKey(c) == key
  {
  }

  const CropSubcategories: seq<string> := ["Maize", "Sorghum", "Rice", "Banana", "Sesame"]

  const LivestockSubcategories: seq<string> := ["Camel", "Cow", "Goat", "Sheep"]

  /** The subcategories offered for a category. */
  function Subcategories(c: Category): seq<string> {
    match c
    case Crops => CropSubcategories
    case Livestock => LivestockSubcategories
  }

  const Locations: seq<string> :=
    ["Mogadishu", "Hargeisa", "Kismayo", "Baidoa", "Garowe",
     "Bosaso", "Beledweyne", "Jowhar", "Merca", "Burao"]

  predicate Distinct(s: seq<string>) {
    forall i, j :: 0 <= i < j < |s| ==> s[i] != s[j]
  }

  /** Five crop kinds and four livestock kinds, none repeated. */
  lemma SubcategoryTableShape()
    ensures |Subcategories(Crops)| == 5 && Distinct(Subcategories(Crops))
    ensures |Subcategories(Livestock)| == 4 && Distinct(Subcategories(Livestock))
  {
  }

  /** No subcategory is listed under both categories. */
  lemma SubcategoriesDisjoint(s: string)
    ensures !(s in Subcategories(Crops) && s in Subcategories(Livestock))
  {
  }

  /** The category a subcategory belongs to, if any. */
  function CategoryOfSubcategory(s: string): (r: Option<Category>)
    ensures r == Some(Crops) <==> s in Subcategories(Crops)
    ensures r == Some(Livestock) <==> s in Subcategories(Livestock)
    ensures r == None <==> s !in Subcategories(Crops) + Subcategories(Livestock)
  {
    if s in CropSubcategories then Some(Crops)
    else if s in LivestockSubcategories then Some(Livestock)
    else None
  }

  /** Ten cities, none repeated. */
  lemma LocationsShape()
    ensures |Locations| == 10 && Distinct(Locations)
  {
  }
}
