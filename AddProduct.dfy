/** The "Add New Product" form: its fields, the photo list (at most three), the
    checks made before a listing is published and the defaults it fills in. */
module AddProduct {
  import opened Wrappers
  import opened Types
  import ProductContext

  const Placeholder: string := "/placeholder.svg"
  const MaxImages: nat := 3
  const DefaultPrice: string := "Negotiable"

  /** The form's text fields; `category` is `""`, `"crops"` or `"livestock"`. */
  datatype FormData = FormData(
    name: string,
    category: string,
    subcategory: string,
    quantity: string,
    price: string,
    location: string,
    description: string)

  datatype Field = Name | CategoryField | Subcategory | Quantity | Price | Location | Description

  /** The values the category `<select>` can produce. */
  predicate IsCategoryChoice(value: string) {
    value == "" || CategoryFromKey(value).Some?
  }

  function Get(f: FormData, field: Field): string {
    match field
    case Name => f.name
    case CategoryField => f.category
    case Subcategory => f.subcategory
    case Quantity => f.quantity
    case Price => f.price
    case Location => f.location
    case Description => f.description
  }

  /** The empty form; the location starts at the signed-in user's city when there is one. */
  function InitialForm(user: Option<User>): (f: FormData)
    ensures forall field :: field != Location ==> Get(f, field) == ""
    ensures user.Some? ==> f.location == user.value.location
    ensures user.None? ==> f.location == ""
  {
    FormData("", "", "", "", "", if user.Some? then user.value.location else "", "")
  }

  /** `updateForm`: the named field takes the value; choosing a category also empties the
      subcategory; every other field is kept. */
  function UpdateForm(f: FormData, field: Field, value: string): (r: FormData)
    ensures Get(r, field) == value
    ensures field == CategoryField ==> r.subcategory == ""
    ensures forall g :: g != field && !(field == CategoryField && g == Subcategory) ==> Get(r, g) == Get(f, g)
  {
    var updated := match field
      case Name => f.(name := value)
      case CategoryField => f.(category := value)
      case Subcategory => f.(subcategory := value)
      case Quantity => f.(quantity := value)
      case Price => f.(price := value)
      case Location => f.(location := value)
      case Description => f.(description := value);
    if field == CategoryField then updated.(subcategory := "") else updated
  }

  /** The subcategory options under the chosen category: none before one is chosen, and
      afterwards exactly the subcategories the table files under that category. */
  function SubcategoryOptions(category: string): (r: seq<string>)
    requires IsCategoryChoice(category)
    ensures category == "" ==> r == []
    ensures category != "" ==> forall s :: s in r <==> CategoryOfSubcategory(s) == CategoryFromKey(category)
  {
    if category == "" then [] else Subcategories(CategoryFromKey(category).value)
  }

  /** What the two `<select>`s allow: a category they offer, and a subcategory that is
      either unset or one of the options under that category. */
  predicate SelectsConsistent(f: FormData) {
    IsCategoryChoice(f.category)
    && (f.subcategory == "" || f.subcategory in SubcategoryOptions(f.category))
  }

  /** A value the subcategory `<select>` can produce under the form's category. */
  predicate IsSubcategoryChoice(f: FormData, value: string)
    requires IsCategoryChoice(f.category)
  {
    value == "" || value in SubcategoryOptions(f.category)
  }

  /** Editing a field with a value its control can produce keeps the selects consistent;
      a category change does so by emptying the subcategory. */
  lemma UpdateKeepsSelectsConsistent(f: FormData, field: Field, value: string)
    requires SelectsConsistent(f)
    requires field == CategoryField ==> IsCategoryChoice(value)
    requires field == Subcategory ==> IsSubcategoryChoice(f, value)
    ensures SelectsConsistent(UpdateForm(f, field, value))
  {
    var r := UpdateForm(f, field, value);
    if field != CategoryField && field != Subcategory {
      assert r.category == f.category && r.subcategory == f.subcategory;
    }
  }

  /** `images.filter((_, i) => i !== index)`: drops the element at `index`; an index
      outside the list drops nothing. */
  function RemoveAt(s: seq<string>, index: int): (r: seq<string>)
    ensures 0 <= index < |s| ==> |r| == |s| - 1
    ensures !(0 <= index < |s|) ==> r == s
    ensures 0 <= index < |s| ==> forall j :: 0 <= j < index ==> r[j] == s[j]
    ensures 0 <= index < |s| ==> forall j :: index <= j < |r| ==> r[j] == s[j + 1]
  {
    if s == [] then []
    else if index == 0 then RemoveAt(s[1..], -1)
    else
      var t := RemoveAt(s[1..], index - 1);
      assert forall j :: 1 <= j <= |t| ==> ([s[0]] + t)[j] == t[j - 1];
      [s[0]] + t
  }

  /** Every required field (name, category, subcategory, quantity, location) is filled. */
  predicate RequiredFilled(f: FormData) {
    f.name != "" && f.category != "" && f.subcategory != "" && f.quantity != "" && f.location != ""
  }

  /** What pressing "Publish Product" leads to. */
  datatype SubmitOutcome =
    | SignInRequired              // toast, then navigation to /auth
    | MissingFields               // toast, stay on the form
    | Publish(input: ProductContext.ProductInput)  // addProduct(input), then navigation to /home

  /** The listing the form submits: a blank price becomes "Negotiable", an empty photo list
      becomes the placeholder, and the seller fields come from the account. */
  function Submission(f: FormData, images: seq<string>, seller: User): (input: ProductContext.ProductInput)
    requires CategoryFromKey(f.category).Some?
    ensures input.price == Some(if f.price == "" then DefaultPrice else f.price)
    ensures input.images == if images == [] then [Placeholder] else images
    ensures |input.images| >= 1
    ensures input.sellerId == seller.id && input.sellerName == seller.name
    ensures input.sellerPhone == seller.phone
    ensures CategoryKey(input.category) == f.category
    ensures input.name == f.name && input.subcategory == f.subcategory
    ensures input.quantity == f.quantity && input.location == f.location
    ensures input.description == Some(f.description)
  {
    ProductContext.ProductInput(
      f.name, CategoryFromKey(f.category).value, f.subcategory, f.quantity,
      Some(if f.price == "" then DefaultPrice else f.price),
      f.location, Some(f.description),
      if |images| > 0 then images else [Placeholder],
      seller.id, seller.name, seller.phone)
  }

  /** `handleSubmit`'s checks, in the order the page makes them. */
  function Decide(user: Option<User>, f: FormData, images: seq<string>): (o: SubmitOutcome)
    requires IsCategoryChoice(f.category)
    ensures o == SignInRequired <==> user.None?
    ensures o == MissingFields <==> user.Some? && !RequiredFilled(f)
    ensures o.Publish? ==> o.input == Submission(f, images, user.value)
  {
    if user.None? then SignInRequired
    else if !RequiredFilled(f) then MissingFields
    else Publish(Submission(f, images, user.value))
  }

  /** A published listing always has a price and at least one photo. */
  lemma PublishedListingComplete(user: Option<User>, f: FormData, images: seq<string>)
    requires IsCategoryChoice(f.category)
    requires Decide(user, f, images).Publish?
    ensures Decide(user, f, images).input.price.Some?
    ensures Decide(user, f, images).input.price.value != ""
    ensures Decide(user, f, images).input.images != []
    ensures Decide(user, f, images).input.name != ""
  {
  }

  /** A listing published from consistent selects and at most three photos has a
      subcategory filed under its own category, and between one and three pictures. */
  lemma PublishedListingConsistent(user: Option<User>, f: FormData, images: seq<string>)
    requires SelectsConsistent(f) && |images| <= MaxImages
    requires Decide(user, f, images).Publish?
    ensures CategoryOfSubcategory(Decide(user, f, images).input.subcategory)
         == Some(Decide(user, f, images).input.category)
    ensures 1 <= |Decide(user, f, images).input.images| <= MaxImages
  {
    var input := Decide(user, f, images).input;
    assert input.subcategory == f.subcategory != "";
    CategoryKeyRoundTrip(input.category, f.category);
  }

  /** The page's state. */
  class AddProductPage {
    var form: FormData
    var images: seq<string>
    var isSubmitting: bool

    /** The selects hold values they offer, and at most three photos are held. */
    predicate Valid()
      reads this
    {
      SelectsConsistent(form) && |images| <= MaxImages
    }

    constructor (user: Option<User>)
      ensures Valid()
      ensures form == InitialForm(user) && images == [] && !isSubmitting
    {
      form := InitialForm(user);
      images := [];
      isSubmitting := false;
    }

    method SetField(field: Field, value: string)
      requires Valid()
      requires field == CategoryField ==> IsCategoryChoice(value)
      requires field == Subcategory ==> IsSubcategoryChoice(form, value)
      modifies this
      ensures Valid()
      ensures form == UpdateForm(old(form), field, value)
      ensures images == old(images) && isSubmitting == old(isSubmitting)
    {
      UpdateKeepsSelectsConsistent(form, field, value);
      form := UpdateForm(form, field, value);
    }

    /** "Add Photo": appends the placeholder while fewer than three photos are held;
        `added` tells which toast is shown. */
    method HandleImageUpload() returns (added: bool)
      requires Valid()
      modifies this
      ensures Valid()
      ensures added <==> |old(images)| < MaxImages
      ensures images == if added then old(images) + [Placeholder] else old(images)
      ensures form == old(form) && isSubmitting == old(isSubmitting)
    {
      if |images| < MaxImages {
        images := images + [Placeholder];
        added := true;
      } else {
        added := false;
      }
    }

    method RemoveImage(index: int)
      requires Valid()
      modifies this
      ensures Valid()
      ensures images == RemoveAt(old(images), index)
      ensures form == old(form) && isSubmitting == old(isSubmitting)
    {
      images := RemoveAt(images, index);
    }

    /** "Publish Product". The store is changed only when every check passes; `stamp` and
        `now` are the clock readings `addProduct` takes. */
    method HandleSubmit(user: Option<User>, store: ProductContext.ProductStore, stamp: int, now: int)
      returns (outcome: SubmitOutcome)
      requires Valid()
      modifies this, store
      ensures Valid()
      ensures outcome == Decide(user, old(form), old(images))
      ensures form == old(form) && images == old(images)
      ensures isSubmitting == if outcome.Publish? then false else old(isSubmitting)
      ensures outcome.Publish? ==>
        store.products == [ProductContext.WithIdentity(outcome.input, ProductContext.ProductIdFor(stamp), now)]
                          + old(store.products)
      ensures !outcome.Publish? ==> store.products == old(store.products)
      ensures outcome.Publish? ==>
        CategoryOfSubcategory(outcome.input.subcategory) == Some(outcome.input.category)
        && 1 <= |outcome.input.images| <= MaxImages
    {
      if user.None? {
        return SignInRequired;
      }
      if form.name == "" || form.category == "" || form.subcategory == "" || form.quantity == ""
        || form.location == "" {
        return MissingFields;
      }
      isSubmitting := true;
      PublishedListingConsistent(user, form, images);
      var input := Submission(form, images, user.value);
      store.AddProduct(input, stamp, now);
      isSubmitting := false;
      outcome := Publish(input);
    }
  }
}
