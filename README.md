# DalagHub catalog slice, modelled in Dafny

DalagHub is a mobile-first marketplace where farmers list crops and livestock and
buyers browse, search and contact sellers by phone or WhatsApp. This project models
the client-side rules behind the catalog:

- the shared listing collection (`ProductContext`): insert at the front, look up by id, list one seller's listings;
- the home feed's category tab and search box (`Home`);
- the search page's text box, city and subcategory chips that clear when pressed again, and "Clear all" (`Search`);
- the "Add New Product" form (`AddProduct`): field updates that reset the subcategory when the category changes, at most three photos, remove-by-index, the sign-in and required-field checks, and the defaults ("Negotiable", placeholder photo);
- the listing page's lookup and contact links (`ProductDetails`);
- the card's "time ago" caption and picture fallback (`ProductCard`);
- the profile page's sold/active switch, delete confirmation, busy markers and count caption (`Profile`);
- the demo session store (`AuthContext`) and the sign-in/sign-up page (`Auth`);
- the record shapes and fixed tables (`Types`).

Two helper modules hold the JavaScript operations the pages rely on.
`Seqs` holds `Array.prototype.filter`, with its membership, order, idempotence and count lemmas.
`Text` holds ASCII `toLowerCase`, `String.prototype.includes` and the decimal rendering of `${n}`.
`Wrappers` holds `Option`, which stands for `undefined`/`null`.

Modelling choices:

- Pages and stores that keep state are classes whose fields are that state (`ProductStore.products`, `SearchPage.selectedLocation`, `Session.user` and so on).
- Each handler is a method whose `ensures` gives the whole new state.
- The pure derivations are functions, and lemmas state what they promise.
- Clock readings (`Date.now()`, `new Date()`) are parameters, and so are the answer to `confirm()` and the results of the backend's `deleteProduct`/`updateProductStatus`.
- Dates are integer milliseconds.
- Toasts and navigation are returned as values (`SubmitOutcome`, `Toast`, `navigated`).
- The async handlers of the profile page are split at their `await`: `BeginDelete`/`FinishDelete` and `BeginToggleSold`/`FinishToggleSold`. This makes the busy marker visible while the request is pending.
- The `Product` record follows `src/types/index.ts` (`name`, `createdAt`, `sellerId`). The card and profile helpers take only the values they read (a millisecond difference, the photo list, a status string), so the different field names used by those two files (`title`, `created_at`, `status`) do not enter the model.

In these places the model follows what the code does:

- The WhatsApp greeting is inserted verbatim, not URL-encoded (`src/pages/ProductDetails.tsx:31`).
- `login`/`register` are the demo versions: any credentials are accepted, the phone is the login key, and both always report success (`src/contexts/AuthContext.tsx:37-67`).
- `addProduct` prepends locally, with no refetch. The sign-in check is made by the form, not by the store (`src/pages/AddProduct.tsx:60-64`, `src/contexts/ProductContext.tsx:17-24`).
- `getProductById` is a plain `find` over the collection, with no remote fallback (`src/contexts/ProductContext.tsx:26-28`).

## Model

| member | source | states |
|---|---|---|
| Types.CategoryFromKey | src/types/index.ts:4 | a key names a category exactly when it is "crops" or "livestock" |
| Types.CategoryKeyRoundTrip | src/types/index.ts:27-38 | category keys and categories correspond one to one |
| Types.SubcategoryTableShape | src/types/index.ts:31-36 | five distinct crop kinds, four distinct livestock kinds |
| Types.SubcategoriesDisjoint | src/types/index.ts:31-36 | no subcategory is listed under both categories |
| Types.CategoryOfSubcategory | src/types/index.ts:27-38 | the owning category of a subcategory, in both directions, and none for unlisted names |
| Types.LocationsShape | src/types/index.ts:40-51 | ten cities, pairwise distinct |
| Text.ToLower | src/pages/Home.tsx:19-21 | lower-casing keeps the length and lowers each character, ASCII letters only |
| Text.IncludesIff | src/pages/Home.tsx:19-21 | `includes` holds exactly when the text occurs at some index |
| Text.NatToStringRoundTrip | src/contexts/ProductContext.tsx:20 | the decimal form of a clock reading reads back as the same number |
| Text.IntToString | src/components/products/ProductCard.tsx:77 | integers render with a leading '-' exactly when negative, digits otherwise |
| ProductContext.ProductIdFor | src/contexts/ProductContext.tsx:20 | a new id is "product-" followed by the decimal clock reading |
| ProductContext.WithIdentityKeepsInput | src/contexts/ProductContext.tsx:18-22 | a new listing keeps every supplied field and sets only id and createdAt |
| ProductContext.FindById | src/contexts/ProductContext.tsx:26-28 | the result is the first listing with the id, and none exactly when no listing has it |
| ProductContext.SellerListings | src/contexts/ProductContext.tsx:30-32 | exactly the listings of that seller, each as often as the collection holds it, and no other listing |
| ProductContext.SellerListingsInOrder | src/contexts/ProductContext.tsx:31 | a seller's listings keep the collection's order |
| ProductContext.FindAfterInsert | src/contexts/ProductContext.tsx:23-28 | after an insertion the new listing is found by its id; other ids find what they found before |
| ProductContext.SellerListingsAfterInsert | src/contexts/ProductContext.tsx:23-31 | after an insertion the new listing heads its seller's listings, followed by the earlier ones |
| ProductContext.OtherSellersAfterInsert | src/contexts/ProductContext.tsx:23-31 | an insertion leaves other sellers' listings unchanged |
| ProductContext.ProductStore.constructor | src/contexts/ProductContext.tsx:15 | the collection starts as the seed collection |
| ProductContext.ProductStore.GetProductById | src/contexts/ProductContext.tsx:26-28 | a listing held by the store with that id, and none exactly when no held listing has it |
| ProductContext.ProductStore.GetProductsByUser | src/contexts/ProductContext.tsx:30-32 | every held listing of the seller, each as often as it is held, and no other listing |
| ProductContext.ProductStore.AddProduct | src/contexts/ProductContext.tsx:17-24 | the new listing is at index 0, the old collection follows unchanged, the length grows by one |
| Home.FilteredProducts | src/pages/Home.tsx:16-24 | a listing is in the feed iff it is in the collection and passes the category and text tests; each kept listing appears as often as in the collection |
| Home.AllTabAdmitsEverything | src/pages/Home.tsx:18 | the `all` tab passes every listing |
| Home.CategoryTabExact | src/pages/Home.tsx:18 | a category tab passes exactly the listings of that category |
| Home.EmptyQueryMatches | src/pages/Home.tsx:19-21 | an empty search box matches every listing |
| Home.UnfilteredFeed | src/pages/Home.tsx:16-24 | with `all` and an empty box the feed is the whole collection, in order |
| Home.QueryCaseIrrelevant | src/pages/Home.tsx:19-21 | the query's letter case does not change the result |
| Home.FeedOrderAndIdempotence | src/pages/Home.tsx:17-23 | the feed is an order-preserving subsequence, and filtering it again changes nothing |
| Home.SampleQueryMaize | src/pages/Home.tsx:19-21 | "maize" finds a Maize lot through its subcategory |
| Home.SampleQueryCity | src/pages/Home.tsx:19-21 | "BURAO" finds a Burao lot through its location |
| Home.SampleQueryGoat | src/pages/Home.tsx:19-21 | "goat" does not find a lot none of whose fields contains a 'g' |
| Search.AllSubcategories | src/pages/Search.tsx:18-21 | the chips are the crop kinds followed by the livestock kinds: nine distinct names, exactly the listed ones |
| Search.FilteredProducts | src/pages/Search.tsx:23-32 | a listing is a result iff it passes the text, city and subcategory tests; each kept listing appears as often as in the collection |
| Search.NoFiltersShowsAll | src/pages/Search.tsx:23-32 | no text and no chip shows the whole collection, in order |
| Search.ChipFiltersExact | src/pages/Search.tsx:28-29 | a selected chip admits exactly the listings equal to it |
| Search.LocationNotSearched | src/pages/Search.tsx:25-27 | the text test ignores the location |
| Search.HomeAndSearchDiffer | src/pages/Search.tsx:25-27 | a lot found by its city on the home feed is not found by the same query here |
| Search.ResultsOrderAndIdempotence | src/pages/Search.tsx:23-32 | results keep the collection's order; filtering them again changes nothing |
| Search.ResultsLabel | src/pages/Search.tsx:135 | the caption starts with the count in decimal, ends in " found", and has the plural "s" exactly when the count is not 1 |
| Search.ToggleFlips | src/pages/Search.tsx:92 | after a chip press that chip is selected iff it was not selected before |
| Search.InactiveFiltersAdmitAll | src/pages/Search.tsx:34 | with no chip selected, the chip tests pass every listing |
| Search.SearchPage.constructor | src/pages/Search.tsx:12-15 | empty text, no chip selected, filter panel closed |
| Search.SearchPage.SetSearchQuery | src/pages/Search.tsx:49 | typing replaces only the query |
| Search.SearchPage.ToggleShowFilters | src/pages/Search.tsx:56 | the filter button flips only the panel's visibility |
| Search.SearchPage.SelectLocation | src/pages/Search.tsx:92 | a city chip press toggles the city selection and changes nothing else |
| Search.SearchPage.SelectSubcategory | src/pages/Search.tsx:115 | a subcategory chip press toggles that selection and changes nothing else |
| Search.SearchPage.ClearFilters | src/pages/Search.tsx:36-39 | both selections become empty, the query is kept |
| AddProduct.InitialForm | src/pages/AddProduct.tsx:20-28 | every field starts empty except the location, which starts at the user's city |
| AddProduct.UpdateForm | src/pages/AddProduct.tsx:32-41 | only the named field changes, except that a category change also empties the subcategory |
| AddProduct.SubcategoryOptions | src/pages/AddProduct.tsx:97-99 | no options before a category is chosen; afterwards exactly the kinds the table files under that category |
| AddProduct.UpdateKeepsSelectsConsistent | src/pages/AddProduct.tsx:32-41 | an edit with a value its control offers keeps the subcategory unset or under the chosen category; a category change does so by emptying it |
| AddProduct.RemoveAt | src/pages/AddProduct.tsx:53-55 | exactly the element at the index is removed, the rest keep their order; an out-of-range index changes nothing |
| AddProduct.Submission | src/pages/AddProduct.tsx:74-86 | a blank price becomes "Negotiable", an empty photo list becomes the placeholder, seller fields come from the account, the rest is copied |
| AddProduct.Decide | src/pages/AddProduct.tsx:60-86 | no account means sign-in is asked for; an empty required field means nothing is published; otherwise the submission is published |
| AddProduct.PublishedListingComplete | src/pages/AddProduct.tsx:79-82 | a published listing has a non-empty price, a name and at least one photo |
| AddProduct.PublishedListingConsistent | src/pages/AddProduct.tsx:66-86 | a listing published from the page's selects has a subcategory filed under its own category, and one to three pictures |
| AddProduct.AddProductPage.constructor | src/pages/AddProduct.tsx:18-30 | the initial form, no photos, not submitting |
| AddProduct.AddProductPage.SetField | src/pages/AddProduct.tsx:32-41 | the form becomes `UpdateForm` of the old form; photos untouched; the subcategory is only ever set to an option of the chosen category (lines 177-191), so the selects stay consistent |
| AddProduct.AddProductPage.HandleImageUpload | src/pages/AddProduct.tsx:43-51 | a placeholder is appended only below three photos, so there are never more than three |
| AddProduct.AddProductPage.RemoveImage | src/pages/AddProduct.tsx:53-55 | the photo list becomes `RemoveAt` of the old list |
| AddProduct.AddProductPage.HandleSubmit | src/pages/AddProduct.tsx:57-95 | the store gains the submitted listing at the front only when `Decide` publishes, and is unchanged otherwise; a published listing's subcategory belongs to its category and it has one to three pictures |
| ProductDetails.PhoneDigits | src/pages/ProductDetails.tsx:31 | the stripped phone holds only the characters 0-9 |
| ProductDetails.PhoneDigitsKeepsDigits | src/pages/ProductDetails.tsx:31 | every digit is kept as often as it occurs, in order, and nothing else |
| ProductDetails.PhoneDigitsIdempotent | src/pages/ProductDetails.tsx:31 | stripping twice is stripping once; an all-digit phone is unchanged, and only then |
| ProductDetails.WhatsappUrlCarriesDigits | src/pages/ProductDetails.tsx:31 | the WhatsApp link reads back to exactly the phone's digits, followed by "?text=" and the greeting with the name verbatim |
| ProductDetails.WhatsappUrl | src/pages/ProductDetails.tsx:31 | the link opens wa.me and is exactly as long as prefix, digits, "?text=" and greeting together |
| ProductDetails.PhoneUrl | src/pages/ProductDetails.tsx:32 | the phone link is "tel:" and the unmodified phone |
| ProductDetails.ViewFor | src/pages/ProductDetails.tsx:13-32 | the not-found view exactly when no listing has the route id (a missing id is looked up as ""); otherwise that listing with its links |
| ProductCard.DiffDaysIsFloor | src/components/products/ProductCard.tsx:72-73 | the day count is the millisecond difference divided by 86400000, rounded down |
| ProductCard.AgeOf | src/components/products/ProductCard.tsx:75-79 | 0 is Today, 1 Yesterday, other values below 7 (negatives too) days, 7-29 one to four weeks, 30 and above at least one month |
| ProductCard.AgeMonotone | src/components/products/ProductCard.tsx:73-79 | for non-negative ages an older listing never gets a newer caption or a smaller count |
| ProductCard.TimeAgo | src/components/products/ProductCard.tsx:70-80 | the caption is "Today" exactly for less than one whole day and "Yesterday" exactly for one whole day |
| ProductCard.FutureShowsNegativeDays | src/components/products/ProductCard.tsx:77 | a listing dated in the future gets a negative "days ago" caption |
| ProductCard.DisplayImage | src/components/products/ProductCard.tsx:27 | the first photo unless it is missing or empty, otherwise the placeholder; never empty |
| Profile.NextStatus | src/pages/Profile.tsx:41 | "sold" becomes "active", any other status becomes "sold" |
| Profile.NextStatusTwice | src/pages/Profile.tsx:41 | two switches restore the status exactly when it was "active" or "sold" |
| Profile.ErrorText | src/pages/Profile.tsx:35 | the store's error message unless it is missing or empty, otherwise the fallback |
| Profile.DeleteToast | src/pages/Profile.tsx:32-36 | a success toast exactly when the delete succeeded, with the page's messages |
| Profile.StatusToast | src/pages/Profile.tsx:45-49 | a success toast exactly when the update succeeded, naming the new status |
| Profile.CountLabelSingular | src/pages/Profile.tsx:121 | the caption ends in "s" exactly when the count is not 1 |
| Profile.ProfilePage.constructor | src/pages/Profile.tsx:16-17 | no listing is busy at first |
| Profile.ProfilePage.BeginDelete | src/pages/Profile.tsx:26-30 | a declined confirmation requests nothing and marks nothing busy; a confirmed one requests that id and marks it |
| Profile.ProfilePage.FinishDelete | src/pages/Profile.tsx:30-37 | the delete marker is cleared whatever the result |
| Profile.ProfilePage.BeginToggleSold | src/pages/Profile.tsx:40-43 | the status asked for is `NextStatus` of the current one, and the listing is marked busy |
| Profile.ProfilePage.FinishToggleSold | src/pages/Profile.tsx:43-50 | the update marker is cleared whatever the result |
| AuthContext.LoggedInUser | src/contexts/AuthContext.tsx:43 | the demo account with the typed phone, a seller |
| AuthContext.RegisteredUser | src/contexts/AuthContext.tsx:54-61 | a non-seller account with the given name, phone and city and a "user-" id |
| AuthContext.Session.constructor | src/contexts/AuthContext.tsx:25-26 | nobody is signed in and loading is on |
| AuthContext.Session.RestoreStoredUser | src/contexts/AuthContext.tsx:28-35 | a stored copy becomes the signed-in account; loading ends; afterwards account and copy agree |
| AuthContext.Session.Login | src/contexts/AuthContext.tsx:37-48 | success; the signed-in account is the demo account with the typed phone; copy in step; not loading |
| AuthContext.Session.Register | src/contexts/AuthContext.tsx:50-67 | success; the signed-in account is the new non-seller account; copy in step; not loading |
| AuthContext.Session.Logout | src/contexts/AuthContext.tsx:69-72 | nobody signed in and no stored copy |
| Auth.Toggled | src/pages/Auth.tsx:175 | the mode switch always changes the mode |
| Auth.UpdateFormData | src/pages/Auth.tsx:55-57 | only the named field changes |
| Auth.AuthPage.constructor | src/pages/Auth.tsx:14-21 | sign-in mode, empty form, not loading |
| Auth.AuthPage.ToggleMode | src/pages/Auth.tsx:175 | the mode alternates between sign-in and sign-up, the form is kept |
| Auth.AuthPage.SetField | src/pages/Auth.tsx:55-57 | the form becomes `UpdateFormData` of the old form |
| Auth.AuthPage.HandleSubmit | src/pages/Auth.tsx:26-53 | sign-in always calls `login`; sign-up without a name or city calls nothing and leaves the session alone; navigation happens exactly when the store was called and succeeded |

## Left out

- The backend store (fetching, the `active`-only public list, seller joins, reports, `deleteProduct`, `updateProductStatus`, `allUserProducts`): not part of the shown context. The profile page's use of their results is modelled with those results as parameters.
- `src/hooks/useImageUpload.ts` and the storage calls: "Add Photo" appends a placeholder, as the page does.
- Browser storage and JSON: the stored copy is a plain field. After a JSON round trip `createdAt` would come back as a string; that is not modelled.
- `setTimeout` delays: `Session.Login` and `Session.Register` are single steps, so the `isLoading == true` window during the simulated delay cannot be observed.
- Toasts, `navigate` and `confirm`: toasts and navigation are returned values, and the `confirm` answer is a parameter.
- `try`/`catch` in the submit handlers: nothing the handlers call can fail in the model, so the "Please try again" toasts are not modelled.
- Unicode `toLowerCase`: only A-Z are lowered.
- `toLocaleDateString` and `Date` parsing: dates are integer milliseconds, and the card receives the difference.
- Hooks used outside their provider throw. In the model, holding a store reference stands for being inside the provider, so there is no counterpart to the throw.
- Uniqueness of `Date.now()` ids: the source does not guarantee it, so nothing is claimed.
- Rendering, CSS and routing (layout, navigation bars, landing and not-found pages, the tab and search-bar components).
- The profile page's role badges, seller-only sections, `isLoading` spinner and "Not Signed In" screen (`src/pages/Profile.tsx:53-70`): presentation only.
- Auth.AuthPage.HandleSubmit and AddProduct.AddProductPage.HandleSubmit: native form validation is not modelled. The browser refuses to fire `submit` while an input marked `required` is empty (`src/pages/Auth.tsx:99,116,132,147`, `src/pages/AddProduct.tsx:156,168,185,204,228`). The two methods model the handlers as if they always run, so they also cover submissions the browser would stop first. For example, a signed-out user with an empty form gets the browser's prompt on the real page, not "Please sign in".
