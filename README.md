# WB Importadoss storefront — a verified model

WB Importadoss sells imported phones from a single page. The page shows a static catalog of 22
products in three tabs (`iphone`, `xiaomi`, `demais`). It has a search field, a slide-in menu, a
dismissible price alert and a detail view with a three-photo gallery. Any photo that fails to load
is replaced by a placeholder.

This project models the logic behind that page and proves what it promises:

- `text.dfy` (`Text`): the string primitives the page uses. These are JavaScript's white-space
  class (shared by `\s` and `trim`), `toLowerCase` on ASCII letters, `trim` and `includes`.
- `seqs.dfy` (`Seqs`): `Array.prototype.filter` as `Keep`. The main fact is that the result is the
  input read at exactly the accepted positions, in order.
- `types.dfy` (`Types`): the records of `types.ts`, which are `Category`, the `images` triple and
  `Product`.
- `catalog.dfy` (`Catalog`): the pure part of `data.ts`.
  - `createId`.
  - The `realPhotos` table.
  - `getRetailPlaceholder`.
  - `getRandomQty`.
  - The `products` literal, with the facts the page relies on. These are 22 entries, twelve
    iPhones then ten Xiaomi/Realme entries, ids that are pairwise distinct, three photos each and
    a quantity in 1..5.
- `storefront.dfy` (`Storefront`): the `App.tsx` logic.
  - The `filteredProducts` predicate, as a function.
  - The gallery buttons.
  - The `SafeImage` error latch, as a class.
  - The `App` view state, as a class whose methods are the page's event handlers. Its invariant
    `Valid` says: with no product open, the gallery is on the front photo. With one open, the
    gallery is on the front photo or on a photo the product has.

`Math.random()` becomes a parameter. `getRandomQty` takes the roll (`Roll`, a real in [0, 1)), and
`Products(roll)` takes one roll per entry. `window.innerWidth` becomes the `width` argument of
`App.OnResize`. Image loading becomes the `SafeImage.OnError` event.

Where the code behaves in a way a reader may not expect, the model follows the code:

- Searching matches the lower-cased query **as typed**, not the trimmed query. The blank-query
  branch also still requires the name to contain the query. A query made only of white space is
  therefore not the same as an empty one. `DoubleSpaceHidesEverything` shows that two spaces empty
  every tab, even though the tab buttons remain hidden.
- Selecting a product does not reset the gallery key itself; `closeModal` does. The detail view's
  backdrop covers the grid, so a product can only be selected with none open. The gallery
  therefore still starts on the front photo (`App.SelectProduct`).
- No gallery button exists for an empty photo, so the gallery never moves to a missing photo
  (`App.SelectImage`, `App.ModalPhoto`). An empty front photo is shown as it is.
- Five entries build their id from a shorter string than their name: Redmi Note 14, Poco X7 Pro,
  Poco X7 and both Realme Note 60X (data.ts:262-263, 275-276, 288-289, 314-315, 327-328). The
  model keeps that string apart from the name (`Listing.idSource`) and never assumes
  `id == createId(name)`.
- The detail view's main `SafeImage` has no `key`, so it is the same instance while the gallery
  key changes. Once it has failed, it keeps showing the placeholder for the other photos too
  (`SafeImage.SetSource`).

## Model

| member | source | states |
|---|---|---|
| Text.Lower | App.tsx:77 | `toLowerCase` keeps the length and lower-cases each character on its own |
| Text.IsSpace | data.ts:3 | white space as `\s` and `trim` define it is neither `-` nor changed by lower-casing |
| Text.LowerIsLower | App.tsx:77 | the lower-cased string is its own lower-case form |
| Text.LowerOfLower | App.tsx:77 | a string already in lower case is its own lower-case form |
| Text.LowerIdempotent | App.tsx:77 | lower-casing twice is lower-casing once |
| Text.LowerKeepsSpace | App.tsx:77 | lower-casing neither creates nor removes white space |
| Text.Trim | App.tsx:78 | `trim()` is empty exactly when the query is all white space; otherwise it starts and ends with a character that is not white space |
| Text.ContainsAt | App.tsx:77 | `includes` holds exactly when the needle occurs at some position of the name |
| Text.ContainsEmpty | App.tsx:77 | every name includes the empty query |
| Text.Contains | App.tsx:77 | `includes`, defined as: the needle is a prefix of the string or of one of its suffixes; `ContainsAt` proves this is the positional meaning |
| Text.ContainsBound | App.tsx:77 | a needle longer than the string is never included |
| Seqs.Keep | App.tsx:76 | `filter` returns no more elements than it was given, each one accepted by the callback; `KeepExact` proves it is exactly the accepted positions, in order |
| Storefront.MatchesSearch | App.tsx:77 | `matchesSearch`, defined as the lower-cased name including the lower-cased, untrimmed query |
| Storefront.MatchesSearchBound | App.tsx:77 | every product matches the empty query, and no product matches a query longer than its name |
| Storefront.IsShown | App.tsx:76-81 | the filter callback, defined as a name match when the trimmed query is non-empty and otherwise a name match inside the active tab |
| Storefront.ShownEmptyQuery | App.tsx:76-81 | with the empty query, the callback keeps exactly the products of the active tab |
| Storefront.FilteredProducts | App.tsx:75-83 | the grid is never longer than the catalog, and every product in it passes the filter callback |
| Storefront.FilteredIsSubsequence | App.tsx:75-83 | the grid is the catalog read at strictly increasing positions, and a position is used exactly when its product passes the callback: a subsequence in catalog order with nothing passing left out |
| Storefront.FilteredMembership | App.tsx:75-83 | a product is in the grid if and only if it is in the catalog and passes the callback |
| Storefront.SearchIgnoresTab | App.tsx:77-80 | a query that is not blank after trimming gives the catalog filtered only by "lower-cased name includes lower-cased untrimmed query", whatever the tab |
| Storefront.EmptyQueryShowsTab | App.tsx:77-81 | the empty query gives exactly the catalog's products in the active tab, in catalog order |
| Storefront.BlankQueryNarrowsTab | App.tsx:77-81 | a blank query gives the empty-query grid filtered again by name, so it is a part of the tab |
| Storefront.FilteredIdsDistinct | App.tsx:194-196 | if the catalog's ids are distinct, so are the grid's, which serve as list keys |
| Storefront.AbsentTabEmpty | App.tsx:76-81 | with a blank query, a tab that no product belongs to shows nothing |
| Storefront.DemaisTabEmpty | App.tsx:77-81 | with a blank query the `demais` tab of a catalog made of twelve iPhones and ten Xiaomi entries is empty |
| Storefront.ProductsDemaisEmpty | data.ts:49-338 | with a blank query the `demais` tab of `products` is empty, whatever the stock rolls |
| Storefront.TabOfBlocks | App.tsx:77-81 | with the empty query, a tab shows exactly the block of the catalog in that tab |
| Storefront.CatalogTabsSplit | App.tsx:77-81 | with the empty query, the iPhone tab of the catalog shows its first twelve products and the Xiaomi tab the last ten |
| Storefront.SampleTab | App.tsx:75-83 | on an iPhone and a Redmi, each tab of the empty query shows its own phone alone |
| Storefront.SampleMatches | App.tsx:77 | "iphone" is included in the lower-cased iPhone name and not in the Redmi name |
| Storefront.SampleSearch | App.tsx:77-80 | the query "iphone" finds the iPhone alone in every tab |
| Storefront.SampleNoMatch | App.tsx:77-80 | the query "zzz" finds nothing |
| Storefront.NoDoubleSpace | App.tsx:77 | a name without two neighbouring white-space characters never includes two spaces |
| Storefront.DoubleSpaceHidesEverything | App.tsx:77-81 | two spaces trim to nothing, yet they empty every tab of a catalog with single-spaced names |
| Storefront.ThumbnailKeys | App.tsx:239-241 | the gallery buttons are exactly the keys whose photo string is not empty, each once, with front first when it is there |
| Storefront.SafeImage.constructor | App.tsx:42-43 | a new image shows its photo: the latch starts clear |
| Storefront.SafeImage.Render | App.tsx:45-62 | the placeholder exactly when the latch has tripped, otherwise the photo of `src` |
| Storefront.SafeImage.OnError | App.tsx:59 | `onError` trips the latch, keeps `src` and from then on the placeholder shows |
| Storefront.SafeImage.SetSource | App.tsx:237 | a new `src` for the same instance keeps the latch, so a tripped latch keeps the placeholder |
| Storefront.FailOne | App.tsx:43 | tripping one image's latch leaves every other image as it was |
| Storefront.App.constructor | App.tsx:66-71 | the initial state: sidebar closed, iPhone tab, empty query, nothing open, front photo, alert shown; the invariant holds |
| Storefront.App.Valid | App.tsx:69 | the view-state invariant; on its own it implies that the gallery is away from the front photo only while a product is open |
| Storefront.App.TabsShown | App.tsx:179 | the tab bar appears only while the query is empty, so whenever it is shown the query is blank and the grid is filtered by the active tab |
| Storefront.App.VisibleProducts | App.tsx:75-83 | a product is in the grid if and only if it is in the catalog and passes the filter for the current tab and query |
| Storefront.App.OpenSidebar | App.tsx:165 | the menu button opens the sidebar and changes nothing else |
| Storefront.App.CloseSidebar | App.tsx:152-160 | the close button and the shade close the sidebar and change nothing else |
| Storefront.App.OnResize | App.tsx:95-97 | at 768 pixels or wider the sidebar closes; below, nothing changes |
| Storefront.App.SelectTab | App.tsx:179-183 | a tab button, present only with an empty query, sets the tab, and the grid becomes exactly that tab |
| Storefront.App.SetSearchQuery | App.tsx:174 | typing sets the query to the field's text and changes nothing else |
| Storefront.App.SelectProduct | App.tsx:197 | clicking a card opens that product with the gallery on the front photo, keeping the invariant |
| Storefront.App.CloseModal | App.tsx:85-88 | `closeModal` clears the product and puts the gallery back on the front photo |
| Storefront.App.SelectImage | App.tsx:239-241 | a gallery button moves the gallery to its key, which always has a photo |
| Storefront.App.DismissAlert | App.tsx:122 | the alert's close button hides it; no handler shows it again, since every other one leaves `showAlert` as it was |
| Storefront.App.ModalPhoto | App.tsx:237 | the detail photo is one of the product's three, and away from the front it is never empty |
| Catalog.CreateId | data.ts:3 | `createId` has no white space, is lower case and is never longer than its input |
| Catalog.DashRuns | data.ts:3 | `replace(/\s+/g, '-')` leaves no white space and never lengthens the string |
| Catalog.CreateIdOfNoSpace | data.ts:3 | on a string without white space, `createId` is plain lower-casing |
| Catalog.CreateIdRun | data.ts:3 | a maximal run of white space, however long, becomes exactly one `-` between the lower-cased word before it and the id of the rest |
| Catalog.CreateIdIdempotent | data.ts:3 | `createId(createId(s)) == createId(s)` |
| Catalog.CreateIdOfWords | data.ts:3 | words joined by single spaces get their lower-cased forms joined by `-` |
| Catalog.CreateIdOfSingleSpaced | data.ts:3 | where white space comes one character at a time, `createId` maps each character on its own: white space to `-`, letters lower-cased |
| Catalog.PhotoUrl | data.ts:10-38 | every `realPhotos` entry is a non-empty URL |
| Catalog.RetailPlaceholder | data.ts:41-45 | the three placeholder URLs are present and pairwise distinct, and end in `f`, `s` and `b` |
| Catalog.RetailPlaceholderSig | data.ts:42-44 | each placeholder URL ends in its `sig` value: the slug followed by `f`, `s` or `b` |
| Catalog.RetailPlaceholderInjective | data.ts:41-45 | different slugs give different placeholders |
| Catalog.GalleryImages | data.ts:60 | an entry's `images` has all three photos, from `realPhotos` or from `getRetailPlaceholder` |
| Catalog.RandomQty | data.ts:47 | `getRandomQty` is an integer from 1 to 5 |
| Catalog.RandomQtyReaches | data.ts:47 | every quantity from 1 to 5 can come out |
| Catalog.Entry | data.ts:51-63 | one entry of `products` keeps its listing's name and category, has an id without white space, all three photos and a quantity from 1 to 5 |
| Catalog.Products | data.ts:49-338 | the `products` array, defined as the entries built with one roll each; its shape is stated by `CatalogFacts` |
| Catalog.Build | data.ts:49-338 | the catalog has one product per entry, in entry order, each built from its own entry |
| Catalog.CreateIdsOfSources | data.ts:52-327 | `createId` of the 22 id strings, in order, is `CatalogIdList` |
| Catalog.IdIPhone17ProMax256GB | data.ts:52 | the `createId` call of this entry yields the id listed at the same position of `CatalogIdList` |
| Catalog.IdIPhone17ProMax512GB | data.ts:65 | the `createId` call of this entry yields the id listed at the same position of `CatalogIdList` |
| Catalog.IdIPhone17ProMax1TB | data.ts:78 | the `createId` call of this entry yields the id listed at the same position of `CatalogIdList` |
| Catalog.IdIPhone17Pro256GB | data.ts:91 | the `createId` call of this entry yields the id listed at the same position of `CatalogIdList` |
| Catalog.IdIPhone17256GB | data.ts:104 | the `createId` call of this entry yields the id listed at the same position of `CatalogIdList` |
| Catalog.IdIPhone16ProMax512GB | data.ts:117 | the `createId` call of this entry yields the id listed at the same position of `CatalogIdList` |
| Catalog.IdIPhone16Pro128GB | data.ts:130 | the `createId` call of this entry yields the id listed at the same position of `CatalogIdList` |
| Catalog.IdIPhone16Plus128GB | data.ts:143 | the `createId` call of this entry yields the id listed at the same position of `CatalogIdList` |
| Catalog.IdIPhone16128GB | data.ts:156 | the `createId` call of this entry yields the id listed at the same position of `CatalogIdList` |
| Catalog.IdIPhone15128GB | data.ts:169 | the `createId` call of this entry yields the id listed at the same position of `CatalogIdList` |
| Catalog.IdIPhone14128GB | data.ts:182 | the `createId` call of this entry yields the id listed at the same position of `CatalogIdList` |
| Catalog.IdIPhone13128GB | data.ts:195 | the `createId` call of this entry yields the id listed at the same position of `CatalogIdList` |
| Catalog.IdRedmiA5364GB | data.ts:210 | the `createId` call of this entry yields the id listed at the same position of `CatalogIdList` |
| Catalog.IdRedmiA54128GB | data.ts:223 | the `createId` call of this entry yields the id listed at the same position of `CatalogIdList` |
| Catalog.IdRedmi13C8256GB | data.ts:236 | the `createId` call of this entry yields the id listed at the same position of `CatalogIdList` |
| Catalog.IdRedmi14C8256GB | data.ts:249 | the `createId` call of this entry yields the id listed at the same position of `CatalogIdList` |
| Catalog.IdRedmiNote148256GB | data.ts:262 | the `createId` call of this entry yields the id listed at the same position of `CatalogIdList` |
| Catalog.IdPocoX7Pro12512GB | data.ts:275 | the `createId` call of this entry yields the id listed at the same position of `CatalogIdList` |
| Catalog.IdPocoX712512GB | data.ts:288 | the `createId` call of this entry yields the id listed at the same position of `CatalogIdList` |
| Catalog.IdPocoC858256GB | data.ts:301 | the `createId` call of this entry yields the id listed at the same position of `CatalogIdList` |
| Catalog.IdRealmeNote60X4128GB | data.ts:314 | the `createId` call of this entry yields the id listed at the same position of `CatalogIdList` |
| Catalog.IdRealmeNote60X364GB | data.ts:327 | the `createId` call of this entry yields the id listed at the same position of `CatalogIdList` |
| Catalog.SourcesIds | data.ts:52-327 | `createId` of the catalog's id strings is `CatalogIdList` |
| Catalog.ListingIdSources | data.ts:52-327 | the entries' id strings are `CatalogIdSources`, in order; they differ from the entry's name exactly at the five entries 16, 17, 18, 20 and 21 (Redmi Note 14, both Poco X7, both Realme Note 60X) |
| Catalog.CatalogIdListDistinct | data.ts:52-327 | the 22 ids are pairwise distinct |
| Catalog.ListingCount | data.ts:49-338 | `products` has 22 entries |
| Catalog.ListingTabs | data.ts:49-338 | the first twelve entries are in the `iphone` tab and the other ten in `xiaomi`; none is in `demais` |
| Catalog.ListingPrices | data.ts:49-338 | every entry sells at R$ 500 above its base price |
| Catalog.BuildShape | data.ts:49-338 | listings with those facts build a catalog with those facts, whatever the rolls |
| Catalog.CatalogFacts | data.ts:49-338 | `products` has 22 entries, the ids of `CatalogIdList`, twelve iPhones then ten Xiaomi entries, prices R$ 500 over base, all photos and quantities in 1..5 |
| Catalog.ShapeIdsDistinct | data.ts:52-327 | a catalog of that shape has pairwise distinct ids |
| Catalog.ProductIdsDistinct | App.tsx:196 | the ids of `products`, used as list keys, are pairwise distinct, whatever the rolls |

## Left out

- JSX markup, CSS classes, keyframes and animations (App.tsx:102-275): presentation only.
- `formatPrice` (App.tsx:10-15): it relies on `Intl.NumberFormat` with the pt-BR locale, a
  foreign library.
- The struck-through prices `finalPrice * 1.2` and `finalPrice * 1.3` (App.tsx:212, 255):
  floating-point display values. Prices are modelled as exact reals.
- `Math.random` (data.ts:47): it becomes the `Roll` parameter. Floating-point rounding of
  `Math.random() * 5` is not modelled.
- `handleSearchIconClick` (App.tsx:90-92) and the registration and removal of the resize
  listener (App.tsx:94-100): DOM plumbing. Only the handler itself is modelled, as
  `App.OnResize`.
- Image loading, and the WhatsApp and Instagram links (App.tsx:155-156, 259, 268): network I/O.
  A failed load is the `SafeImage.OnError` event.
- The colour and tab-label tables (App.tsx:18-39): static display maps.
- `useMemo` (App.tsx:75, 83): caching only. `App.VisibleProducts` recomputes the filter.
- Text.Lower: lower-cases ASCII letters only, not the whole of Unicode. The catalog's names are
  ASCII.
- Text.Trim: strips white space as ECMAScript defines it (`IsSpace`).
- Catalog.PhotoUrl: states only that each photo is present, not the URL's shape. The addresses
  are kept verbatim from data.ts:10-38.
- Storefront.App.SelectProduct: requires that no product is open. The handler at App.tsx:197 does
  not reset the gallery key; it relies on the detail view's backdrop covering the grid.
- The `App` class does not hold the `SafeImage` instances of its cards and of the detail view.
  They are modelled by the `SafeImage` class on its own.
- The colours, spec labels and descriptions of the entries are copied into the model.
  No property is stated about them, since the page only displays them.
