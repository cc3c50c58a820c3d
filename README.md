# Celebrity-style jewelry storefront: recommendation engine, store and product grid

This project models the logic core of a React jewelry storefront in Dafny.

- **Recommendation engine.** After a five-question style survey, it picks the celebrity personas and
  products that fit the answers. A celebrity fits when a style answer names one of its vibe tags,
  directly or as "Tag & Timeless" / "Tag & Statement". A product fits when it meets at least one of
  three criteria: style, metal or budget. Each list falls back to the whole catalog when nothing fits.
- **Catalog filters.** Products can be filtered by category and by celebrity id. A falsy key leaves
  the list whole.
- **Session store.** It holds the survey answers, the current selections, the cart, the wishlist and
  two panel flags. Each action other than `reset` updates one field; `reset` restores all nine.
- **Product grid.** It copies the catalog, keeps one category unless the filter is empty or "All",
  then sorts the copy in place by price or by name.

Layout:

- `js_builtins.dfy` (module `JsBuiltins`): the JavaScript built-ins the logic relies on. These are
  `undefined` as `Option`, `Array.prototype.filter` and `map`, `String.prototype.includes` and
  `toLowerCase`. It also proves that `Filter` is the unique order-preserving selection of the
  elements that pass its test.
- `catalog.dfy` (module `Catalog`): celebrity and product records, with the bundled catalog as
  constants.
- `recommendation_logic.dfy` (module `RecommendationLogic`): pure functions for
  `generateRecommendations`, `filterProductsByCategory` and `filterProductsByCelebrity`, plus lemmas
  about them and worked examples on the bundled catalog.
- `app_store.dfy`: two modules.
  - `StoreUpdates` holds the pure update each action performs on its field, with the cart and
    wishlist invariants and quantity lemmas.
  - `AppStore` holds the `Store` class. Its fields are updated in place by one method per action.
- `product_grid.dfy` (module `ProductGrid`): the grid's filter-and-sort block. The copy is an
  `array` sorted in place, and `ShowProducts` is proved against `FilteredCatalog`. Its result is a
  sorted permutation of that list, and it is unchanged when no sort is chosen.

## Model

| member | source | states |
|---|---|---|
| JsBuiltins.Filter | src/utils/recommendationLogic.js:62 | The result is no longer than the input. Every kept element comes from the input and passes the test. Every passing input element is kept. |
| JsBuiltins.FilterSelectsExactly | src/utils/recommendationLogic.js:62 | `Filter` keeps exactly the passing positions, each once, in input order. |
| JsBuiltins.SelectionIsUnique | src/utils/recommendationLogic.js:62 | Only one sequence is an order-preserving selection of the passing elements. So `SelectsExactly` pins the filter's result down completely. |
| JsBuiltins.FilterEmpty | src/utils/recommendationLogic.js:55-56 | The filtered list is empty exactly when no element passes. This is the `length > 0` test that triggers the fallback. |
| JsBuiltins.FilterConcat | src/store/appStore.js:80 | Filtering a concatenation is concatenating the filtered parts. |
| JsBuiltins.FilterKeepsAll | src/store/appStore.js:89 | When every element passes, the filter returns its input unchanged. |
| JsBuiltins.ToLowerCase | src/utils/recommendationLogic.js:28 | Lower-casing keeps the length, maps each letter to lower case, and leaves no upper-case ASCII letter. |
| JsBuiltins.Includes | src/utils/recommendationLogic.js:28 | `includes` finds a string in itself and finds the empty string everywhere. A string longer than the text is never found. |
| JsBuiltins.Map | src/store/appStore.js:59-63 | The definition of `map`, which applies the update at each position. Its properties are stated by `MapConcat` and `MapUnchanged`. |
| JsBuiltins.MapConcat | src/store/appStore.js:92-94 | Mapping a concatenation is concatenating the mapped parts. The cart quantity inductions use this. |
| JsBuiltins.MapUnchanged | src/store/appStore.js:92-94 | A `map` that leaves every element unchanged returns its input. So updating the quantity of a product not in the cart changes nothing. |
| RecommendationLogic.StyleIncludes | src/utils/recommendationLogic.js:5 | Through the empty-list default, an absent or empty style answer includes nothing. A single non-empty style string includes itself. |
| RecommendationLogic.CelebrityMatches | src/utils/recommendationLogic.js:11-15 | A celebrity can match only when the style answer is truthy and the celebrity has at least one vibe tag. |
| RecommendationLogic.StyleMatch | src/utils/recommendationLogic.js:23 | The product style criterion holds only when the style answer is truthy and the product has at least one vibe tag. |
| RecommendationLogic.MetalMatch | src/utils/recommendationLogic.js:28 | The metal criterion needs a truthy metal answer. A metal answer equal to the product colour up to case always matches. |
| RecommendationLogic.InBracket | src/utils/recommendationLogic.js:35-48 | Only the four budget labels of the survey hold any price. |
| RecommendationLogic.BudgetMatch | src/utils/recommendationLogic.js:33-49 | The budget criterion holds only for a truthy budget answer that is one of the four labels. |
| RecommendationLogic.MatchCount | src/utils/recommendationLogic.js:20-51 | The score is at most 3. It is positive exactly when the product meets the style, metal or budget criterion. |
| RecommendationLogic.RecommendCelebrities | src/utils/recommendationLogic.js:10-16 | The result is never empty for a non-empty catalog. With no matching celebrity it is the whole catalog. Otherwise it is exactly the matching celebrities, in catalog order. |
| RecommendationLogic.RecommendProducts | src/utils/recommendationLogic.js:19-52 | The result is never empty for a non-empty catalog. With no product scoring above zero it is the whole catalog. Otherwise it is exactly the scoring products, in catalog order. |
| RecommendationLogic.GenerateRecommendations | src/utils/recommendationLogic.js:3-58 | Both returned lists are non-empty whenever the catalogs are. |
| RecommendationLogic.FilterProductsByCategory | src/utils/recommendationLogic.js:60-63 | A falsy category (absent or "") returns the list unchanged. Otherwise the result is exactly the products whose category equals it, in order. |
| RecommendationLogic.FilterProductsByCelebrity | src/utils/recommendationLogic.js:65-68 | A falsy id (absent or 0) returns the list unchanged. Otherwise the result is exactly that celebrity's products, in order. |
| RecommendationLogic.RecommendedProductsMeetSomeCriterion | src/utils/recommendationLogic.js:19-52 | OR semantics. Once any product scores, every recommended product meets at least one criterion, and every product meeting one is recommended. |
| RecommendationLogic.CelebrityTestExtendsStyleTest | src/utils/recommendationLogic.js:11-14 | The celebrity test accepts whatever the product style test accepts for the same tags. |
| RecommendationLogic.UnansweredSurveyShowsEverything | src/utils/recommendationLogic.js:5-7 | With no style, metal or budget answer, both catalogs come back whole. |
| RecommendationLogic.BudgetBracketEdges | src/utils/recommendationLogic.js:35-48 | The bracket edges. 50,000 is not "Under 50,000". 150,000 and 500,000 each lie in two adjacent brackets. |
| RecommendationLogic.BracketsCoverEveryPrice | src/utils/recommendationLogic.js:35-48 | Every price lies in one of the four brackets. A label outside the four holds no price. |
| RecommendationLogic.ClassicTimelessExample | src/mock/data.js:134-143 | The survey style "Classic & Timeless" recommends Zendaya alone. No product matches it, so all four products come back. |
| RecommendationLogic.ZendayaMatchesClassicTimeless | src/utils/recommendationLogic.js:13 | Zendaya's tag "Classic" reaches "Classic & Timeless" through the suffix rule. |
| RecommendationLogic.RihannaMissesClassicTimeless | src/mock/data.js:6 | None of Rihanna's tags reaches "Classic & Timeless". |
| RecommendationLogic.BlakeLivelyMissesClassicTimeless | src/mock/data.js:14 | None of Blake Lively's tags reaches "Classic & Timeless". |
| RecommendationLogic.ClassicTimelessProducts | src/utils/recommendationLogic.js:23 | The product style test uses exact tags, so no bundled product meets "Classic & Timeless". |
| RecommendationLogic.MidBudgetScores | src/utils/recommendationLogic.js:39-41 | Under the budget "50,000 - 150,000 INR", only the 68,963 necklace scores. |
| RecommendationLogic.MidBudgetExample | src/utils/recommendationLogic.js:39-41 | The budget "50,000 - 150,000 INR" on its own recommends exactly the 68,963 necklace. |
| RecommendationLogic.NecklaceCategoryExample | src/pages/CategoryGrid.jsx:125 | The category key "NECKLACE" selects no bundled product, because they are labelled "NECKLACES". |
| RecommendationLogic.NecklacesCategoryExample | src/mock/data.js:68-96 | The key "NECKLACES" selects the three bundled necklaces, in catalog order. |
| RecommendationLogic.MetalIgnoresCaseExample | src/utils/recommendationLogic.js:28 | The metal answer "ROSE GOLD" matches the "Rose Gold" earrings and not the "Yellow Gold" necklace. |
| StoreUpdates.SetAnswer | src/store/appStore.js:29-33 | The answer lands at the given index. Every other index keeps its answer. The array grows to the index when needed. |
| StoreUpdates.InCart | src/store/appStore.js:56 | The definition of `find` by id on the cart. That it succeeds exactly when the id has a line, and at most one with unique ids, is `LinesCountMembership`. |
| StoreUpdates.AddToCart | src/store/appStore.js:55-69 | The product ends up in the cart. A new product is appended with quantity 1. A present product gets one more unit on its line, and every other line is unchanged. |
| StoreUpdates.RemoveFromCart | src/store/appStore.js:79-81 | The product is no longer in the cart. The other lines stay, in order. |
| StoreUpdates.UpdateCartQuantity | src/store/appStore.js:87-96 | A quantity of 0 or less removes the product. Otherwise the product's lines take the new quantity and nothing else changes. |
| StoreUpdates.QuantityConcat | src/store/appStore.js:67 | Unit counts add up over concatenated carts. |
| StoreUpdates.LinesCountMembership | src/store/appStore.js:56 | `find` succeeds exactly when some line carries the id. With unique ids there is at most one such line. |
| StoreUpdates.AddToCartQuantity | src/store/appStore.js:55-69 | Adding a product raises its unit count by exactly one and leaves every other product's count alone. |
| StoreUpdates.QuantityAfterRemove | src/store/appStore.js:79-81 | Removing a product leaves no unit of it and every other product's count unchanged. |
| StoreUpdates.UpdateCartQuantityEffect | src/store/appStore.js:87-96 | After an update, a product already in the cart has exactly the new quantity if it is positive, and none otherwise. An absent product stays absent. Other products are untouched. |
| StoreUpdates.UpdateAbsentIsNoOp | src/store/appStore.js:87-96 | Updating the quantity of a product that is not in the cart changes nothing. |
| StoreUpdates.AddToCartKeepsCartValid | src/store/appStore.js:55-69 | `addToCart` keeps cart ids unique and every quantity at least 1. |
| StoreUpdates.RemoveFromCartKeepsCartValid | src/store/appStore.js:79-81 | `removeFromCart` keeps cart ids unique and every quantity at least 1. |
| StoreUpdates.UpdateCartQuantityKeepsCartValid | src/store/appStore.js:87-96 | `updateCartQuantity` keeps cart ids unique and every quantity at least 1. |
| StoreUpdates.AddToWishlist | src/store/appStore.js:71-77 | A product whose id is absent is appended at the end, with every old entry kept in order. A wishlist already holding the id is returned unchanged. No other id is added, and unique ids stay unique. |
| StoreUpdates.InWishlist | src/store/appStore.js:72 | The definition of `find` by id on the wishlist. How each action changes it is stated by the ensures of `AddToWishlist`, `RemoveFromWishlist` and `ToggleWishlistItem`. |
| StoreUpdates.RemoveFromWishlist | src/store/appStore.js:83-85 | The remaining ids are the old ones minus the removed id. The other entries keep their order. |
| StoreUpdates.RemoveFromWishlistKeepsUnique | src/store/appStore.js:83-85 | Removing keeps wishlist ids unique. |
| StoreUpdates.AddToWishlistIdempotent | src/store/appStore.js:71-77 | Adding the same product twice is the same as adding it once. |
| StoreUpdates.ToggleWishlistItem | src/components/ProductCard.jsx:10-17 | The heart button flips the product's presence in the wishlist and leaves every other id's presence alone. |
| StoreUpdates.ToggleTwiceRestoresWishlist | src/components/ProductCard.jsx:10-17 | Pressing the heart twice on a product not in the wishlist gives the wishlist back exactly. |
| AppStore.InitialStateValid | src/store/appStore.js:5-25 | The initial store has an empty, valid cart and wishlist. |
| AppStore.Store.constructor | src/store/appStore.js:3-25 | A new store holds the initial state. |
| AppStore.Store.AnswerQuestion | src/store/appStore.js:29-33 | Only `answers` changes, to the answers with the new one set. The store invariant is kept. |
| AppStore.Store.SelectCelebrity | src/store/appStore.js:39-41 | Only `selectedCelebrity` changes. |
| AppStore.Store.SelectCategory | src/store/appStore.js:43-45 | Only `selectedCategory` changes. |
| AppStore.Store.ViewAllProducts | src/store/appStore.js:47-49 | Only `selectedCategory` changes, and it is cleared. |
| AppStore.Store.SelectProduct | src/store/appStore.js:51-53 | Only `selectedProduct` changes. |
| AppStore.Store.AddToCart | src/store/appStore.js:55-69 | Only `cart` changes, as `StoreUpdates.AddToCart` says. The product's unit count goes up by one. The invariant is kept. |
| AppStore.Store.AddToWishlist | src/store/appStore.js:71-77 | Only `wishlist` changes, as `StoreUpdates.AddToWishlist` says. |
| AppStore.Store.RemoveFromCart | src/store/appStore.js:79-81 | Only `cart` changes. The product is no longer in it. The invariant is kept. |
| AppStore.Store.RemoveFromWishlist | src/store/appStore.js:83-85 | Only `wishlist` changes. Its ids stay unique. |
| AppStore.Store.UpdateCartQuantity | src/store/appStore.js:87-96 | Only `cart` changes, as `StoreUpdates.UpdateCartQuantity` says. The invariant is kept. |
| AppStore.Store.ToggleCart | src/store/appStore.js:98 | Only `showCart` changes, and it flips. |
| AppStore.Store.ToggleWishlist | src/store/appStore.js:99 | Only `showWishlist` changes, and it flips. |
| AppStore.Store.ToggleWishlistItem | src/components/ProductCard.jsx:10-17 | Only `wishlist` changes, removing the product if present and adding it otherwise. |
| AppStore.Store.Reset | src/store/appStore.js:103-113 | Every field returns to its initial value. |
| AppStore.ToggleCartTwice | src/store/appStore.js:98 | Toggling the cart panel twice leaves the whole store as it was. |
| ProductGrid.ParseSortKey | src/pages/ProductGrid.jsx:37-53 | The grid leaves the order alone exactly when `sortBy` is not one of the four dropdown values, including when it is "". |
| ProductGrid.CategoryFilterApplies | src/pages/ProductGrid.jsx:32 | Every one of the five category labels switches the category filter on. |
| ProductGrid.InOrder | src/pages/ProductGrid.jsx:40-49 | The definition of the four comparators. "price-low-high" puts the lower price first and "price-high-low" the higher. "name-a-z" asks `precedes(a.name, b.name)` and "name-z-a" `precedes(b.name, a.name)`. |
| ProductGrid.CopyFiltered | src/pages/ProductGrid.jsx:29-34 | The spread copy, then the category filter. The result is a fresh array holding exactly `FilteredCatalog` of the catalog. |
| ProductGrid.FilteredCatalog | src/pages/ProductGrid.jsx:29-34 | With filter "" or "All" the catalog passes through unchanged. Otherwise the result is exactly the products of that category, in order. It is empty exactly when no product carries the category. |
| ProductGrid.InOrderTotal | src/pages/ProductGrid.jsx:40-49 | Every comparator compares any two products, given a total name collation. |
| ProductGrid.InOrderTransitive | src/pages/ProductGrid.jsx:40-49 | Every comparator is transitive, given a transitive name collation. |
| ProductGrid.SortInPlace | src/pages/ProductGrid.jsx:37-54 | The array ends up sorted under the chosen comparator and is a permutation of its old contents. |
| ProductGrid.InsertLast | src/pages/ProductGrid.jsx:37-54 | One insertion step. The sorted prefix grows by one, the rest of the array is untouched, and the contents stay a permutation. |
| ProductGrid.ShowProducts | src/pages/ProductGrid.jsx:28-54 | The shown list is a permutation of the filtered catalog, sorted by the chosen key. It is exactly the filtered catalog when no known sort key is chosen, and empty exactly when that list is empty. The catalog array is not modified. |
| ProductGrid.PriceSortIsDetermined | src/pages/ProductGrid.jsx:39-44 | With distinct prices, any two price-sorted permutations of the same products are equal. |
| ProductGrid.PriceLowHighExample | src/pages/ProductGrid.jsx:39-41 | Any low-to-high price sort of the bundled catalog orders it 12,500, 45,000, 68,963, 814,282. |
| ProductGrid.BundledCatalogByPrice | src/pages/ProductGrid.jsx:28-41 | The grid on the bundled catalog, unfiltered and sorted "price-low-high", shows exactly that order. |

## Left out

- `formatPrice` (src/utils/recommendationLogic.js:70-77) is left out. It depends on `Intl.NumberFormat` locale data.
- `finishSurvey` is left out. It does nothing, so there is nothing to model.
- The store's `recommendations` field is modelled but never changes: no store action assigns it apart from `reset`.
- The zustand subscription machinery, React rendering, routing, dropdown state, animations and the loader are not modelled.
- ProductDetail.jsx is not part of this model. Its heart button is the same toggle as the product card's, which is modelled.
- The grid filters the whole catalog. It reads `selectedCategory` and `selectedCelebrity` from the store. It never uses them to filter: `selectedCelebrity` only feeds the hero banner, which is rendering. The model filters the whole catalog too.
- `localeCompare` is a parameter `precedes`. It is only required to be total and transitive, so name sorts are proved sorted but not tied to one locale.
- Product names are compared with `localeCompare` only. No tie-break order is modelled.
- ProductGrid.ShowProducts: does not promise the order of equal elements. JavaScript's `sort` is stable, but the model's insertion sort is proved only sorted and a permutation.
- JsBuiltins.ToLowerCase: lower-cases the ASCII letters A-Z only. Other Unicode case mappings are not modelled.
- RecommendationLogic.RecommendProducts: requires that the metal answer (index 2) is absent or a string. An array there has no `toLowerCase`, and the source throws a TypeError. The same requirement is on `GenerateRecommendations`, `MatchCount` and `MetalMatch`.
- Question indices are natural numbers. The store's integer indices are modelled without negative or fractional values.
- Product ids and celebrity ids are integers. `NaN`, and ids of other types, are not modelled as falsy keys.
- Cart quantities are integers. Fractional quantities are not modelled.
- Answers are either a string or a list of strings. Other answer types are not modelled.
- Product and celebrity descriptions in the bundled catalog are abbreviated. No logic reads them.
