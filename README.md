# Storefront behaviour model

A Dafny model of the client-side logic of an Arabic-language fashion storefront
written as React pages. Three parts of the application carry real decisions and
are modelled here:

- **Search results** (`search_results.dfy`, module `SearchResults`): the effect that
  copies the catalogue, keeps the products whose lower-cased name or category
  contains the lower-cased query `q`, and sorts the copy in place with the
  comparator chosen by the sort selector; and the handlers that submit the
  trimmed search box into the URL's `q` parameter or clear it. The page is a class
  whose fields are the component's state; the sort is an in-place array algorithm
  proved equal to a specification of JavaScript's stable `Array.prototype.sort`.
- **Hero carousel** (`carousel.dfy`, module `Carousel`): a window of one (phone) or
  four (desktop) slides over twelve items, moved cyclically by the arrows and by
  the auto-play timer, directly by the indicator dots, with a play/pause toggle.
- **Product detail** (`product_detail.dfy`, module `ProductDetail`): colour and image
  selection, the quantity stepper bounded to 1..10, add-to-cart and purchase
  (both rejected without a size), purchase confirmation with a full or 50% payment
  checked against a fixed balance of 1250, the review form, and the discount badge.

Shared pieces: `text.dfy` (module `Text`) holds the string operations the pages use
(`toLowerCase` on ASCII letters, `includes`, `trim` with ECMAScript's white-space
and line-terminator code points) and `wrappers.dfy` an `Option` type.

Modelling decisions:

- Prices, ratings and amounts are `real`: the model has no floating-point rounding.
- A sort comparator returns a real; the sort is specified as insertion from the
  right (`Insert`/`SortWith`), which is stable and moves an element left only
  while the comparator is strictly positive. Every ECMAScript implementation
  must give this same order for a consistent comparator, where the order is
  fully determined by the comparator together with stability.
- The comparator of `"newest"` (`b.isNew ? 1 : -1`) is not a consistent
  comparator (it does not answer 0 for equal products, and `compare(a, b)` and
  `compare(b, a)` can both be positive), so for it the model proves only that
  the result is a permutation of the filtered list. The model's insertion
  order for "newest" moves every new product to the front, so new products
  come out first in reverse catalogue order followed by the others in
  catalogue order; that is one order an engine may produce, not necessarily
  the one a given JavaScript engine produces.
- The sort selector's value is a string. Every string other than the four named
  keys takes the `default` branch, whose comparator is 0, and leaves the
  filtered list in catalogue order (`ZeroComparatorKeepsOrder`); "relevance"
  is one such string. An unknown key is not an error.
- A viewport change does not clamp the carousel index: after a phone shows slide
  11 and the window widens to desktop (maximum index 8), the index stays at 11
  until the next step wraps it to 0. `Carousel.ResizeAfterLastSlide` spells out
  that sequence. `Valid()` is therefore only `0 <= currentIndex`, and the full
  range `InRange()` is re-established by the next arrow, the dots and the timer;
  the back arrow steps down one slide at a time until it is back in range
  (from 11 with maximum index 8 it goes to 10, 9, then 8).
- Toasts and the silent early return are an `Outcome` value returned by each
  handler. The review's id and date come from the clock and are parameters.
- The simulated fetch (`setTimeout` of 500 ms) is the method `Loaded`; one
  firing of the 4000 ms interval is the method `Tick`.

## Model

| member | source | states |
|---|---|---|
| Text.LowerChar | src/pages/SearchResultsPage.tsx:63-64 | each ASCII capital maps to the small letter at the same alphabet position; every other character is unchanged |
| Text.Lower | src/pages/SearchResultsPage.tsx:63-64 | lower-casing keeps the length and maps each character by LowerChar |
| Text.LowerIdempotent | src/pages/SearchResultsPage.tsx:63-64 | lower-casing a lower-cased string changes nothing |
| Text.Contains | src/pages/SearchResultsPage.tsx:63-64 | `includes`; its meaning is stated by ContainsIffOccurs and EmptyOccursEverywhere |
| Text.Trim | src/pages/SearchResultsPage.tsx:89-90 | `trim`; its meaning is stated by TrimIsInnerBlock, TrimHasNoOuterSpace, TrimEmptyIffAllSpace and TrimIdempotent |
| Text.ContainsIffOccurs | src/pages/SearchResultsPage.tsx:63-64 | `includes` is true exactly when some position of the string starts an occurrence of the query |
| Text.OccursInTail | src/pages/SearchResultsPage.tsx:63-64 | an occurrence at a position past 0 is an occurrence in the tail one position earlier, both ways |
| Text.EmptyOccursEverywhere | src/pages/SearchResultsPage.tsx:63-64 | every string includes the empty string |
| Text.TrimStart | src/pages/SearchResultsPage.tsx:89-90 | the result is a suffix, what was removed is all white space, and the result does not start with white space |
| Text.TrimEnd | src/pages/SearchResultsPage.tsx:89-90 | the result is a prefix, what was removed is all white space, and the result does not end with white space |
| Text.TrimIsInnerBlock | src/pages/SearchResultsPage.tsx:89-90 | the trimmed string occurs in the input with only white space before and after it |
| Text.TrimHasNoOuterSpace | src/pages/SearchResultsPage.tsx:89-90 | a non-empty trimmed string starts and ends with a non-space character |
| Text.TrimEmptyIffAllSpace | src/pages/SearchResultsPage.tsx:89 | the trimmed string is empty (falsy) exactly when the input is all white space |
| Text.TrimIdempotent | src/pages/SearchResultsPage.tsx:90 | trimming twice gives what trimming once gives |
| SearchResults.Matches | src/pages/SearchResultsPage.tsx:62-64 | the filter predicate; Filter states that exactly the products satisfying it are kept |
| SearchResults.Filter | src/pages/SearchResultsPage.tsx:61-65 | keeps each matching product with its multiplicity and drops every other one, membership both ways, and the result is a subsequence of the input (catalogue order kept) |
| SearchResults.FilterByEmptyQueryKeepsAll | src/pages/SearchResultsPage.tsx:60-65 | filtering by the empty query would keep the whole list, so skipping the filter when `q` is empty changes nothing |
| SearchResults.Visible | src/pages/SearchResultsPage.tsx:57-66 | the list the sort starts from; VisibleIsFilter states that it is the filtered catalogue for every query |
| SearchResults.VisibleIsFilter | src/pages/SearchResultsPage.tsx:57-66 | the list handed to the sort equals the filtered catalogue for every query, and is the whole catalogue when `q` is empty |
| SearchResults.KeyOf | src/pages/SearchResultsPage.tsx:70-81 | the selector string picks each named comparator exactly when it equals that case label, and the default exactly when it is none of them |
| SearchResults.Compare | src/pages/SearchResultsPage.tsx:69-81 | the comparator of each key; CompareIsRankDifference states it as a rank difference for every key but "newest" |
| SearchResults.CompareIsRankDifference | src/pages/SearchResultsPage.tsx:71-78 | every key except "newest" compares by the difference of a numeric rank (price, negated price, negated rating-or-0, or 0) |
| SearchResults.Insert | src/pages/SearchResultsPage.tsx:69-82 | one step of the specified stable sort; InsertPermutes, InsertKeepsOrdered and InsertTies state what it does |
| SearchResults.SortWith | src/pages/SearchResultsPage.tsx:69-82 | the specified stable sort; SortPermutes, SortOrdered, SortStable and SortWithProperties state what it does |
| SearchResults.InsertPermutes | src/pages/SearchResultsPage.tsx:69-82 | inserting an element adds exactly that element to the multiset |
| SearchResults.SortPermutes | src/pages/SearchResultsPage.tsx:69-82 | for every key, including "newest", sorting is a permutation |
| SearchResults.InsertKeepsOrdered | src/pages/SearchResultsPage.tsx:69-82 | for a consistent key, inserting into a rank-ordered list keeps it rank-ordered |
| SearchResults.SortOrdered | src/pages/SearchResultsPage.tsx:69-82 | for a consistent key, the sorted list is non-decreasing in rank |
| SearchResults.SortByPriceLowAscends | src/pages/SearchResultsPage.tsx:71-72 | "price-low" leaves prices non-decreasing |
| SearchResults.SortByPriceHighDescends | src/pages/SearchResultsPage.tsx:73-74 | "price-high" leaves prices non-increasing |
| SearchResults.SortByRatingDescends | src/pages/SearchResultsPage.tsx:77-78 | "rating" leaves ratings (missing ones counted as 0) non-increasing |
| SearchResults.ZeroComparatorKeepsOrder | src/pages/SearchResultsPage.tsx:79-80 | the default comparator leaves the list exactly as it was |
| SearchResults.InsertTies | src/pages/SearchResultsPage.tsx:69-82 | inserting keeps the relative order of the products of each rank and appends the new one after its equals |
| SearchResults.SortStable | src/pages/SearchResultsPage.tsx:69-82 | the sort is stable: products of equal rank keep their catalogue order |
| SearchResults.SortWithProperties | src/pages/SearchResultsPage.tsx:69-82 | per key: a permutation, ascending or descending price, descending rating, unchanged for the default |
| SearchResults.InsertAt | src/pages/SearchResultsPage.tsx:69-82 | swapping the element at i leftwards while the comparator is positive turns the prefix into the specified insertion and leaves the suffix alone |
| SearchResults.SortInPlace | src/pages/SearchResultsPage.tsx:69-82 | the array ends up holding exactly the specified stable sort of its old contents |
| SearchResults.ComputeResults | src/pages/SearchResultsPage.tsx:56-85 | the shown list is the sorted filtered catalogue: the matching products and only those, with their multiplicities, the whole catalogue for an empty query, in the order each comparator demands, catalogue order for the default |
| SearchResults.QueryOf | src/pages/SearchResultsPage.tsx:51 | the `q` parameter, or "" when it is absent; HandleSearch and ClearSearch state the query it yields after each handler |
| SearchResults.SearchPage.constructor | src/pages/SearchResultsPage.tsx:50-54 | the box starts at the current `q`, the sort at "relevance", the results at the whole catalogue |
| SearchResults.SearchPage.Refresh | src/pages/SearchResultsPage.tsx:56-85 | the results become the sorted filtered catalogue for the current `q` and sort key |
| SearchResults.SearchPage.EditSearchInput | src/pages/SearchResultsPage.tsx:114 | typing replaces the box's text |
| SearchResults.SearchPage.SetSortBy | src/pages/SearchResultsPage.tsx:149 | the selector replaces the sort key |
| SearchResults.SearchPage.HandleSearch | src/pages/SearchResultsPage.tsx:87-92 | a non-blank box replaces all parameters by `q` = the trimmed text, so the query becomes that text; a blank box changes nothing |
| SearchResults.SearchPage.ClearSearch | src/pages/SearchResultsPage.tsx:94-97 | the box is emptied, every parameter is removed and the query reads as empty |
| Carousel.VisibleItems | src/components/HeroCarousel.tsx:34 | one slide on a phone, four otherwise; MaxIndex states the resulting last start index |
| Carousel.MaxIndex | src/components/HeroCarousel.tsx:34-35 | the last start index is 11 on a phone and 8 on a desktop, always a valid item index |
| Carousel.NextIndex | src/components/HeroCarousel.tsx:41 | one step forward stays in [0, maxIndex], adds one below maxIndex and wraps to 0 at or past it |
| Carousel.PrevIndex | src/components/HeroCarousel.tsx:53 | one step back subtracts one from every positive index, wraps to maxIndex at 0, and stays in range from an in-range index |
| Carousel.PrevUndoesNext | src/components/HeroCarousel.tsx:47-55 | back after forward returns to the same in-range slide |
| Carousel.NextUndoesPrev | src/components/HeroCarousel.tsx:47-55 | forward after back returns to the same in-range slide |
| Carousel.Advance | src/components/HeroCarousel.tsx:37-45 | n timer ticks; AdvanceFromStart, FullCycle and AdvanceStaysInRange state where they lead |
| Carousel.AdvanceFromStart | src/components/HeroCarousel.tsx:37-45 | from slide 0 the first n timer steps reach slide n |
| Carousel.FullCycle | src/components/HeroCarousel.tsx:37-45 | maxIndex + 1 timer steps from 0 return to 0 and visit no slide twice on the way |
| Carousel.AdvanceStaysInRange | src/components/HeroCarousel.tsx:37-45 | any number of steps from an in-range slide stays in range |
| Carousel.Indicators | src/components/HeroCarousel.tsx:127-136 | there are maxIndex + 1 dots, and the dot indices are exactly 0..maxIndex |
| Carousel.HeroCarousel.constructor | src/components/HeroCarousel.tsx:30-32 | mount at slide 0 with auto-play on |
| Carousel.HeroCarousel.NextSlide | src/components/HeroCarousel.tsx:47-50 | the index steps forward cyclically, auto-play stops, the index is in range |
| Carousel.HeroCarousel.PrevSlide | src/components/HeroCarousel.tsx:52-55 | the index steps back cyclically, auto-play stops, range is kept |
| Carousel.HeroCarousel.GoToSlide | src/components/HeroCarousel.tsx:57-60 | the chosen dot's index becomes current and auto-play stops |
| Carousel.HeroCarousel.Tick | src/components/HeroCarousel.tsx:37-45 | while auto-play is on the index steps forward and lands in range; otherwise nothing changes |
| Carousel.HeroCarousel.ToggleAutoPlay | src/components/HeroCarousel.tsx:146 | auto-play flips and the index stays |
| Carousel.HeroCarousel.SetViewport | src/components/HeroCarousel.tsx:32-35 | crossing the breakpoint changes maxIndex and nothing else; the index is not clamped |
| ProductDetail.CanDecrement | src/pages/ProductDetailPage.tsx:457 | the minus button's enabling rule; StepperStaysInRange and DecrementQuantity state what it guarantees |
| ProductDetail.CanIncrement | src/pages/ProductDetailPage.tsx:466 | the plus button's enabling rule; StepperStaysInRange and IncrementQuantity state what it guarantees |
| ProductDetail.Decremented | src/pages/ProductDetailPage.tsx:456 | the minus button's value is at least 1, never above the old quantity, and one less while the button is enabled |
| ProductDetail.StepperStaysInRange | src/pages/ProductDetailPage.tsx:456-466 | with the buttons' enabling rules both steps keep the quantity in [1, 10] |
| ProductDetail.AmountToPay | src/pages/ProductDetailPage.tsx:216-217 | full payment is price times quantity, partial is half of it, and neither exceeds the total |
| ProductDetail.PartialAffordableWhenFullIs | src/pages/ProductDetailPage.tsx:216-219 | whenever the full amount is within the balance, so is the partial amount |
| ProductDetail.Round | src/pages/ProductDetailPage.tsx:264 | `Math.round` gives the integer within half a unit, halves going up |
| ProductDetail.DiscountPercentage | src/pages/ProductDetailPage.tsx:263-265 | no product, no original price or an original price of 0 gives 0 |
| ProductDetail.DiscountOfSale | src/pages/ProductDetailPage.tsx:263-265 | with a positive original price the badge is the saving rounded to the nearest percent, between 0 and 100 for a real discount, and 0 when the price is unchanged |
| ProductDetail.ProductDetailPage.constructor | src/pages/ProductDetailPage.tsx:139-150 | mount with nothing loaded, first colour and image, no size, quantity 1, full payment, balance 1250, an empty comment box |
| ProductDetail.ProductDetailPage.Loaded | src/pages/ProductDetailPage.tsx:171-177 | the fetched product is stored and loading ends |
| ProductDetail.ProductDetailPage.HandleColorChange | src/pages/ProductDetailPage.tsx:179-182 | colour k also selects image k |
| ProductDetail.ProductDetailPage.SelectImage | src/pages/ProductDetailPage.tsx:356 | a thumbnail selects only the image |
| ProductDetail.ProductDetailPage.SelectSize | src/pages/ProductDetailPage.tsx:436 | a size button selects the size |
| ProductDetail.ProductDetailPage.DecrementQuantity | src/pages/ProductDetailPage.tsx:456-457 | an enabled minus button lowers the quantity by one, a disabled one does nothing, and [1, 10] is kept |
| ProductDetail.ProductDetailPage.IncrementQuantity | src/pages/ProductDetailPage.tsx:465-466 | an enabled plus button raises the quantity by one, a disabled one does nothing, and [1, 10] is kept |
| ProductDetail.ProductDetailPage.HandleAddToCart | src/pages/ProductDetailPage.tsx:184-198 | without a size the request is rejected; with one the product is added in that size; no state changes |
| ProductDetail.ProductDetailPage.HandlePurchase | src/pages/ProductDetailPage.tsx:200-211 | without a size the request is rejected and the dialog is untouched; with one the dialog opens |
| ProductDetail.ProductDetailPage.SetPaymentType | src/pages/ProductDetailPage.tsx:704-716 | the radio buttons set the payment type |
| ProductDetail.ProductDetailPage.ClosePurchaseDialog | src/pages/ProductDetailPage.tsx:738 | cancelling closes the dialog |
| ProductDetail.ProductDetailPage.ConfirmPurchase | src/pages/ProductDetailPage.tsx:213-235 | no product: nothing happens; an amount above the balance is refused and the dialog stays; otherwise exactly the amount for the chosen payment is charged, never more than the balance, and the dialog closes |
| ProductDetail.ProductDetailPage.EditComment | src/pages/ProductDetailPage.tsx:573 | typing replaces the comment box's text |
| ProductDetail.ProductDetailPage.HandleAddReview | src/pages/ProductDetailPage.tsx:237-261 | a blank comment is refused and nothing changes; otherwise one review by the new user with the trimmed, non-empty comment goes in front of the unchanged old list and the box is cleared |

## Left out

- The mock catalogue and its random prices, ratings and flags (`Math.random`): the catalogue is a parameter of `SearchPage`.
- Timers (`setInterval` every 4000 ms, `setTimeout` of 500 ms) and their clean-up: one timer firing is `Tick`, the completed fetch is `Loaded`; time itself is not modelled.
- `useIsMobile`: the viewport is the `isMobile` field, changed by `SetViewport`.
- `Date.now()` and `new Date().toISOString()`: the review's id and date are parameters of `HandleAddReview`.
- Rendering, CSS transforms, `toFixed(2)` formatting, toast texts and navigation: handlers return an `Outcome` instead of showing a toast.
- Text.Lower: lower-cases ASCII letters only; JavaScript's full Unicode case mapping is not modelled (the catalogue's Arabic text has no case).
- `URLSearchParams` with repeated keys: the parameters are a `map` from name to one value.
- The wishlist toggle, `inStock` disabling of the buy buttons and the product fields the handlers never read (images, colours, sizes, description).
- SearchResults.SortWithProperties: for "newest" only the permutation is proved, because its comparator is inconsistent and the resulting order depends on the engine's algorithm.
- Floating-point arithmetic: prices, totals, ratings and the balance are exact reals, so rounding of `price * quantity` and of the discount ratio is not modelled.
- The header, the home page, the categories page and the router: they hold no logic beyond rendering.
