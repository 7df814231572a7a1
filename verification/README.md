# Cart and checkout model of the stripe-demo storefront

This project is a Dafny model of the domain logic of a small storefront. The
logic lives inside the storefront's page components. The model covers:

- the cart list: `updateQuantity`, `removeFromCart` and `clearCart` on the cart
  page, and the add-to-cart toggle on the home page;
- the join of cart entries against the product catalog, in cart order (cart and
  checkout pages) and in catalog order (home page), with the order total and the
  navbar item count;
- the three page-specific loaders of the stored cart, including the upgrade of
  legacy bare-id arrays, and the save effects;
- the checkout page's redirect, intent request, intent reply, payment success and
  panel choice;
- the payment form's submit state machine;
- the payment-intent route's conversion to minor currency units and its response
  mapping.

Everything is a pure function over immutable datatypes:

| module | file | models |
|---|---|---|
| `CartTypes` | `cart_types.dfy` | products, cart entries, joined line items |
| `CartList` | `cart_list.dfy` | entry-list operations, `find`, item count |
| `CatalogJoin` | `catalog_join.dfy` | catalog lookup, both joins, totals |
| `CartStore` | `cart_store.dfy` | the parsed storage value, loaders, writes |
| `PaymentIntentRoute` | `payment_intent_route.dfy` | `POST /api/create-payment-intent` |
| `PaymentForm` | `payment_form.dfy` | the payment form's `handleSubmit` |
| `Checkout` | `checkout.dfy` | the checkout page's effects and handlers |

Conventions:

- Prices and amounts are exact `real`s in dollars. `Math.round(x)` is ⌊x + ½⌋.
- The catalog is a parameter `catalog: seq<Product>`.
- Storage access and `JSON.parse` are replaced by their outcome. `Stored` is one of:
  - `Absent`: no key, or an empty string.
  - `Unparsable`: the parse threw.
  - `Array(elems)`: each element is classified by its `typeof` as `Num`, `Entry`, `OtherObject` or `OtherScalar`.
  - `NotArray`.
- A loader whose result is not a list of cart entries yields `IllTyped`. The source then holds a non-cart value in React state, and the model does not follow the page past that point.
- `fetch`, the payment processor's intent creation and the widget's `confirmPayment` are replaced by their results, which are inputs. The route takes the processor as a function parameter `create`.
- Parent callbacks of the payment form are returned, in order, as a list.

Behaviour of the code worth noting:

- The home page writes the cart to storage on every state, including the initial empty one. It does not wait for loading.
- The checkout page does not upgrade legacy bare-id arrays. With such a value it loads no cart (`LegacyCartNotUpgradedAtCheckout`).
- A failed intent creation is not shown as an error. The route answers 500 with `{error}`. The checkout page reads that body, and its client secret becomes undefined. The page then shows "Loading payment details..." (`RouteErrorShowsWaiting`).
- The route does not check the amount's sign or the currency.
- The loaders do not check quantities. A stored entry with quantity 0 or below is loaded as it is (`UncheckedQuantityLoads`). This is why `CartList.OperationsKeepQuantitiesPositive` assumes a positive cart and `CatalogJoin.CartTotalNonNegative` assumes non-negative quantities as well as non-negative prices.
- `updateQuantity` sets the new quantity on every entry with the id, not on a single one.

## Model

| member | source | states |
|---|---|---|
| CartList.FindEntry | src/app/page.tsx:37 | a found entry is in the cart and has the id; nothing is found exactly when no entry has the id |
| CartList.FindEntryIsFirst | src/app/page.tsx:37 | the entry found is the first with the id: every earlier entry has another id |
| CartList.RemoveFromCart | src/app/cart/page.tsx:57-59 | an entry survives iff it was present and its id differs; the length drops by the number of entries with the id |
| CartList.RemoveDistributes | src/app/cart/page.tsx:57-59 | removal distributes over concatenation, so surviving entries keep their relative order |
| CartList.RemoveAbsent | src/app/cart/page.tsx:57-59 | removing an id that is not in the cart leaves it unchanged |
| CartList.RemoveIdempotent | src/app/cart/page.tsx:57-59 | removing the same id twice is the same as removing it once |
| CartList.RemoveItemCount | src/app/cart/page.tsx:57-79 | the item count falls by exactly the units held under the removed id |
| CartList.RemovePreservesUnique | src/app/cart/page.tsx:57-59 | removal keeps "at most one entry per id" |
| CartList.UpdateQuantity | src/app/cart/page.tsx:45-55 | below 1 it is removal; otherwise the length and order are kept, entries with the id get the new quantity and all other entries are unchanged |
| CartList.UpdateAbsentIsNoop | src/app/cart/page.tsx:45-55 | updating an absent id changes nothing, whatever the quantity |
| CartList.UpdateIdempotent | src/app/cart/page.tsx:45-55 | setting the same quantity twice equals setting it once |
| CartList.UpdateItemCount | src/app/cart/page.tsx:45-79 | after an update to q ≥ 1 the count is the count without the id plus q per entry with the id |
| CartList.SetQuantityItemCount | src/app/cart/page.tsx:50-54 | setting q on the id's entries changes the count by q per such entry minus the units they held |
| CartList.UpdatePreservesUnique | src/app/cart/page.tsx:45-55 | an update keeps "at most one entry per id" |
| CartList.SetQuantityOf | src/app/cart/page.tsx:50-54 | the length is kept; entry i becomes (id, q) when it has the id and is unchanged otherwise |
| CartList.ItemCount | src/app/cart/page.tsx:79 | no contract of its own; its meaning is carried by ItemCountAtLeastEntries, ItemCountDistributes, RemoveItemCount and SetQuantityItemCount |
| CartList.ItemCountAtLeastEntries | src/app/cart/page.tsx:79 | with every quantity at least 1 the count is at least the number of entries, and it is 0 exactly for the empty cart |
| CartList.ClearCart | src/app/cart/page.tsx:61-63 | the cleared cart has no entries and an item count of 0 |
| CartList.ToggleInCart | src/app/page.tsx:35-44 | a present id is removed entirely, which is exactly RemoveFromCart; an absent id is appended with quantity 1 after the unchanged existing entries |
| CartList.ToggleAbsentTwice | src/app/page.tsx:35-44 | toggling an absent id twice restores the original cart |
| CartList.TogglePresentTwice | src/app/page.tsx:35-44 | toggling a present id twice gives the cart without it plus a single unit at the end, whatever its old quantity |
| CartList.TogglePreservesUnique | src/app/page.tsx:35-44 | the toggle keeps "at most one entry per id" |
| CartList.OperationsKeepQuantitiesPositive | src/app/cart/page.tsx:45-63 | on a cart whose quantities are all at least 1, remove, update, toggle and clear keep them at least 1 |
| CartList.ItemCountDistributes | src/app/cart/page.tsx:79 | the item count is additive over concatenation |
| CatalogJoin.FindProduct | src/app/cart/page.tsx:67 | a found product is in the catalog and has the id; nothing is found exactly when no product has it |
| CatalogJoin.FindProductIsFirst | src/app/cart/page.tsx:67 | the product found is the first with the id: every earlier product has another id |
| CatalogJoin.JoinInCartOrder | src/app/cart/page.tsx:65-73 | at most one line per entry; every line is the catalog's product for an entry with that entry's quantity; every entry with a product yields its line |
| CatalogJoin.JoinDistributes | src/app/cart/page.tsx:65-73 | the join distributes over concatenation of entry lists, so lines follow cart order |
| CatalogJoin.JoinOfKnownEntries | src/app/checkout/page.tsx:49-57 | when every id is in the catalog, line i is entry i's product with entry i's quantity |
| CatalogJoin.JoinDropsDangling | src/app/cart/page.tsx:65-73 | entries whose id has no product contribute no line |
| CatalogJoin.JoinInCatalogOrder | src/app/page.tsx:46-54 | at most as many lines as catalog products; every line is a catalog product with the quantity of the first entry for it; every product with an entry has its line. Order and "one line per product" are stated by the two lemmas below |
| CatalogJoin.JoinInCatalogOrderDistributes | src/app/page.tsx:46-54 | the join distributes over concatenation of catalogs, so lines follow catalog order and each product contributes only its own lines |
| CatalogJoin.JoinInCatalogOrderSingle | src/app/page.tsx:46-54 | one product yields no line without an entry, and exactly one line, with its first entry's quantity, with one; together with the lemma above this fixes the whole result |
| CatalogJoin.JoinsAgreeOnLines | src/app/page.tsx:46-54 | with unique ids in cart and catalog, the home-page and cart-page joins hold the same lines |
| CatalogJoin.JoinsDifferOnDuplicateEntries | src/app/page.tsx:46-54 | with two entries for one product the cart-order join has two lines and the catalog-order join one |
| CatalogJoin.JoinsDifferInOrder | src/app/page.tsx:46-54 | the two joins order the same lines differently |
| CatalogJoin.Total | src/app/cart/page.tsx:75-78 | no contract of its own; its meaning is carried by TotalDistributes, LinesTotalNonNegative and DanglingEntryCountedNotCharged |
| CatalogJoin.TotalDistributes | src/app/cart/page.tsx:75-78 | the total of price times quantity is additive over concatenation |
| CatalogJoin.LinesTotalNonNegative | src/app/cart/page.tsx:75-78 | lines with non-negative prices and quantities total at least 0 |
| CatalogJoin.CartTotalNonNegative | src/app/checkout/page.tsx:59-63 | a cart with non-negative quantities against non-negative prices totals at least 0 |
| CatalogJoin.ClearedCartIsEmpty | src/app/cart/page.tsx:61-79 | after clearing, the item count and the total are both 0 |
| CatalogJoin.DanglingEntryCountedNotCharged | src/app/cart/page.tsx:65-79 | an entry with an unknown id adds its quantity to the item count but nothing to the total |
| CartStore.Encode | src/app/cart/page.tsx:41 | the stored form is an array with one entry object per cart entry, in order |
| CartStore.AsCartItems | src/app/cart/page.tsx:31 | an array taken as-is is a cart iff every element is an entry object, and then it is those entries in order |
| CartStore.UpgradeLegacy | src/app/cart/page.tsx:29 | the legacy map gives a cart iff every element is a number, and then entry i is (id i, quantity 1) |
| CartStore.LoadForCartPage | src/app/cart/page.tsx:19-37 | missing or unparsable storage gives the empty cart; a cart is loaded iff the value is not a non-array, and an array is all entries or a non-empty all-number legacy array |
| CartStore.LoadForHomePage | src/app/page.tsx:13-29 | anything but an array, an empty array or one starting with a string or boolean gives the empty cart; a cart is loaded iff one of those holds or the array is all entries or all numbers |
| CartStore.LoadForCheckout | src/app/checkout/page.tsx:30-41 | missing or unparsable storage gives the empty cart; a cart is loaded iff the value is not a non-array and an array is all entries, keeping its length |
| CartStore.SavedCartReloads | src/app/cart/page.tsx:19-43 | every page's loader reads back exactly the entries that were saved |
| CartStore.MissingOrCorruptLoadsEmpty | src/app/cart/page.tsx:19-37 | missing or unparsable storage loads as an empty cart on every page |
| CartStore.LegacyCartUpgraded | src/app/cart/page.tsx:24-30 | a non-empty id array becomes quantity-1 entries in order on the cart and home pages; the checkout loader yields no cart |
| CartStore.LegacyExample | src/app/cart/page.tsx:24-30 | the stored value [3, 7] loads as entries (3, 1) and (7, 1) |
| CartStore.HomeLoaderExtendsCartLoader | src/app/page.tsx:13-29 | whenever the cart page's loader yields a cart, the home page's loader yields the same cart |
| CartStore.CheckoutLoaderAgreesWithCartLoader | src/app/checkout/page.tsx:30-41 | whenever the checkout loader yields a cart, the cart page's loader yields the same cart |
| CartStore.NonArrayLoadsDiffer | src/app/page.tsx:18 | a parsed non-array empties the home page's cart but is not a cart on the other pages |
| CartStore.CartPageSave | src/app/cart/page.tsx:39-43 | while loading nothing is written; afterwards the current entries are written |
| CartStore.CartPageSaveGated | src/app/cart/page.tsx:39-43 | a save during loading leaves storage unchanged; a later save reloads as the current entries |
| CartStore.HomePageSave | src/app/page.tsx:31-33 | every state is written, with no loading gate |
| CartStore.HomePageSaveReloads | src/app/page.tsx:31-33 | whatever state the home page saves, every page's loader reads back exactly those entries |
| CartStore.UncheckedQuantityLoads | src/app/cart/page.tsx:31 | an entry with any quantity, zero or negative included, is loaded unchanged by all three loaders |
| CartStore.HomePageSaveUngated | src/app/page.tsx:31-33 | the initial empty state overwrites whatever was stored |
| CartStore.ErasedCartLoadsEmpty | src/app/checkout/page.tsx:84 | after the key is removed every page loads an empty cart |
| CartStore.UpgradedQuantitiesPositive | src/app/cart/page.tsx:29 | upgraded legacy entries hold one unit each |
| PaymentIntentRoute.ToMinorUnits | src/app/api/create-payment-intent/route.ts:14 | the result is the integer within (x − ½, x + ½] of amount × 100 |
| PaymentIntentRoute.ParamsFor | src/app/api/create-payment-intent/route.ts:14-19 | the intent asks for the rounded minor-unit amount and passes the currency through unchanged |
| PaymentIntentRoute.WholeCentsExact | src/app/api/create-payment-intent/route.ts:14 | a whole number of cents converts exactly |
| PaymentIntentRoute.HalfCentRoundsUp | src/app/api/create-payment-intent/route.ts:14 | an amount halfway between two cents rounds upward, also for negative amounts |
| PaymentIntentRoute.ToMinorUnitsMonotone | src/app/api/create-payment-intent/route.ts:14 | a larger amount never converts to fewer minor units |
| PaymentIntentRoute.FortyDollarsExample | src/app/api/create-payment-intent/route.ts:14 | 40.00 converts to 4000 |
| PaymentIntentRoute.MessageOf | src/app/api/create-payment-intent/route.ts:23-26 | no contract of its own; its meaning is carried by FailureReportedAs500 |
| PaymentIntentRoute.Post | src/app/api/create-payment-intent/route.ts:8-29 | status 200 iff the body was read and the processor created an intent, answering its client secret; otherwise 500 with the thrown value's message |
| PaymentIntentRoute.FailureReportedAs500 | src/app/api/create-payment-intent/route.ts:22-28 | any failure gives 500 with the Error's message, or "An unknown error occurred" for a non-Error |
| PaymentForm.ErrorText | src/components/checkout/PaymentForm.tsx:43-44 | the shown message is the error's message when non-empty, else the fixed fallback; it is never empty |
| PaymentForm.HandleSubmit | src/components/checkout/PaymentForm.tsx:25-49 | without the widget nothing changes. On success the form stays submitting, the parent's error is cleared and success is reported exactly once. On an error the form stops submitting, the parent's error is cleared and then set to the same message as the form's own error, which is the error's message or the fallback text. On a rejected confirmation the form stays submitting with no error, the parent's error was only cleared, and success is not reported |
| PaymentForm.ButtonDisabled | src/components/checkout/PaymentForm.tsx:62 | no contract of its own; its meaning is carried by PendingBlocksResubmit, DeclineAllowsRetry, SuccessKeepsFormLocked and RejectedConfirmLeavesFormStuck |
| PaymentForm.ErrorShown | src/components/checkout/PaymentForm.tsx:73-75 | no contract of its own; its meaning is carried by the same four lemmas |
| PaymentForm.PendingBlocksResubmit | src/components/checkout/PaymentForm.tsx:30-62 | while confirmation is awaited the button is disabled and no error is shown |
| PaymentForm.DeclineAllowsRetry | src/components/checkout/PaymentForm.tsx:42-75 | after a decline an error is shown, the parent's last message is the same text and the button is enabled again |
| PaymentForm.SuccessKeepsFormLocked | src/components/checkout/PaymentForm.tsx:46-62 | after success the button stays disabled, no error shows and success is reported once |
| PaymentForm.RejectedConfirmLeavesFormStuck | src/components/checkout/PaymentForm.tsx:30-62 | a rejected confirmation leaves the button disabled, no error shown, the parent's last message "" and no success reported |
| PaymentForm.SubmitWithoutWidgetIsInert | src/components/checkout/PaymentForm.tsx:28 | a submit with the payment library or the elements missing changes nothing and calls nothing |
| Checkout.Mount | src/app/checkout/page.tsx:30-41 | loading ends with the stored entries as-is; there is no state when the stored value is not a cart |
| Checkout.RedirectsToCart | src/app/checkout/page.tsx:43-47 | no contract of its own; its meaning is carried by EmptyStoreRedirects, StoredCartStays, RedirectMeansNoIntent and SuccessIsFinal |
| Checkout.Subtotal | src/app/checkout/page.tsx:59-63 | no contract of its own; its meaning is carried by IntentRequestFor, IntentChargesTotalInCents and FortyDollarScenario |
| Checkout.ShownPanel | src/app/checkout/page.tsx:88-161 | no contract of its own; its meaning is carried by SuccessIsFinal, SecretShowsPaymentForm and RouteErrorShowsWaiting |
| Checkout.NavbarCount | src/app/checkout/page.tsx:91-106 | no contract of its own; its meaning is carried by SuccessIsFinal and ItemCountAtLeastEntries |
| Checkout.EmptyStoreRedirects | src/app/checkout/page.tsx:43-47 | missing, corrupt or empty storage leads to the redirect to the cart |
| Checkout.StoredCartStays | src/app/checkout/page.tsx:43-47 | a loaded non-empty cart does not redirect |
| Checkout.RedirectMeansNoIntent | src/app/checkout/page.tsx:43-71 | a redirecting page never requests an intent |
| Checkout.IntentRequestFor | src/app/checkout/page.tsx:65-71 | a request is made iff the total is positive, for that total and currency "usd" |
| Checkout.IntentMeansKnownEntry | src/app/checkout/page.tsx:49-66 | a request implies at least one entry whose product is in the catalog |
| Checkout.OnIntentReply | src/app/checkout/page.tsx:72-78 | a reply with a secret stores it; an error body or null secret makes it falsy; a failed fetch changes nothing; nothing else changes |
| Checkout.SecretShowsPaymentForm | src/app/checkout/page.tsx:149-158 | a received secret brings up the payment form |
| Checkout.RouteErrorShowsWaiting | src/app/checkout/page.tsx:72-78 | a 500 reply leads to the waiting text; a failed fetch leaves the panel as it was |
| Checkout.OnPaymentSuccess | src/app/checkout/page.tsx:82-86 | success is marked, the entries are emptied and the stored cart is erased |
| Checkout.SuccessIsFinal | src/app/checkout/page.tsx:82-86 | after success the confirmation shows, there is no redirect, no intent request and a zero badge, and every page reloads an empty cart |
| Checkout.IntentChargesTotalInCents | src/app/checkout/page.tsx:63-71 | the processor is asked for the order total rounded to cents, in "usd" |
| Checkout.FortyDollarScenario | src/app/checkout/page.tsx:59-71 | two units at 20.00 total 40.00 and request 4000 cents in "usd" |
| Checkout.LegacyCartNotUpgradedAtCheckout | src/app/checkout/page.tsx:30-41 | a legacy id array yields no checkout state |

## Left out

- Markup and styling are not modelled. This covers `src/components/ui/NavigationBar.tsx` (scroll shadow, outside-click listener, three-item preview, "99+" badge) and `src/components/home/ProductList.tsx` (the `isInCart` highlight, which is `InCart`).
- React scheduling is not modelled. Each effect body is a function of its inputs. Render and commit order, re-renders and the order of effects within a commit are left out.
- `localStorage` and `JSON.parse` are replaced by the `Stored` input and the `Write` output. JSON numbers are modelled as integers, so fractional ids and quantities are not represented. The `console.error` logging of a parse failure is not modelled.
- The model stops at an `IllTyped` load. The source would then render with a value that is not a cart list, for example a non-array or an array holding non-entries. What it renders then (a crash, `NaN` badges) is not modelled.
- `fetch`, `loadStripe`, intent creation and `confirmPayment` are network or SDK calls. Their results are inputs. The Stripe client's construction, its API version and the environment keys are not modelled.
- Overlapping or stale intent requests on the checkout page are asynchrony. Each reply is applied on its own by `OnIntentReply`.
- IEEE-754 behaviour of `price * quantity`, of the `reduce` sums and of `Math.round(amount * 100)` is not modelled. The model uses exact reals. `toFixed(2)` display formatting is also left out.
- The catalog's contents (`src/lib/mock-data/products`) are not part of this model. The catalog is a parameter.
- Checkout.OnIntentReply: an undefined or null client secret is held as the empty string, because only its truthiness is read.
- CatalogJoin.JoinsAgreeOnLines: it states that the two joins hold the same lines. It does not compare the lists' lengths or totals.
