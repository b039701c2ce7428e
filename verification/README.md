# Cart and admin selection rules of a pet-food storefront, in Dafny

This project models the parts of the storefront that contain logic of their own:

- **The cart reducer** (`Cart`). The cart state holds its lines, two derived fields (`total`, `itemCount`) and a loading flag. There are six actions: SET_LOADING, SET_CART, ADD_ITEM (merges with an existing line for the same product, or appends), REMOVE_ITEM, UPDATE_QUANTITY (sets a quantity, then drops every non-positive line) and CLEAR_CART. The model also has the line `addToCart` builds, and the quantities the cart drawer's minus and plus buttons send.
- **The admin dashboard's product list** (`Dashboard`). It covers the search, category and stock filter, and the in-stock and out-of-stock counts.
- **The admin invoices page** (`Invoices`). It covers the list filter, the status badge style and the request body `createInvoice` builds from the cart. Its capitalised status label is `Text.Capitalize`.
- **The product collection endpoint** (`ProductsApi`). For GET, it covers how query parameters become a database `where` clause. For POST, it covers which creation requests are rejected with 400 and how the stored fields are derived.

Shared pieces:
- `Seqs` holds JavaScript's `filter` and `map` over sequences, with an order-preserving subsequence predicate.
- `Text` holds ASCII lower/upper-casing, `includes` and the capitalisation of the status label.
- `Catalog` holds the product record.
- `Wrappers` holds `Option`.

Modelling choices:
- Prices are integer cents and quantities are integers, so every total is an exact sum. The source uses JavaScript floating-point numbers.
- The reducer, the filters and POST are functions over immutable values, as in the source. GET builds its `where` object field by field, so it is a method.
- `parseInt` and `parseFloat` are not reimplemented. Their results are parameters of type `Option<int>`, with None standing for NaN.
- A JSON request body value is a `JsonValue` with JavaScript truthiness.
- The `Date.now()` part of a new line's label is a parameter `stamp`.
- The dashboard search matches the term against the product's name **or** its description (src/app/admin/dashboard/page.tsx:84-85). The model follows that code.

## Model

| member | source | states |
|---|---|---|
| `Seqs.Filter` | src/contexts/CartContext.tsx:64 | Every element of the result satisfies the predicate. The result is an order-preserving subsequence of the input and no longer than it |
| `Seqs.FilterMembers` | src/contexts/CartContext.tsx:64 | Every element of the result is in the input, and every input element satisfying the predicate is in the result |
| `Seqs.FilterCount` | src/contexts/CartContext.tsx:64 | An element satisfying the predicate occurs in the result exactly as often as in the input; any other element does not occur |
| `Seqs.Map` | src/contexts/CartContext.tsx:44-48 | One result per element, in order; the i-th result is the function applied to the i-th element |
| `Seqs.FilterAppend` | src/contexts/CartContext.tsx:64 | Filtering distributes over concatenation |
| `Seqs.FilterComplementLength` | src/app/admin/dashboard/page.tsx:62-63 | A filter and its negation together keep as many elements as the input has |
| `Text.Lower` | src/app/admin/dashboard/page.tsx:84 | Lower-casing keeps the length and lower-cases each character |
| `Text.IncludesIffOccurs` | src/app/admin/dashboard/page.tsx:84-85 | `includes` is true iff the needle occurs as a contiguous slice at some position |
| `Text.EmptyTermMatches` | src/app/admin/dashboard/page.tsx:84-85 | An empty search term matches every field, ignoring case |
| `Text.Capitalize` | src/app/admin/invoices/page.tsx:271 | Same length. The first character is upper-cased and the rest is unchanged. The empty string stays empty |
| `Text.CapitalizeSameIgnoringCase` | src/app/admin/invoices/page.tsx:271 | A capitalised string lower-cases to the same string as the original |
| `Cart.Find` | src/contexts/CartContext.tsx:40 | None iff no line has the product id; otherwise it returns a line of the cart with that id |
| `Cart.Reduce` | src/contexts/CartContext.tsx:23-103 | After every action except SET_LOADING, `total` = Σ price·quantity and `itemCount` = Σ quantity over the new lines. SET_LOADING keeps lines and totals. Only SET_LOADING and SET_CART change `isLoading`, and SET_CART sets it to false. SET_CART makes the payload the lines, so its totals are the sums over the payload. CLEAR_CART gives no lines, total 0 and count 0 |
| `Cart.ReduceKeepsConsistent` | src/contexts/CartContext.tsx:25-98 | Every action maps a state whose totals agree with its lines to another such state |
| `Cart.TotalsAppend` | src/contexts/CartContext.tsx:29-30 | Both sums over a concatenation are the sums of the parts |
| `Cart.AddExistingMerges` | src/contexts/CartContext.tsx:40-48 | ADD_ITEM for a product already present keeps the number of lines. Each line for that product gains the payload quantity; every other line is unchanged |
| `Cart.AddExistingOneLine` | src/contexts/CartContext.tsx:40-48 | With unique ids, ADD_ITEM for a present product changes only that product's line, whose quantity grows by the payload's |
| `Cart.AddExistingTotals` | src/contexts/CartContext.tsx:40-60 | With unique ids, ADD_ITEM for a present product grows `itemCount` by the payload quantity and `total` by that quantity times the line's price |
| `Cart.AddNewAppends` | src/contexts/CartContext.tsx:49-60 | ADD_ITEM for a new product appends the payload as the last line and keeps all earlier lines. Each total grows by the payload line's share |
| `Cart.RemoveDropsProduct` | src/contexts/CartContext.tsx:63-73 | After REMOVE_ITEM no line has that product. A line remains iff it was there and is for another product. The result is an order-preserving subsequence, and every remaining line occurs as often as before |
| `Cart.FilterOutOneLine` | src/contexts/CartContext.tsx:64 | With unique ids, the REMOVE_ITEM filter yields exactly the lines before and after the removed one |
| `Cart.RemoveOneLine` | src/contexts/CartContext.tsx:63-73 | With unique ids, REMOVE_ITEM yields the cart without that line, and both totals drop by that line's share |
| `Cart.UpdatedTarget` | src/contexts/CartContext.tsx:76-80 | On the lines: a positive target quantity lands on a line for the product, and a non-positive one leaves no line for it |
| `Cart.UpdatedOthers` | src/contexts/CartContext.tsx:76-80 | On the lines: each other product keeps exactly its lines with a positive quantity. Each mapped line with a positive quantity occurs as often as before the filter, and no other line occurs |
| `Cart.UpdateSetsOrRemoves` | src/contexts/CartContext.tsx:75-90 | After UPDATE_QUANTITY every line has a positive quantity. A positive target quantity appears on a line for the product. A non-positive one leaves no line for it |
| `Cart.UpdateKeepsOtherLines` | src/contexts/CartContext.tsx:75-90 | After UPDATE_QUANTITY, a line of another product remains iff it was there with a positive quantity. The result keeps the order of the lines. Each mapped line with a positive quantity occurs as often as before, and no other line occurs |
| `Cart.StepperKeepsLines` | src/components/Cart.tsx:75-86 | The minus button sends `max(1, q-1)` and the plus button `q+1`, both ≥ 1. In a cart of positive lines with unique ids, either button changes only that line's quantity, and `itemCount` moves by the same amount |
| `Cart.AddKeepsUnique` | src/contexts/CartContext.tsx:39-61 | ADD_ITEM keeps product ids unique |
| `Cart.ReduceKeepsUnique` | src/contexts/CartContext.tsx:39-98 | ADD_ITEM, REMOVE_ITEM, UPDATE_QUANTITY, CLEAR_CART and SET_LOADING keep product ids unique |
| `Cart.SetCartAllowsDuplicates` | src/contexts/CartContext.tsx:28-37 | SET_CART does not establish unique ids: two lines for one product stay as given |
| `Cart.NewLine` | src/contexts/CartContext.tsx:138-146 | The line `addToCart` builds is for the product's id and has quantity 1 |
| `Cart.AddToCart` | src/contexts/CartContext.tsx:138-149 | The totals agree with the new lines and the loading flag is unchanged. For a product already in the cart, the number of lines stays the same: each of its lines gains one unit and the other lines are unchanged. For any other product, the new one-unit line is appended |
| `Cart.MergeIntoLastLine` | src/contexts/CartContext.tsx:40-48 | When the last line is the only one for the item's product, ADD_ITEM merges the item into it and leaves the rest |
| `Cart.AddToCartAccumulates` | src/contexts/CartContext.tsx:138-149 | Calling `addToCart` n ≥ 1 times for a product the cart lacks appends a single line for it. That line has quantity n and keeps the first call's label |
| `Cart.AddToCartFromEmpty` | src/contexts/CartContext.tsx:105-149 | From the initial state, n calls give one line with quantity n, `itemCount` n and `total` n·price |
| `Dashboard.FilteredProducts` | src/app/admin/dashboard/page.tsx:83-92 | A product is kept iff it matches the search, the category and the stock selector. The result is an order-preserving subsequence of the list |
| `Dashboard.EmptySearchMatchesAll` | src/app/admin/dashboard/page.tsx:84-85 | An empty search term matches every product |
| `Dashboard.DefaultFiltersShowAll` | src/app/admin/dashboard/page.tsx:83-92 | Empty search, category 'All' and stock 'All' show the whole list unchanged |
| `Dashboard.CategoryFilterExact` | src/app/admin/dashboard/page.tsx:86 | A category other than 'All' keeps only products of exactly that category |
| `Dashboard.StockFilterCases` | src/app/admin/dashboard/page.tsx:87-89 | 'All' keeps everything. 'In Stock' keeps exactly the stocked products and 'Out of Stock' exactly the others. Any other value keeps nothing |
| `Dashboard.UnknownStockFilterShowsNothing` | src/app/admin/dashboard/page.tsx:87-89 | A stock selector value other than the three offered empties the list |
| `Dashboard.ProductStats` | src/app/admin/dashboard/page.tsx:61-63 | `totalProducts` = number of products, and in-stock + out-of-stock = total. In-stock is what the 'In Stock' filter shows; out-of-stock is what 'Out of Stock' shows |
| `Dashboard.StockCountsMatchFilter` | src/app/admin/dashboard/page.tsx:61-63 | The `inStock` count equals the 'In Stock' view's length, and the remainder equals the 'Out of Stock' view's length |
| `Invoices.FilteredInvoices` | src/app/admin/invoices/page.tsx:112-117 | An invoice is kept iff the term occurs, ignoring case, in its email or name, and its status passes the selector. The result keeps the list's order |
| `Invoices.StatusFilterExact` | src/app/admin/invoices/page.tsx:115 | A status other than 'All' keeps only invoices with exactly that status. An empty search with 'All' keeps every invoice |
| `Invoices.StatusColor` | src/app/admin/invoices/page.tsx:119-132 | Green iff 'paid', yellow iff 'pending', red iff 'void'. The draft gray for 'draft' and every other status |
| `Invoices.InvoiceRequest` | src/app/admin/invoices/page.tsx:66-81 | An empty cart sends no request. Otherwise there is one invoice item per cart line, in order, with the same name, quantity and price and the description "Cat food - " + name |
| `Invoices.InvoiceAmountIsCartTotal` | src/app/admin/invoices/page.tsx:76-81 | The requested invoice's items add up to exactly the cart's total |
| `Invoices.MappedAmount` | src/app/admin/invoices/page.tsx:76-81 | Mapping cart lines to invoice items keeps Σ price·quantity |
| `ProductsApi.BuildWhere` | src/app/api/products/route.ts:12-24 | A category constraint only for a present, non-empty category other than 'All'. `featured`/`inStock` constraints only for exactly 'true'. The clause selects exactly the requested products |
| `ProductsApi.Create` | src/app/api/products/route.ts:43-68 | Rejected with 400 iff name, description, price or category is falsy. Otherwise `inStock` ⇔ `stockCount > 0`, where `stockCount` is the parsed count or 0 on NaN. `featured` ⇔ the input is `true` or 'true'. A falsy image is stored as null. Other fields pass through |
| `ProductsApi.Post` | src/app/api/products/route.ts:43-76 | A body that cannot be read as an object (malformed JSON or `null`) is answered with 500 'Internal server error'. Any other body is handled as `Create` handles it. Only 400 and 500 are rejection statuses |
| `ProductsApi.PrimitiveBodyRejected` | src/app/api/products/route.ts:45-54 | A body with none of the fields, such as a number, string or array, is answered with 400 and the required-fields message |
| `ProductsApi.PriceTruthiness` | src/app/api/products/route.ts:48-59 | A price of numeric 0 or '' is rejected. The string '0' passes validation and is stored with its parsed price |

## Left out

- Loading the cart from and saving it to browser local storage, with its JSON parsing: browser I/O. Its only effect on the reducer is a SET_CART or SET_LOADING action, and both are modelled.
- The `default` case of the reducer: the action type is a closed union, so every action matches one of the six cases.
- `removeFromCart`, `updateQuantity` and `clearCart` only dispatch the corresponding action; the model applies `Cart.Reduce` to that action directly.
- The `Date.now()` part of a new line's label: it is a parameter, and the reducer never reads labels.
- Floating-point prices and `toFixed` rounding: prices are exact integer cents.
- The dashboard's revenue, monthly revenue, order and average figures: float arithmetic with rounding and mock multipliers.
- Fetching, deleting and the mock invoice list: network and UI state.
- The invoice creation endpoint, Stripe checkout and webhooks, and the invoice library: thin wrappers over the payment provider's SDK and the ORM.
- The admin login route and the seed data: database lookups and fixtures.
- The database behind the product endpoint, including the `createdAt` descending order of the listing and the ORM's own type checks on created records (which would turn a non-string name into a 500). A database failure is also answered with 500, and `ProductsApi.Post` does not model it. `Selects` stands for the `where` semantics.
- JavaScript number parsing: `parseInt` and `parseFloat` results are parameters.
- Unicode case mapping: `Text.Lower`, `Text.UpperChar` and `Text.Capitalize` map ASCII letters only. Full Unicode upper-casing can change a string's length (for example 'ß' becomes 'SS'), which the length clauses do not cover.
- Page and component rendering, routing and timers.
- Cart.Find: its contract says the line returned is one of the cart's lines for the product, not that it is the first such line. The reducer only tests whether a line was found.
