# sport_shop shopping core in Dafny

This project models the shopping core of the sport_shop Django application and proves
properties about it:

- the cart views: `add_to_cart`, `remove_from_cart`, `update_cart_item` and `cart_view`;
- the REST cart endpoints: `CartViewSet.list`, `add_item` and `remove_item`;
- `checkout`, including the mock card payment;
- the `set_order_number` receiver, which numbers orders `ORD-<id>-<SUFFIX>`;
- the review views (`create_review`, `edit_review`, `delete_review`, `mark_helpful`), the review
  form's validation and the `Review` field rules;
- the pricing helpers of `Product`, `Cart`, `CartItem`, `OrderItem` and `Order`;
- `UserProfile.get_full_address` and the receiver that creates a profile for each new user;
- the data step of the migration that gives every product its first category.

Money is held in integer cents, the two decimal places of the source's `DecimalField`s.

The database is one object, `Shop.Store`. Its fields are the tables:

- products, and the cart of each user, as maps;
- cart lines and order lines as sequences in insertion order;
- orders and reviews as maps keyed by id;
- one counter per table for the next primary key.

`Store.Valid()` is the conjunction of the table constraints in `Schema`. These are the primary
keys, the foreign keys, the `unique` and `unique_together` constraints, and the subtotal rule
of `OrderItem.save`. Every view is a `Store` method that keeps `Valid()`. Its `ensures` states:

- which outcome it returns: done, 404, 400, out of stock, empty cart, already reviewed, form
  errors or form shown;
- the new contents of each table it writes, as a pure effect function of the old contents
  (`AddToCartLines`, `ApiAddItemLines`, `UpdateLines`, `RemoveAt`, `OtherLines`,
  `FrozenItems`, `PlacedOrder`, `NewReview`, `ApplyForm`, `MarkedHelpful`);
- which tables stay unchanged.

The properties of the cart, the checkout and the reviews are lemmas about those effect functions.

Inputs from outside the program are parameters:

- the POST or JSON fields, with `None` for a missing key;
- the requesting user's id;
- the hex string that `uuid.uuid4()` returns;
- Django's `slugify`, as an uninterpreted `string -> string`.

Behaviours of the code worth knowing:

- On the web path, a new cart line gets the requested quantity. The request is refused above
  the stock, not clamped to it, and a quantity of 0 or less passes the test
  (`CartRules.AddToCartAcceptsZeroQuantity`).
- The REST `add_item` has no stock test and no clamp at all (`CartRules.WebClampsApiDoesNot`).
- Checkout runs without a transaction. The card payment is applied inside checkout, right after
  the order row is inserted and before the order lines are created.
- The order total equals the sum of the order-line subtotals whenever no product in the cart has
  a stored discount of exactly 0.00 (`Orders.FrozenTotalMatchesCartTotal`). Such a discount is
  counted by the cart total but ignored by `current_price`, and then the two part
  (`Orders.ZeroDiscountSplitsTotals`).
- Helpful votes are a bare counter. No vote record exists, so the same user can vote any number
  of times (`Shop.Store.MarkHelpful`).
- `Order.status` has its five choices but no transition rules anywhere in the code.

## Model

| member | source | states |
|---|---|---|
| Catalog.CurrentPrice | products/models.py:128-130 | the discount price when it is set and non-zero, the list price otherwise; at least one cent for a product that passes its validators |
| Catalog.DiscountPercentage | products/models.py:132-137 | 0 without a (non-zero) discount; with 0 < discount <= price it lies in 0..99 and is 100 × (price − discount) / price truncated toward zero; with a discount above a positive price it is the negative of 100 × (discount − price) / price truncated toward zero; with a negative discount and a positive price it is at least 100, again the truncated quotient (none of these needs the stock or other fields to be valid) |
| Catalog.SlugOnSaveProperties | products/models.py:123-126 | save keeps a non-empty slug, derives an empty or NULL one from the name, and a second save stores the same slug as the first |
| Catalog.SaveProduct | products/models.py:123-126 | Product.save changes the slug only, to the value above |
| Catalog.SaveCategory | products/models.py:42-45 | Category.save changes the slug only, by the same rule |
| Catalog.IncrementViews | products/models.py:143-145 | views_count goes up by exactly one and no other field changes |
| Catalog.MarkupBound | products/models.py:135-136 | a discount above the price gives a percentage of at most 0, truncated toward zero |
| Catalog.NegativeDiscountBound | products/models.py:135-136 | a negative discount with a positive price gives a percentage of at least 100, truncated toward zero |
| CartRules.InStockIffOneUnitAccepted | products/models.py:139-141 | is_in_stock holds exactly when the stock is positive, which is exactly when add_to_cart's stock test lets one unit through |
| OrderNumbers.OrderNumber | orders/signals.py:14 | the number starts with "ORD-" and, for a full digest, has length 11 + the number of digits of the id and ends in the upper-cased first six digest characters |
| OrderNumbers.SuffixIsUpperHex | orders/signals.py:14 | the suffix of a uuid4 hex digest is six upper-case hexadecimal digits |
| OrderNumbers.OrderNumberRoundTrip | orders/signals.py:14 | the order id can be read back from its number, whatever the suffix |
| OrderNumbers.DistinctIdsDistinctNumbers | orders/signals.py:14 | orders with different ids never get the same number, whatever the two suffixes |
| OrderNumbers.OrderNumberFitsColumn | orders/models.py:34-37 | the number fits the column's max_length of 20 if and only if the id has at most nine digits |
| Orders.NumberOnSave | orders/signals.py:11-16 | only a post_save with created set, on an order whose number is empty, writes a number, and that write changes no other field |
| Orders.NumberNeverOverwritten | orders/signals.py:13 | once assigned, the number survives every later save unchanged |
| Orders.LinesOf | orders/views.py:21 | the lines of a cart are exactly the table's lines whose cart is that cart |
| Orders.OtherLines | orders/views.py:136 | what deleting a cart's lines leaves is exactly the lines of the other carts |
| Orders.TotalIsSumOfSubtotals | orders/models.py:164-169 | Cart.get_total_price (Coalesce of the two prices) equals the sum of CartItem.subtotal (the `is not None` choice) over the same lines |
| Orders.TotalPriceAppend | orders/models.py:164-169 | the cart total of two groups of lines is the sum of their totals (0 for no lines) |
| Orders.TotalItemsAppend | orders/models.py:171-174 | the item count of two groups of lines is the sum of their counts (0 for no lines) |
| Orders.TotalsNonNegative | orders/models.py:164-174 | with quantities of at least one and non-negative prices, the total is not negative and the item count is at least the number of lines |
| Orders.Saved | orders/models.py:142-144 | OrderItem.save stores subtotal = price × quantity and changes nothing else |
| Orders.ItemsOf | orders/models.py:110-114 | the lines of an order are exactly the table's lines whose order is that order |
| Orders.FrozenItems | orders/views.py:128-134 | checkout's loop makes one order line per cart line, in cart order, with the same product and quantity, the price frozen to current_price and the saved subtotal |
| Orders.FrozenItemsSnoc | orders/views.py:128-134 | one more turn of checkout's loop appends that cart line's order line |
| Orders.FrozenItemsPassValidators | orders/models.py:119-131 | with a validated catalogue and cart lines of at least one unit, every order line passes the OrderItem validators |
| Orders.FrozenItemsCount | orders/models.py:99-102 | the new order's lines are exactly the frozen lines, and Order.get_items_count equals the cart's get_total_items |
| Orders.FrozenTotalMatchesCartTotal | orders/views.py:105-134 | whenever no product in the cart has a stored discount of 0.00, the order lines' subtotals add up to the cart total stored as total_amount and final_amount |
| Orders.ZeroDiscountSplitsTotals | products/models.py:130 | a stored discount of 0.00 makes the cart total 0 while the order line is priced at the list price |
| Orders.CheckoutExample | orders/views.py:128-134 | three units at 20.00 give a 60.00 cart and one order line of 3 × 20.00 = 60.00 |
| CardPayment.StripSpaces | orders/views.py:120 | the result has no spaces and is shorter than the input by exactly its number of spaces, and equals an input that has none |
| CardPayment.StripSpacesAppend | orders/views.py:120 | stripping spaces distributes over concatenation, so the other characters keep their order |
| CardPayment.Last4 | orders/views.py:121 | the last four characters, or the whole string when it is shorter; always a suffix of the input |
| CardPayment.ApplyCardPayment | orders/views.py:122-125 | the order becomes paid and its notes become the old notes (or "") followed by the payment note with the last four digits; nothing else changes |
| CardPayment.PaymentAppendsToNotes | orders/views.py:124 | the old notes are a strict prefix of the new ones |
| CardPayment.BlankCardNumberStillPays | orders/views.py:119-121 | a card number made of spaces passes the test and marks the order paid, with an empty last4 |
| Reviews.CleanTitle | reviews/forms.py:26-30 | a title is accepted unchanged if and only if it has at least 5 characters |
| Reviews.CleanContent | reviews/forms.py:32-36 | content is accepted unchanged if and only if it has at least 20 characters |
| Reviews.FormValidityBounds | reviews/forms.py:9-36 | a form is valid if and only if the rating is in 1..5, the title has 5 to 200 characters and the content at least 20 |
| Reviews.NewReview | reviews/views.py:28-39 | a new review has the given id, the posted fields, the given product, user and verified flag, zero counters, is not approved, and meets the model's field rules |
| Reviews.ApplyForm | reviews/forms.py:9 | editing changes rating, title and content only; the counters and both flags are kept, and the field rules still hold |
| Reviews.MarkedHelpful | reviews/views.py:93-94 | helpful_count goes up by exactly one, nothing else changes, and the field rules still hold |
| Reviews.HelpfulPercentage | reviews/models.py:66-71 | 0 when there are no votes, between 0 and 100 for non-negative counters, 100 when every vote is helpful |
| Reviews.HelpfulBound | reviews/models.py:68-70 | the truncated helpful share of a positive vote total lies in 0..100 |
| Accounts.GenderCode | users/models.py:12-16 | Male is stored as 'M', Female as 'F' and Other as 'O', and no other code occurs |
| Accounts.GenderCodesDistinct | users/models.py:12-16 | different genders have different codes |
| Accounts.PresentParts | users/models.py:83 | dropping the missing parts never adds any |
| Accounts.PresentPartsOfThree | users/models.py:78-83 | the parts kept from address, city and postal code are the present ones, in that order |
| Accounts.JoinOfAtMostThree | users/models.py:83 | joining up to three parts puts the separator between neighbours only |
| Accounts.FullAddressCases | users/models.py:77-83 | for each of the eight present/missing combinations, the address is the present parts in order joined by ", ", and "" when none is present |
| Accounts.UserDirectory.SaveUser | users/models.py:86-90 | a newly created user gets exactly one profile with every default; saving an existing user adds none |
| CategoryMigration.FirstCategoryPerProduct | products/migrations/0003_add_category_fk.py:12-15 | the map holds exactly the products named in the rows, each with the category of its first row |
| CategoryMigration.AssignCategories | products/migrations/0003_add_category_fk.py:16-22 | each mapped product that exists gets its category; ids with no product are skipped; other products are unchanged |
| CategoryMigration.CopyCategoryData | products/migrations/0003_add_category_fk.py:5-22 | a product named in the rows ends with the category of its first row; every other product and every other field is unchanged |
| CategoryMigration.FirstRowUnique | products/migrations/0003_add_category_fk.py:12-15 | a product has only one first row |
| Orders.TotalPrice | orders/models.py:164-169 | Cart.get_total_price: 0 for no lines; stated by Orders.TotalIsSumOfSubtotals (the sum of the subtotals), Orders.TotalPriceAppend (additive) and Orders.TotalsNonNegative |
| Orders.Subtotal | orders/models.py:203-206 | CartItem.subtotal: the discount price when it is not NULL, else the list price, times the quantity; tied to the cart total by Orders.TotalIsSumOfSubtotals |
| Orders.TotalItems | orders/models.py:171-174 | Cart.get_total_items: 0 for no lines; stated by Orders.TotalItemsAppend and Orders.TotalsNonNegative |
| Orders.ItemsCount | orders/models.py:99-102 | Order.get_items_count: equal to the cart's item count for a placed order, by Orders.FrozenItemsCount |
| CartRules.AddToCartLines | orders/views.py:43-53 | add_to_cart's effect on the lines; stated by CartRules.AddToCartNewLine, CartRules.AddToCartExistingLine, CartRules.AddToCartWithinStock and Schema.AddToCartKeepsCartItems |
| CartRules.ApiAddItemLines | api/views.py:109-117 | add_item's effect on the lines; stated by CartRules.ApiAddItemNewLine, CartRules.ApiAddItemExistingLine and Schema.ApiAddItemKeepsCartItems |
| CartRules.UpdateLines | orders/views.py:80-87 | update_cart_item's effect on the lines; stated by CartRules.UpdateLinesEffect and CartRules.UpdateLinesKeepsQuantitiesPositive |
| Accounts.GetFullAddress | users/models.py:77-83 | the full address; stated case by case by Accounts.FullAddressCases |
| Reviews.FormIsValid | reviews/forms.py:9-36 | form.is_valid(); characterised by Reviews.FormValidityBounds |
| Shop.PaidPurchase | reviews/views.py:32-36 | is_purchased: some order line for the product belongs to a paid order of the user; Shop.Store.CreateReview sets the verified flag to exactly this |
| CartRules.FindLine | orders/views.py:43-47 | the index of the line for (cart, product) when there is one, and the assurance that there is none otherwise |
| CartRules.FindLineIsTheLine | orders/models.py:198 | with one line per (cart, product), the lookup finds exactly that line |
| CartRules.FindOwnedLine | orders/views.py:65 | a line is found only when it has the id and lies in the requesting user's cart; otherwise no such line exists |
| CartRules.SetQuantityKeepsConstraints | orders/views.py:86-87 | setting one line's quantity keeps unique ids and one line per (cart, product), and the line stays findable |
| CartRules.AppendKeepsConstraints | orders/views.py:43-47 | a new line under the next id, for a pair with no line, keeps the constraints and is found at the end |
| CartRules.AddToCartNewLine | orders/views.py:43-47 | for a product not in the cart, exactly one line is appended, with the next id and the requested quantity |
| CartRules.AddToCartExistingLine | orders/views.py:49-53 | for a product in the cart, its line becomes min(old + requested, stock) and every other line is unchanged |
| CartRules.AddToCartWithinStock | orders/views.py:39-53 | once the stock test passes, the line add_to_cart leaves holds at most the stock |
| CartRules.AddToCartKeepsQuantitiesPositive | orders/views.py:39-53 | a request of at least one unit that passes the stock test leaves every quantity at least one |
| CartRules.AddToCartAcceptsZeroQuantity | orders/views.py:37-47 | a requested quantity of 0 passes the stock test of every product with non-negative stock, and creates a line of 0 units |
| CartRules.ApiAddItemNewLine | api/views.py:109-113 | for a product not in the cart, add_item appends exactly one line with the next id and the requested quantity |
| CartRules.ApiAddItemExistingLine | api/views.py:115-117 | for a product in the cart, add_item adds the requested quantity with no clamp; every other line is unchanged |
| CartRules.WebClampsApiDoesNot | api/views.py:115-117 | 4 units plus 3 with a stock of 5 give 5 through the web view and 7 through the API |
| CartRules.RemoveAtEffect | orders/views.py:67 | deleting a line removes exactly that line, keeps the others in order and keeps the constraints |
| CartRules.RemoveAtKeepsConstraints | orders/views.py:67 | deleting a line keeps unique ids and one line per (cart, product) |
| CartRules.RemoveAtMembers | orders/views.py:67 | after deleting, the remaining lines are exactly those with a different id |
| CartRules.RemoveAtIndices | orders/views.py:67 | deleting a line shortens the table by one and shifts the later lines down |
| CartRules.UpdateLinesEffect | orders/views.py:80-87 | a quantity of 0 or less deletes the line, one above the stock changes nothing, any other value is set exactly; no other line changes |
| CartRules.UpdateLinesKeepsQuantitiesPositive | orders/views.py:80-87 | update_cart_item never leaves a line below one unit, and every line it writes holds at most the stock |
| CartRules.AddThenRemoveRestores | orders/views.py:43-67 | adding a product that was not in the cart and deleting that line gives back the original table |
| CartRules.OtherLinesKeepConstraints | orders/views.py:136 | clearing one cart keeps the constraints of the table |
| CartRules.ClearingOneCart | orders/views.py:136 | clearing a cart empties it and leaves every other cart's lines as they were |
| Schema.OrderNumbersUnique | orders/models.py:34-37 | two stored orders never share a number |
| Schema.NewCartIsEmpty | orders/models.py:147-152 | a cart created under the next id has no lines |
| Schema.CartLinesDistinctProducts | orders/models.py:198 | the lines of one cart never name a product twice |
| Schema.AppendFrozenKeepsOrderItems | orders/models.py:137 | the order lines of a new order keep unique ids, one line per (order, product), the foreign keys and the subtotal rule |
| Schema.NewOrderItems | orders/views.py:128-134 | the lines of the new order are exactly its frozen cart lines |
| Schema.ItemsOfAppend | orders/models.py:110-114 | the lines of an order in two groups of rows are its lines in each group, in order |
| Schema.NoItemsOf | orders/models.py:110-114 | an order that no row names has no lines |
| Schema.AddToCartKeepsCartItems | orders/views.py:43-53 | add_to_cart's effect keeps every CartItem constraint |
| Schema.ApiAddItemKeepsCartItems | api/views.py:109-117 | add_item's effect keeps every CartItem constraint |
| Schema.UpdateKeepsCartItems | orders/views.py:80-87 | update_cart_item's effect keeps every CartItem constraint |
| Schema.RemoveKeepsCartItems | orders/views.py:67 | deleting a line keeps every CartItem constraint |
| Schema.ClearCartKeepsCartItems | orders/views.py:136 | clearing a cart keeps every CartItem constraint |
| Schema.InsertOrderKeepsOrders | orders/views.py:105-116 | inserting the numbered order under the next id keeps the Order constraints |
| Schema.InsertOrderKeepsOrderItems | orders/views.py:105-116 | inserting an order keeps the existing order lines' constraints |
| Schema.InsertReviewKeepsReviews | reviews/models.py:53 | a review for a (product, user) pair with no review keeps one review per pair and the field rules |
| Shop.CartOf | orders/views.py:96 | the user's cart when one exists, and none otherwise |
| Shop.ActiveWithSlug | orders/views.py:32 | the active product with the slug when there is one; otherwise no active product has it |
| Shop.SlugLookupUnique | products/models.py:59 | with unique slugs, the slug lookup finds exactly the product that carries it |
| Shop.ProductToAdd | orders/views.py:30-34 | with a non-empty variant_slug, the active product with that slug, found exactly when one exists; otherwise the active product with the URL id, found exactly when it exists |
| Shop.PlacedOrder | orders/views.py:102-126 | the inserted order is pending, with both amounts equal to the cart total, no discount or shipping, the posted or default payment method and the posted shipping address, city, postal code and phone; its number is `OrderNumber(id, suffix)` and reads back as its id; it is paid exactly when the card test passes, and its notes are the posted notes (or "") followed, only then, by the payment note with the card's last four characters |
| Shop.Store.GetOrCreateCart | orders/views.py:35 | the user's cart is kept, or a new empty one is created under the next id; no other table changes |
| Shop.Store.CartView | orders/views.py:15-25 | the cart is opened; the lines are the cart's lines, the total is their get_total_price and the sum of their subtotals, and the count is get_total_items |
| Shop.Store.FindProductToAdd | orders/views.py:30-34 | finds the product that ProductToAdd describes |
| Shop.Store.AddToCart | orders/views.py:28-60 | an unknown or inactive product is a 404 with no change; otherwise the cart is opened; above the stock no line changes; else the lines become AddToCartLines |
| Shop.Store.PutLine | orders/views.py:43-53 | with a stock the lines become AddToCartLines, without one ApiAddItemLines; the id counter moves only when a line is created |
| Shop.Store.RemoveFromCart | orders/views.py:63-72 | the user's own line is deleted; any other id is a 404 with no change |
| Shop.Store.UpdateCartItem | orders/views.py:75-91 | on the user's own line the lines become UpdateLines, with out of stock reported; any other id is a 404 with no change |
| Shop.Store.Checkout | orders/views.py:94-141 | no cart is a 404 and an empty cart changes nothing; a GET changes nothing; a POST inserts PlacedOrder with the cart total, appends the frozen lines as the order's lines, and empties the cart only |
| Shop.Store.InsertOrder | orders/views.py:105-116 | the numbered order is stored under the next id and no other table changes |
| Shop.Store.AddOrderLines | orders/views.py:128-134 | the order lines grow by the frozen cart lines under consecutive ids |
| Shop.Store.FreezeLines | orders/views.py:128-134 | the loop builds exactly the frozen lines |
| Shop.Store.ClearCart | orders/views.py:136 | the cart's lines are deleted and every other cart's are kept |
| Shop.Store.ApiCartList | api/views.py:82-85 | the cart is opened and the response is its lines |
| Shop.Store.ApiAddItem | api/views.py:87-121 | a missing or zero product_id is a 400 and an unknown or inactive product a 404, both with no change; otherwise the cart is opened and the lines become ApiAddItemLines |
| Shop.Store.ApiRemoveItem | api/views.py:123-144 | a missing or zero item_id is a 400; the user's own line is deleted; any other id is a 404 with no change |
| Shop.Store.CreateReview | reviews/views.py:12-50 | 404 for an unknown or inactive product; refused when the user already reviewed it; a valid POST adds NewReview, verified exactly when a paid order of the user holds the product; nothing else changes |
| Shop.Store.EditReview | reviews/views.py:53-73 | only the user's own review is found; a valid POST applies the form to it alone |
| Shop.Store.DeleteReview | reviews/views.py:76-85 | only the user's own review is found, and exactly that review is removed |
| Shop.Store.MarkHelpful | reviews/views.py:88-97 | any review can be voted on, one vote per POST with no deduplication; a GET changes nothing; an unknown id is a 404 |
| Shop.Store.IncrementViews | products/models.py:143-145 | the stored product gets one more view and nothing else changes |

## Left out

- Rendering, redirect targets, flash messages, logging and the login decorators. A view's result is its `Outcome`.
- The receivers `log_order_status_change`, `log_order_item_creation` and `log_order_deletion`, and the logging receivers of users/signals.py. They only log, so they change no state.
- `noop_reverse` of the category migration does nothing, so there is nothing to model. The SQL that reads the old join table is an input (the rows); the schema operations around it are not modelled.
- Product has a many-to-many `categories` field in products/models.py, while the migration adds a `category` foreign key. The model keeps only the foreign key that the migration fills in.
- The `AlterField` to `null=False` after the data step fails for a product named in no row. This is not modelled.
- Transactions and concurrency: `get_or_create` races, and checkout without `transaction.atomic`. Each view runs alone and to completion.
- Timestamps (`created_at`, `updated_at`, `shipped_at`, `delivered_at`), table orderings and pagination.
- `OrderListView` and `OrderDetailView`: read-only listings of the user's orders.
- `Review.average_rating`: a database average rounded as a float.
- `pay_order`, `paypal_checkout`, `mark_unhelpful` and a vote ledger: they are routed but defined in none of the views, so there is nothing to model.
- Serializers, admin modules, products/views.py, users/views.py and the URL configuration.
- Parse errors of `int(request.POST.get('quantity', 1))` and non-integer JSON quantities: quantities arrive as integers.
- Missing shipping fields at checkout become NULL and fail the insert with an IntegrityError in the source. The model takes them as strings.
- Django's form whitespace stripping and the browser's `maxlength` widget attribute. A form value is the string that reaches the clean methods.
- Uniqueness errors raised by a save that would duplicate a slug or an order number. The store starts with unique slugs and never writes one; order numbers are proved unique.
- Cascading deletes of users, carts and products, and the creation or editing of products and categories outside `increment_views`.
- Column widths and value ranges are not enforced: the order number outgrows `max_length=20` once the id reaches 10^9 (OrderNumbers.OrderNumberFitsColumn) yet Shop.Store.InsertOrder and Shop.Store.Checkout still succeed; quantities are unbounded integers although IntegerField has a database range and add_item adds to it without a bound; amounts are unbounded integer cents although the DecimalFields allow 10 or 12 digits.
- Admin changes of order status or payment; `payment_method` is stored as posted, without checking it against the four choices.
- `save_user_profile`, which re-saves an existing profile without changing it.
- Accounts.PresentParts: only the length bound is stated on the function itself. The exact parts for the address fields are stated by Accounts.PresentPartsOfThree.
- Reviews.HelpfulPercentage: computed with exact integer division, so only the bounds are claimed. The source's float division can come out one lower (29 of 100 gives 28).
- Catalog.DiscountPercentage: requires a non-zero price when there is a discount. With a stored price of 0.00 (save() does not run the validators) the source raises a Decimal division-by-zero error, which the model does not represent. The quotient is computed on exact rationals, which agrees with the source's Decimal division at these magnitudes.
- OrderNumbers.OrderNumber: `uuid.uuid4()` is a parameter. Only digests of at least six characters are claimed to round-trip, which every uuid4 hex digest is.
