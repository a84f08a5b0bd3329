# Seed generator and Power BI CSV exporter of the cosmetics store

This project models two pieces of the store's back end and proves properties about them.

**`seedDatabase` (backend/seed-data.js).** The script runs in a fixed order:

1. A reset drops the stale `profile_1` index on users and ignores any failure of that call. It then empties all eight collections.
2. Seven build phases follow: categories, products, users, profiles, reviews, orders with their items, and tasks.

Every attribute is either a template entry chosen by a modular index or a random draw from a small closed interval. Some writes update earlier documents in place:

- each review id is pushed onto its product's `reviews`;
- each profile id is stored in its user's `profile`;
- each order id is pushed onto its user's `orders`;
- each order gets its `items` and its `totalPrice`, the running sum of price × quantity over its items.

The first store call that throws ends the run through the script's single `catch`, which only logs. Nothing written before it is undone: the phases before it stay complete, the failing phase keeps the writes it made before the failure, and no later phase begins.

**The Power BI exporter (backend/scripts/exportDataForPowerBI.js).**

- `objectToCSVLine` renders each value as one field:
  - `null` or `undefined` becomes an empty field;
  - a date or an ObjectId is emitted verbatim;
  - anything else has its quotes doubled, and is wrapped in quotes when it contains a comma, a newline or a quote.
- `exportToCSV` writes a header line, then one line per document, and counts the rows. It fills each row field by field and resolves a dotted field such as `address.city` by successive key lookup.

Modules:

- `Wrappers`, `Text` (text.dfy): `Option` and JavaScript's `split`/`join` for a one-character separator, with their round trips.
- `Csv` (csv.dfy): the field and line rendering of `objectToCSVLine`. Its inverse is a reader for the record format of section 2 of RFC 4180 (rules 4 to 7). The round-trip lemmas prove that every rendered line reads back as the original texts.
- `Export` (export.dfy): the dotted-path projection, the row-building loop and `exportToCSV` as methods proved against their specification functions.
- `Entities` (entities.dfy): the documents, the template tables (prices in integer cents, ratings in tenths), and the whole database as one value.
  - Identifiers come from a single counter.
  - `Consistent` states that every collection's ids strictly increase and stay below the counter.
- `Storage` (store.dfy): class `Store`, the in-memory stand-in for MongoDB.
  - Its fields are the database value, an operation counter and a fault set chosen by the environment. Operation `n` fails exactly when `n` is in the fault set.
  - A failed operation changes nothing.
  - An `insertMany` is a single operation.
- `SeedSpec` (seed_spec.dfy): what each phase establishes, stated on the database value. Each entity is a function of its index, the templates and the draws. Each back-reference list is the ids of the children that name the parent, in creation order.
- `Seed` (seed.dfy): the phases as methods over a `Store`, with loops where the script has loops. Each phase either completes or stops at its first failing operation. `SeedDatabase` runs the reset, then the seven phases in order.
- `SeedProps` (seed_props.dfy): what holds of a complete seeded database.
  - Every back-reference list holds exactly the children naming the parent, in creation order, without repeats.
  - Users and profiles are one-to-one.
  - Every reference resolves.
  - Every order total equals the sum that the product templates and the drawn quantities determine.
  - Every drawn or derived field lies in its interval.

Random draws (`Math.random()`) and clock readings (`new Date()`) are a `Draws` parameter. Its precondition `DrawsInRange` bounds each draw to the interval the script draws it from. The number of items of order `i` is the length of its drawn quantity list.

Details of the code that the model keeps:

- The exporter quotes a field only when it contains `,`, `\n` or `"`. A bare `\r` leaves a field unquoted.
- Order statuses, payment methods, genders and skin types are chosen by the index (`i mod n`). Only loyalty points, ratings, item counts, quantities and task completion are drawn at random.
- Each order is created before its items, with an empty item list and a zero total, and is saved again once the items exist.
- A profile's `lastName` is the second `_`-separated piece of the username, and is undefined when there is none.

## Model

| member | source | states |
|---|---|---|
| Text.JoinSplit | backend/seed-data.js:115-116 | joining the pieces of `split(sep)` gives back the original string |
| Text.SplitPiecesFree | backend/seed-data.js:115-116 | no piece of `split(sep)` contains the separator |
| Text.SplitJoin | backend/scripts/exportDataForPowerBI.js:84 | splitting the join of separator-free pieces gives back exactly those pieces |
| Text.SplitFree | backend/scripts/exportDataForPowerBI.js:93-94 | a string without the separator splits into itself alone |
| Text.Split | backend/seed-data.js:115-116 | JavaScript's `split` on one character: the pieces between separators, never none (their properties are the lemmas above) |
| Text.Join | backend/scripts/exportDataForPowerBI.js:84 | JavaScript's `join` on one character: the pieces with the separator between each two |
| Csv.EscapeMembers | backend/scripts/exportDataForPowerBI.js:55 | doubling quotes adds or removes no character kind: a character occurs in the escaped text iff it occurs in the original |
| Csv.EscapeLength | backend/scripts/exportDataForPowerBI.js:55 | the escaped text is longer than the original by exactly the number of quotes |
| Csv.EscapeQuoteFree | backend/scripts/exportDataForPowerBI.js:55 | a quote-free string is unchanged by escaping |
| Csv.Escape | backend/scripts/exportDataForPowerBI.js:55 | `replace(/"/g, '""')`: every quote doubled, everything else kept |
| Csv.StringField | backend/scripts/exportDataForPowerBI.js:55-62 | a non-null, non-date, non-id value: escaped, and wrapped in quotes when the escape contains a comma, a newline or a quote |
| Csv.NumText | backend/scripts/exportDataForPowerBI.js:55 | `String(n)` of an integer: its decimal digits, with a leading `-` when negative |
| Csv.Render | backend/scripts/exportDataForPowerBI.js:39-62 | one field: empty for null/undefined, the ISO text of a date, the hex text of an id, the string field of anything else |
| Csv.CsvLine | backend/scripts/exportDataForPowerBI.js:35-64 | `objectToCSVLine`: the rendered value of each header, in header order, joined by commas |
| Csv.StringFieldShape | backend/scripts/exportDataForPowerBI.js:55-62 | a string field is wrapped in quotes around its escape iff the original contains a comma, a newline or a quote; otherwise it is emitted unchanged |
| Csv.NumberFieldVerbatim | backend/scripts/exportDataForPowerBI.js:55-62 | an integer is emitted as its plain decimal text and never quoted |
| Csv.ReadRendered | backend/scripts/exportDataForPowerBI.js:39-62 | every rendered field, followed by a comma or the end of the line, reads back as the value's text; null/undefined reads back as the empty field |
| Csv.StringRoundTrip | backend/scripts/exportDataForPowerBI.js:55-60 | removing the surrounding quotes and undoubling `""` recovers the original string (RFC 4180, section 2, rules 6-7) |
| Csv.RecordRoundTrip | backend/scripts/exportDataForPowerBI.js:36-63 | the comma-join of rendered fields reads back as one field per value, in order |
| Csv.CsvLineRoundTrip | backend/scripts/exportDataForPowerBI.js:35-64 | `objectToCSVLine` reads back as one field per header in header order; a header absent from the row reads back empty |
| Export.BuildRow | backend/scripts/exportDataForPowerBI.js:90-99 | the loop fills the row with exactly the requested fields, each holding its projected value |
| Export.ExportToCsv | backend/scripts/exportDataForPowerBI.js:67-111 | an empty collection writes nothing; otherwise the writes are the header line followed by one line per document, in order, and the count equals the number of documents |
| Export.RowLines | backend/scripts/exportDataForPowerBI.js:88-103 | one row line per document |
| Export.RowLinesPush | backend/scripts/exportDataForPowerBI.js:101 | one more document appends exactly its line to the row lines |
| Export.ResolveAppend | backend/scripts/exportDataForPowerBI.js:95 | resolving a path in two parts equals resolving the second part from where the first ends (the fold of `reduce`) |
| Export.ResolveUndefined | backend/scripts/exportDataForPowerBI.js:95 | once a step is undefined, every further step is undefined |
| Export.MissingIntermediate | backend/scripts/exportDataForPowerBI.js:93-98 | a dotted field missing at any intermediate step projects to null and renders as the empty field |
| Export.ProjectResolves | backend/scripts/exportDataForPowerBI.js:93-98 | the direct lookup of an undotted field equals resolving its one-piece path, so every column is its dot-separated path resolved |
| Export.Step | backend/scripts/exportDataForPowerBI.js:95 | `obj?.[key]`: the member of an object, undefined for anything else |
| Export.Resolve | backend/scripts/exportDataForPowerBI.js:95 | the `reduce` over the path pieces, starting at the document |
| Export.AsValue | backend/scripts/exportDataForPowerBI.js:95-97 | what a row field receives: null when undefined, `[object Object]` for a nested object |
| Export.Project | backend/scripts/exportDataForPowerBI.js:93-98 | the column value: a dotted field resolved piece by piece, any other looked up directly |
| Export.Row | backend/scripts/exportDataForPowerBI.js:90-99 | the row object: exactly the requested fields, each with its projected value |
| Export.Header | backend/scripts/exportDataForPowerBI.js:84 | the header line: the field names joined by commas, unescaped |
| Export.RowLine | backend/scripts/exportDataForPowerBI.js:101 | the line written for one document: `objectToCSVLine` of its row |
| Export.RowLineRoundTrip | backend/scripts/exportDataForPowerBI.js:101 | each written row reads back, in header order, as the texts of its projected values |
| Export.HeaderRoundTrip | backend/scripts/exportDataForPowerBI.js:84 | the header line splits back into the field names when none contains a comma |
| Storage.NumberCategories | backend/seed-data.js:87 | `insertMany` numbers the documents with consecutive fresh ids from the counter |
| Storage.NumberProducts | backend/seed-data.js:96 | the same for products |
| Storage.HashPassword | backend/seed-data.js:103-104 | a saved user's credential is always hashed, never clear text |
| Storage.Truncated | backend/seed-data.js:76-83 | `deleteMany({})` on one collection: that collection emptied, all else kept |
| Storage.Store.DropUserIndex | backend/seed-data.js:70 | the drop succeeds iff the operation does not fail and the index exists; on success only that index is gone, otherwise nothing changes |
| Storage.Store.DeleteAll | backend/seed-data.js:76-83 | `deleteMany({})` empties exactly one collection, or changes nothing when it fails |
| Storage.Store.InsertCategories | backend/seed-data.js:87 | appends the numbered documents and advances the counter past them, or changes nothing |
| Storage.Store.InsertProducts | backend/seed-data.js:96 | the same for products |
| Storage.Store.InsertUser | backend/seed-data.js:103-105 | appends the user with a fresh id and a hashed password, or changes nothing |
| Storage.Store.SaveUser | backend/seed-data.js:129-130 | replaces user `k` by the saved document, or changes nothing |
| Storage.Store.InsertProfile | backend/seed-data.js:113-125 | appends the profile with a fresh id, or changes nothing |
| Storage.Store.InsertReview | backend/seed-data.js:149-154 | appends the review with a fresh id, or changes nothing |
| Storage.Store.SaveProduct | backend/seed-data.js:158-159 | replaces product `k` by the saved document, or changes nothing |
| Storage.Store.InsertOrder | backend/seed-data.js:174-183 | appends the order with a fresh id, or changes nothing |
| Storage.Store.SaveOrder | backend/seed-data.js:205-207 | replaces order `k` by the saved document, or changes nothing |
| Storage.Store.InsertOrderItem | backend/seed-data.js:192-197 | appends the item with a fresh id, or changes nothing |
| Storage.Store.InsertTask | backend/seed-data.js:231-243 | appends the task with a fresh id, or changes nothing |
| Seed.Truncate | backend/seed-data.js:76-83 | one truncation, with the run's failure bookkeeping |
| Seed.Cleared | backend/seed-data.js:76-83 | the store after the first `n` truncations of the reset, in the script's order; the index names and the id counter are kept |
| Seed.ClearAccounts | backend/seed-data.js:76-79 | on success categories, products, users and profiles are empty and nothing else changed; on a failure only the truncations before it have happened |
| Seed.ClearActivity | backend/seed-data.js:80-83 | on success orders, items, reviews and tasks are empty and nothing else changed; on a failure only the truncations before it have happened |
| Seed.ResetPhase | backend/seed-data.js:69-83 | a failure of the index drop is ignored; the reset succeeds iff no truncation fails, and then all eight collections are empty; a failing reset has truncated exactly the collections before the failing one, in the script's order |
| Seed.BuildCategories | backend/seed-data.js:86-88 | on success category `i` is template `i`; only categories and the counter change |
| Seed.BuildProducts | backend/seed-data.js:91-97 | on success product `i` is template `i` with exactly one category, `categories[i mod 6]`, and no reviews |
| Seed.BuildUsers | backend/seed-data.js:100-106 | on success user `i` is template `i` with a hashed password, no profile and no orders; on a failure the users saved before it are kept, the first ones in template order |
| Seed.AddProfile | backend/seed-data.js:113-130 | profile `i` is created for user `i` with its index-determined fields, and user `i`'s profile link is set to it; on a failure of the link's save the profile stays stored |
| Seed.BuildProfiles | backend/seed-data.js:110-132 | on success profiles and users are linked one-to-one by index; users change only in their profile link; on a failure the profiles made so far are kept, all linked except perhaps the last |
| Seed.AddReview | backend/seed-data.js:149-159 | review `i` is by user `i mod 8` on product `i mod 15` with the drawn rating and comment `i mod 8`, and its id is appended to that product's `reviews`; on a failure of the product's save the review stays stored |
| Seed.BuildReviews | backend/seed-data.js:135-161 | on success the 20 reviews are as drawn and every product's `reviews` is the ids of the reviews naming it; products change only in that list; on a failure the reviews made so far are kept, all listed except perhaps the last |
| Seed.AddItems | backend/seed-data.js:186-202 | item `j` of order `i` is for product `(i + j) mod 15` in the drawn quantity at that product's price; the returned ids and total are those of the created items, which stay stored when a later item fails |
| Seed.AddOrder | backend/seed-data.js:169-213 | the order is created empty with its index-determined header, gets its items, is saved with their ids and total, and its id is appended to user `i mod 8`'s `orders`; on a failure the order and the items created before it stay stored |
| Seed.BuildOrders | backend/seed-data.js:164-215 | on success the 15 orders with their items and totals are as drawn, every item belongs to a stored order, and every user's `orders` is the ids of the orders naming it; on a failure the finished orders are kept and the last one is left as far as its round got |
| Seed.AddUserTasks | backend/seed-data.js:229-245 | user `i` gets the five template tasks: discount a tenth of the points, completed and dated exactly when the draw says so; on a failure the tasks created before it stay stored |
| Seed.BuildTasks | backend/seed-data.js:227-247 | on success task `t` is template `t mod 5` for user `t div 5`; on a failure the tasks made so far are kept, in that order |
| Seed.RunSetupPhase | backend/seed-data.js:85-107 | a catalogue or account phase either completes or stops at its first failing operation, earlier phases intact, the failing phase's own writes kept, and later phases not begun |
| Seed.RunActivityPhase | backend/seed-data.js:109-247 | the same for the profile, review, order and task phases |
| Seed.RunPhases | backend/seed-data.js:85-247 | the phases run in dependency order; either all complete, or the run stops in the first phase with a failing operation, keeping that phase's writes before the failure |
| Seed.SeedDatabase | backend/seed-data.js:64-266 | a finished run had no failure after the index drop and leaves a consistent, fully seeded database whose reported counts (the summary at lines 249-258) are 6 categories, 15 products, 8 users, 8 profiles, 20 reviews, 15 orders, the drawn number of items and 40 tasks; an aborted run stopped at its first failing operation and undid nothing: the phases before it are complete, the failing phase keeps its writes before the failure, later phases are not begun, and a failing reset has truncated a prefix of the collections |
| SeedSpec.UserPush | backend/seed-data.js:102-105 | each saved user extends the users built so far by one |
| SeedSpec.ProfileFor | backend/seed-data.js:113-125 | profile `i` of user `u`: names from the username pieces, birth date, gender by parity, drawn loyalty points, skin type `i mod 4`, concern `i mod 3`, favourite category `i mod 6` |
| SeedSpec.ReviewFor | backend/seed-data.js:149-154 | review `i`: its user, its product, the drawn rating and comment `i mod 8` |
| SeedSpec.OrderHeader | backend/seed-data.js:174-183 | order `i` placed by user `u`: status `i mod 4`, the user's address, payment method `i mod 3`, paid iff `i mod 3 != 0`, its date |
| SeedSpec.ItemsFor | backend/seed-data.js:187-197 | the items of order `i`: item `j` for product `(i + j) mod 15`, in the drawn quantity, at that product's price |
| SeedSpec.TaskFor | backend/seed-data.js:231-243 | a task from its template for its user: the points, a tenth of them as discount, completed and dated exactly when drawn so |
| SeedSpec.ReviewsOf | backend/seed-data.js:158 | the reviews naming a product, in creation order: what its `reviews` list must hold |
| SeedSpec.OrdersOf | backend/seed-data.js:212 | the orders naming a user, in creation order: what its `orders` list must hold |
| SeedSpec.ItemsOf | backend/seed-data.js:200 | the items naming an order, in creation order: what its `items` list must hold |
| SeedSpec.Total | backend/seed-data.js:201 | the sum of price × quantity over some items |
| SeedSpec.ProfilesRelinked | backend/seed-data.js:128-130 | setting the users' profile links keeps each profile's description of its user |
| SeedSpec.ReviewLinked | backend/seed-data.js:157-159 | pushing the new review's id onto its product keeps every product's list equal to the reviews naming it |
| SeedSpec.ReviewRound | backend/seed-data.js:148-160 | one review round extends the reviews built so far |
| SeedSpec.ReviewsFinished | backend/seed-data.js:148-160 | after twenty rounds the reviews are seeded |
| SeedSpec.ItemsForPush | backend/seed-data.js:187-199 | each created item extends the items of order `i` by one |
| SeedSpec.ItemPush | backend/seed-data.js:199-201 | each created item extends the item ids and the running total by that item |
| SeedSpec.TotalAppend | backend/seed-data.js:201 | `totalPrice += price * quantity` adds the item's line value to the total |
| SeedSpec.ItemCountAppend | backend/seed-data.js:170 | one more order adds its drawn item count to the number of items |
| SeedSpec.ItemsOfAppend | backend/seed-data.js:192-200 | a new item joins exactly the item list of the order it names |
| SeedSpec.ReviewsOfAppend | backend/seed-data.js:158 | a new review joins exactly the review list of the product it names |
| SeedSpec.OrdersOfAppend | backend/seed-data.js:212 | a new order joins exactly the order list of the user it names |
| SeedSpec.NewOrderFor | backend/seed-data.js:174-207 | the new order, whose id no earlier item names, owns exactly the added items, with their ids and total |
| SeedSpec.EarlierOrderKept | backend/seed-data.js:168-214 | earlier orders keep their items, ids and totals when a later order gets its items |
| SeedSpec.ItemsStillOwned | backend/seed-data.js:192-193 | every item still belongs to a stored order |
| SeedSpec.OrderStep | backend/seed-data.js:168-209 | one order round keeps all earlier orders and adds order `i` as drawn |
| SeedSpec.OrderLinked | backend/seed-data.js:212-213 | pushing the new order's id onto its user keeps every user's list equal to the orders naming it |
| SeedSpec.OrderRound | backend/seed-data.js:168-214 | one order round extends the orders built so far |
| SeedSpec.TaskRound | backend/seed-data.js:228-246 | one user's tasks, all five or the first of them, extend the tasks built so far |
| SeedSpec.ResetLeaves | backend/seed-data.js:76-83 | after the reset no phase has left a trace |
| SeedSpec.CategoriesPhase | backend/seed-data.js:86-88 | the category phase touches nothing else, and completed it reaches the next phase |
| SeedSpec.ProductsPhase | backend/seed-data.js:91-97 | the same for products |
| SeedSpec.UsersPhase | backend/seed-data.js:100-106 | the same for users |
| SeedSpec.ProfilesPhase | backend/seed-data.js:110-132 | the same for profiles, which change users only in their profile link |
| SeedSpec.ReviewsPhase | backend/seed-data.js:135-161 | the same for reviews, which change products only in their review lists |
| SeedSpec.OrdersPhase | backend/seed-data.js:164-215 | the same for orders, which change users only in their order lists |
| SeedSpec.TasksPhase | backend/seed-data.js:218-247 | the task phase touches nothing else, and completed it leaves the database fully seeded |
| SeedSpec.ProfilesStopped | backend/seed-data.js:112-131 | the profiles of a failed profile phase: those of the first users, each linked except perhaps the last, later users unlinked |
| SeedSpec.ReviewsStopped | backend/seed-data.js:148-160 | the reviews of a failed review phase: the first drawn ones, every product listing the reviews naming it except perhaps the last review |
| SeedSpec.OrderInProgress | backend/seed-data.js:174-207 | an order as far as its round got: its header, its first drawn items, and its list and total either not saved yet or saved |
| SeedSpec.OrdersStopped | backend/seed-data.js:168-214 | the orders of a failed order phase: all complete but the last, which is in progress; every item owned; every user listing its orders except perhaps the last order |
| SeedSpec.Stopped | backend/seed-data.js:85-261 | what a failed phase leaves: a failed `insertMany` nothing, any other phase its finished rounds and the first writes of the failing round |
| SeedSpec.ProfilesHalted | backend/seed-data.js:112-131 | a profile phase failing in round `i` leaves the state `ProfilesStopped` describes |
| SeedSpec.ReviewsHalted | backend/seed-data.js:148-160 | a review phase failing in round `i` leaves the state `ReviewsStopped` describes |
| SeedSpec.CompleteInProgress | backend/seed-data.js:174-207 | a complete order is an order in progress that got all its items |
| SeedSpec.OrdersHaltedBefore | backend/seed-data.js:174 | an order phase failing when order `i` is created leaves the finished orders, the last of them complete |
| SeedSpec.OrdersHaltedAfter | backend/seed-data.js:186-213 | an order phase failing later in round `i` leaves the finished orders and order `i` in progress, not yet listed with its user |
| SeedProps.ReviewsOfMember | backend/seed-data.js:150-158 | a review is in a product's list iff it is stored and names that product |
| SeedProps.OrdersOfMember | backend/seed-data.js:175-212 | an order is in a user's list iff it is stored and names that user |
| SeedProps.ItemsOfMember | backend/seed-data.js:193-200 | an item is in an order's list iff it is stored and names that order |
| SeedProps.ReviewsOfAscending | backend/seed-data.js:158 | a product's review ids keep creation order, without repeats |
| SeedProps.OrdersOfAscending | backend/seed-data.js:212 | a user's order ids keep creation order, without repeats |
| SeedProps.ItemsOfAscending | backend/seed-data.js:200 | an order's item ids keep creation order, without repeats |
| SeedProps.ReviewListed | backend/seed-data.js:150-158 | a review's id is in a product's list iff the review names that product |
| SeedProps.OrderListed | backend/seed-data.js:175-212 | an order's id is in a user's list iff the order names that user |
| SeedProps.ItemListed | backend/seed-data.js:193-200 | an item's id is in an order's list iff the item names that order |
| SeedProps.ReviewListSound | backend/seed-data.js:158 | every id in a product's list is a stored review naming it |
| SeedProps.OrderListSound | backend/seed-data.js:212 | every id in a user's list is a stored order naming it |
| SeedProps.ItemListSound | backend/seed-data.js:200 | every id in an order's list is a stored item naming it |
| SeedProps.ProductReviewLists | backend/seed-data.js:148-160 | each product's `reviews` holds a stored review's id iff that review names the product, holds nothing else, and is strictly increasing (creation order, no duplicates) |
| SeedProps.UserOrderLists | backend/seed-data.js:168-213 | the same for each user's `orders` |
| SeedProps.OrdersSeededListed | backend/seed-data.js:199-205 | each seeded order's `items` is the ids of the items naming it |
| SeedProps.SeededLinks | backend/seed-data.js:148-213 | a seeded database meets the premises of the three back-reference lemmas |
| SeedProps.ActivityIdsAscending | backend/seed-data.js:149-197 | in a consistent store review, order and item ids strictly increase |
| SeedProps.OrderItemLists | backend/seed-data.js:186-207 | the same as `ProductReviewLists` for each order's `items` |
| SeedProps.ProfilesOneToOne | backend/seed-data.js:112-131 | profile `i` names user `j` iff `i == j`, and user `j` links profile `i` iff `i == j` |
| SeedProps.ItemsTotal | backend/seed-data.js:187-206 | an order's total is the sum, over its items, of the template price of product `(i + j) mod 15` times the drawn quantity |
| SeedProps.TemplatePrice | backend/seed-data.js:35-51 | every template price lies between 7.99 and 89.99 |
| SeedProps.LineValueRange | backend/seed-data.js:189-201 | one line of 1 to 3 units costs between the cheapest price and three times the dearest |
| SeedProps.OrderValueRange | backend/seed-data.js:187-202 | an order of quantities in [1,3] costs between 7.99 and 269.97 per item |
| SeedProps.ItemCountRange | backend/seed-data.js:170 | 1 to 4 items per order give between 1 and 4 items per order in all |
| SeedProps.OrderTotals | backend/seed-data.js:168-207 | each seeded order has 1 to 4 items and a total equal to its template value, at least 7.99; between 15 and 60 items are stored |
| SeedProps.ItemOrigin | backend/seed-data.js:186-199 | each stored item is item `j` of some order `i`: product `(i + j) mod 15` at that product's price, quantity in [1,3] |
| SeedProps.CatalogResolved | backend/seed-data.js:92-95 | every product's one category, every product's reviews, and every review's user and product resolve |
| SeedProps.ProductReviewsResolve | backend/seed-data.js:158 | every id in a product's `reviews` is a stored review |
| SeedProps.AccountsResolved | backend/seed-data.js:113-130 | every user's profile and orders, and every profile's user and favourite category, resolve |
| SeedProps.OrdersResolved | backend/seed-data.js:174-206 | every order's user and items, and every item's order and product, resolve |
| SeedProps.OrderItemsResolve | backend/seed-data.js:200-205 | every id in an order's `items` is a stored item |
| SeedProps.ItemProductsResolve | backend/seed-data.js:188-194 | every item's product is a stored product |
| SeedProps.TasksResolved | backend/seed-data.js:231-232 | every task's user resolves |
| SeedProps.SeededResolves | backend/seed-data.js:64-247 | every reference in a seeded database resolves |
| SeedProps.ProfileFields | backend/seed-data.js:117-119 | loyalty points in [0,499]; born on day 1 to 28 of month `i mod 12` of `1990 + i`; female iff `i` is even |
| SeedProps.EveryProductReviewed | backend/seed-data.js:148-158 | every rating is in [3,5], review `t` is listed under product `t mod 15`, and every product has at least one review |
| SeedProps.OrderFields | backend/seed-data.js:174-182 | order `i` is placed by user `i mod 8` and shipped to that user's address; it is paid iff `i mod 3 != 0`; it is dated day 1 to 28 of month `i mod 12` of 2024 |
| SeedProps.TaskFields | backend/seed-data.js:228-242 | tasks `5u` to `5u + 4`, and no others, belong to user `u`; a task has a completion date iff it is completed; its discount is a tenth of its points |

## Left out

- MongoDB itself is not modelled: the connection, `mongoose.connection.close()` in the `finally`, and the script's top-level call. The store class stands in for the database.
- Console logging is not modelled. The end-of-run summary is returned as a value whose counts are the sizes of the stored collections.
- Failures are whole operations. A failing `insertMany` stores nothing, whereas MongoDB may store a prefix of the batch. A failed call changes nothing.
- Password hashing is a foreign call in the user model's save hook. The model records only that the stored credential is marked hashed; no digest is computed.
- `Math.random()` and `new Date()` are inputs. They are bounded by `DrawsInRange`, and dates are (year, month, day) triples.
- Floating-point prices and ratings are integer cents and tenths, so every total is exact.
- The exporter writes through a stream. The model returns the sequence of writes instead.
- The exporter's `catch` is left out: the modelled code has no failing step.
- `process.exit`, the export directory check and `exportAllData` with its per-collection field lists are left out.
- `mongoose.Types.ObjectId.isValid` and `Date.prototype.toISOString` are not modelled. The caller classifies a value as `Id` or `Date` and supplies its text.
- Non-integer numbers, booleans and arrays reach the exporter only as a `Str` holding their `String(...)` form.
- Csv.NumText writes every digit of an integer. JavaScript's `String(n)` switches to exponent form (`1e+21`) from 10^21 in magnitude. Every number the seed writes is below 10^5.
- Export.Step reads members of objects only. JavaScript's `obj?.[key]` also reads `length` and index keys of strings and arrays: `name.length` gives a string's length, and `categories.0` gives an array's first element. In the model both give the empty field. None of the field lists passed by `exportAllData` has a dotted path.
- Storage.Store.DropUserIndex records which index names remain, but no insert reads them. A leftover unique `profile_1` index, which would make user inserts fail, has no effect of its own. Such a failure is covered only as an operation in the fault set.
- Csv.ReadRendered, Csv.RecordRoundTrip and Csv.CsvLineRoundTrip are stated only for dates and ids whose text has no comma and no quote. Such values are emitted without escaping, so other texts would not read back.
- Csv.RecordRoundTrip, Csv.CsvLineRoundTrip and Export.RowLineRoundTrip are stated for at least one header. With none the line is empty, and it reads back as one empty field.
- Enumerated string fields (gender, skin type, concerns, order status, payment method, task category, type and status) are datatypes. `Name()` gives the string the script stores.
- Seed.RunPhases runs the seven phases as a loop over the phase list, where the script runs them as straight-line code. The order and the stop-at-first-failure behaviour are the same.
