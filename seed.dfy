/** `seedDatabase`: reset the store, then build categories, products, users,
    profiles, reviews, orders with their items, and tasks, in that order.
    The first failing store operation ends the run (the script's single
    `catch`); what was written before it stays. Only a failure of the
    `dropIndex('profile_1')` call is ignored. */
module Seed {
  import opened Wrappers
  import opened Entities
  import opened Storage
  import opened SeedSpec
  import Text

  /** The collections in the order the reset truncates them. */
  const ResetOrder: seq<Collection> :=
    [CategoryDocs, ProductDocs, UserDocs, ProfileDocs, OrderDocs, OrderItemDocs, ReviewDocs, TaskDocs]

  /** The store after the first `n` truncations of the reset: the index
      names and the id counter are left alone. */
  function Cleared(d: Db, n: nat): (r: Db)
    requires n <= |ResetOrder|
    ensures r.userIndexes == d.userIndexes && r.nextId == d.nextId
  {
    if n == 0 then d else Truncated(Cleared(d, n - 1), ResetOrder[n - 1])
  }

  /** One `deleteMany({})` of the reset, as a step of a run that has had no
      failure since operation `start`. */
  method Truncate(s: Store, c: Collection, ghost start: nat) returns (ok: bool)
    requires s.Valid() && start <= s.ops && s.ClearSince(start)
    modifies s
    ensures s.Valid() && start <= s.ops
    ensures s.db == if ok then Truncated(old(s.db), c) else old(s.db)
    ensures ok ==> s.ClearSince(start)
    ensures !ok ==> s.FailedFirst(start)
  {
    ok := s.DeleteAll(c);
  }

  /** The first four truncations of the reset: the catalogue and the
      accounts. */
  method ClearAccounts(s: Store, ghost start: nat) returns (ok: bool)
    requires s.Valid() && start <= s.ops && s.ClearSince(start)
    modifies s
    ensures s.Valid() && start <= s.ops
    ensures s.db.nextId == old(s.db.nextId) && s.db.userIndexes == old(s.db.userIndexes)
    ensures ok ==> s.ClearSince(start) &&
                   s.db == old(s.db).(categories := [], products := [], users := [], profiles := []) &&
                   s.db == Cleared(old(s.db), 4)
    ensures !ok ==> s.FailedFirst(start) && exists n :: 0 <= n < 4 && s.db == Cleared(old(s.db), n)
  {
    ok := Truncate(s, CategoryDocs, start);
    if !ok { assert s.db == Cleared(old(s.db), 0); return; }
    assert s.db == Cleared(old(s.db), 1);
    ok := Truncate(s, ProductDocs, start);
    if !ok { return; }
    assert s.db == Cleared(old(s.db), 2);
    ok := Truncate(s, UserDocs, start);
    if !ok { return; }
    assert s.db == Cleared(old(s.db), 3);
    ok := Truncate(s, ProfileDocs, start);
  }

  /** The last four truncations of the reset: orders, their items, reviews
      and tasks. */
  method ClearActivity(s: Store, ghost start: nat, ghost base: Db) returns (ok: bool)
    requires s.Valid() && start <= s.ops && s.ClearSince(start)
    requires s.db == Cleared(base, 4)
    modifies s
    ensures s.Valid() && start <= s.ops
    ensures s.db.nextId == old(s.db.nextId) && s.db.userIndexes == old(s.db.userIndexes)
    ensures ok ==> s.ClearSince(start) &&
                   s.db == old(s.db).(orders := [], orderItems := [], reviews := [], tasks := [])
    ensures !ok ==> s.FailedFirst(start) && exists n :: 4 <= n < 8 && s.db == Cleared(base, n)
  {
    ok := Truncate(s, OrderDocs, start);
    if !ok { return; }
    assert s.db == Cleared(base, 5);
    ok := Truncate(s, OrderItemDocs, start);
    if !ok { return; }
    assert s.db == Cleared(base, 6);
    ok := Truncate(s, ReviewDocs, start);
    if !ok { return; }
    assert s.db == Cleared(base, 7);
    ok := Truncate(s, TaskDocs, start);
  }

  /** The reset phase: drop the stale `profile_1` index, ignoring any
      failure of that call, then truncate all eight collections. */
  method ResetPhase(s: Store) returns (ok: bool)
    requires s.Valid()
    modifies s
    ensures s.Valid() && old(s.ops) < s.ops
    ensures s.db.nextId == old(s.db.nextId)
    ensures s.db.userIndexes ==
      if old(s.ops) in s.faults then old(s.db.userIndexes) else old(s.db.userIndexes) - {"profile_1"}
    ensures ok ==> s.ClearSince(old(s.ops) + 1) && Emptied(s.db)
    ensures !ok ==> s.FailedFirst(old(s.ops) + 1) &&
                    exists n :: 0 <= n < 8 && s.db == Cleared(old(s.db).(userIndexes := s.db.userIndexes), n)
  {
    var dropped := s.DropUserIndex("profile_1");
    ghost var base := s.db;
    ok := ClearAccounts(s, s.ops);
    if !ok { return; }
    ok := ClearActivity(s, old(s.ops) + 1, base);
  }

  /** Phase 1: `Category.insertMany(categoriesData)`. */
  method BuildCategories(s: Store) returns (ok: bool)
    requires s.Valid() && s.db.categories == []
    modifies s
    ensures s.Valid() && old(s.ops) <= s.ops
    ensures s.db == old(s.db).(categories := s.db.categories, nextId := s.db.nextId)
    ensures ok ==> s.ClearSince(old(s.ops)) && CategoriesSeeded(s.db)
    ensures !ok ==> s.FailedFirst(old(s.ops)) && s.db == old(s.db)
  {
    var docs := seq(|CategoryTemplates|, k requires 0 <= k < |CategoryTemplates| =>
      Category(0, CategoryTemplates[k].name, CategoryTemplates[k].description));
    var saved;
    ok, saved := s.InsertCategories(docs);
  }

  /** Phase 2: each product template, with category `i mod 6`, inserted in
      one `insertMany`. */
  method BuildProducts(s: Store) returns (ok: bool)
    requires s.Valid() && CategoriesSeeded(s.db) && s.db.products == []
    modifies s
    ensures s.Valid() && old(s.ops) <= s.ops
    ensures s.db == old(s.db).(products := s.db.products, nextId := s.db.nextId)
    ensures forall k :: 0 <= k < |s.db.products| ==> s.db.products[k].reviews == []
    ensures ok ==> s.ClearSince(old(s.ops)) && ProductsSeeded(s.db)
    ensures !ok ==> s.FailedFirst(old(s.ops)) && s.db == old(s.db)
  {
    var categories := s.db.categories;
    var docs := seq(|ProductTemplates|, k requires 0 <= k < |ProductTemplates| =>
      var t := ProductTemplates[k];
      Product(0, t.name, t.description, t.price, t.stock, t.brand, t.rating,
              [categories[k % |categories|].id], []));
    var saved;
    ok, saved := s.InsertProducts(docs);
  }

  /** Phase 3: one `new User(userData).save()` per user template. */
  method BuildUsers(s: Store) returns (ok: bool)
    requires s.Valid() && s.db.users == []
    modifies s
    ensures s.Valid() && old(s.ops) <= s.ops
    ensures s.db == old(s.db).(users := s.db.users, nextId := s.db.nextId)
    ensures forall k :: 0 <= k < |s.db.users| ==> s.db.users[k].profile == None && s.db.users[k].orders == []
    ensures ok ==> s.ClearSince(old(s.ops)) && UsersSeeded(s.db)
    ensures !ok ==> s.FailedFirst(old(s.ops)) && |s.db.users| < 8 && UsersBuilt(s.db.users, |s.db.users|)
  {
    var i := 0;
    while i < |UserTemplates|
      invariant 0 <= i <= |UserTemplates|
      invariant s.Valid() && old(s.ops) <= s.ops && s.ClearSince(old(s.ops))
      invariant s.db == old(s.db).(users := s.db.users, nextId := s.db.nextId)
      invariant UsersBuilt(s.db.users, i)
    {
      var t := UserTemplates[i];
      ghost var before := s.db.users;
      var saved;
      ok, saved := s.InsertUser(User(0, t.username, t.email, Clear(t.password), t.phone, t.address, None, []));
      if !ok { return; }
      UserPush(before, saved, i);
      i := i + 1;
    }
    ok := true;
  }

  /** One round of phase 4: `Profile.create` for user `i`, then the user
      is linked to the new profile and saved. */
  method AddProfile(s: Store, dr: Draws, i: nat, ghost start: nat) returns (ok: bool, profile: Profile)
    requires s.Valid() && DrawsInRange(dr) && start <= s.ops && s.ClearSince(start)
    requires i < 8 && |s.db.categories| == 6 && |s.db.users| == 8 && |s.db.profiles| == i
    modifies s
    ensures s.Valid() && start <= s.ops
    ensures s.db == old(s.db).(users := s.db.users, profiles := s.db.profiles, nextId := s.db.nextId)
    ensures ok ==> s.ClearSince(start) &&
                   s.db.profiles == old(s.db.profiles) + [profile] &&
                   s.db.users == old(s.db.users)[i := old(s.db.users[i]).(profile := Some(profile.id))] &&
                   ProfileFor(profile, i, old(s.db.users[i]), s.db.categories[i % 6].id, dr.loyalty[i])
    ensures !ok ==> s.FailedFirst(start) && s.db.users == old(s.db.users) &&
                    (s.db.profiles == old(s.db.profiles) ||
                     (s.db.profiles == old(s.db.profiles) + [profile] &&
                      ProfileFor(profile, i, old(s.db.users[i]), s.db.categories[i % 6].id, dr.loyalty[i])))
  {
    var user := s.db.users[i];
    var parts := Text.Split(user.username, '_');
    ok, profile := s.InsertProfile(Profile(
      0, user.id, parts[0], if |parts| > 1 then Some(parts[1]) else None,
      Date(1990 + i, i % 12, (i * 3) % 28 + 1),
      if i % 2 == 0 then Female else Male,
      dr.loyalty[i], SkinTypes[i % 4], Concerns[i % 3],
      [s.db.categories[i % 6].id]));
    if !ok { return; }
    ok := s.SaveUser(i, user.(profile := Some(profile.id)));
  }

  /** Phase 4: profile `i` for user `i`, then the user is linked to it and
      saved. */
  method BuildProfiles(s: Store, dr: Draws) returns (ok: bool)
    requires s.Valid() && DrawsInRange(dr)
    requires CategoriesSeeded(s.db) && UsersSeeded(s.db) && s.db.profiles == []
    requires forall k :: 0 <= k < 8 ==> s.db.users[k].profile == None
    modifies s
    ensures s.Valid() && old(s.ops) <= s.ops
    ensures s.db == old(s.db).(users := s.db.users, profiles := s.db.profiles, nextId := s.db.nextId)
    ensures |s.db.users| == 8
    ensures forall k :: 0 <= k < 8 ==> s.db.users[k] == old(s.db.users[k]).(profile := s.db.users[k].profile)
    ensures ok ==> s.ClearSince(old(s.ops)) && ProfilesSeeded(s.db, dr)
    ensures !ok ==> s.FailedFirst(old(s.ops)) && ProfilesStopped(s.db, dr)
  {
    var i := 0;
    while i < 8
      invariant 0 <= i <= 8
      invariant s.Valid() && old(s.ops) <= s.ops && s.ClearSince(old(s.ops))
      invariant s.db == old(s.db).(users := s.db.users, profiles := s.db.profiles, nextId := s.db.nextId)
      invariant |s.db.users| == 8 && |s.db.profiles| == i
      invariant forall k :: 0 <= k < 8 ==> s.db.users[k] == old(s.db.users[k]).(profile := s.db.users[k].profile)
      invariant forall k :: 0 <= k < i ==>
        ProfileFor(s.db.profiles[k], k, old(s.db.users[k]), s.db.categories[k % 6].id, dr.loyalty[k]) &&
        s.db.users[k].profile == Some(s.db.profiles[k].id)
      invariant forall k :: i <= k < 8 ==> s.db.users[k].profile == None
    {
      var profile;
      ok, profile := AddProfile(s, dr, i, old(s.ops));
      if !ok {
        ProfilesHalted(old(s.db), s.db, dr, i);
        return;
      }
      i := i + 1;
    }
    ProfilesRelinked(old(s.db), s.db, dr);
    ok := true;
  }

  /** One round of phase 5: `Review.create` for review `i`, then the id is
      pushed onto its product's review list and the product saved. */
  method AddReview(s: Store, dr: Draws, i: nat, ghost start: nat) returns (ok: bool, review: Review)
    requires s.Valid() && DrawsInRange(dr) && start <= s.ops && s.ClearSince(start)
    requires i < ReviewCount && |s.db.users| == 8 && |s.db.products| == 15 && |s.db.reviews| == i
    requires ReviewsLinked(s.db)
    modifies s
    ensures s.Valid() && start <= s.ops
    ensures s.db == old(s.db).(products := s.db.products, reviews := s.db.reviews, nextId := s.db.nextId)
    ensures ok ==> s.ClearSince(start) &&
                   s.db.reviews == old(s.db.reviews) + [review] &&
                   s.db.products == old(s.db.products)[i % 15 := old(s.db.products[i % 15]).(
                     reviews := old(s.db.products[i % 15].reviews) + [review.id])] &&
                   ReviewFor(review, i, s.db.users[i % 8].id, old(s.db.products[i % 15]).id, dr.ratings[i]) &&
                   ReviewsLinked(s.db)
    ensures !ok ==> s.FailedFirst(start) && s.db.products == old(s.db.products) &&
                    (s.db.reviews == old(s.db.reviews) ||
                     (s.db.reviews == old(s.db.reviews) + [review] &&
                      ReviewFor(review, i, s.db.users[i % 8].id, old(s.db.products[i % 15]).id, dr.ratings[i])))
  {
    assert Ascending(IdsIn(s.db, ProductDocs), s.db.nextId);
    var k := i % 15;
    var product := s.db.products[k];
    ok, review := s.InsertReview(Review(0, s.db.users[i % 8].id, product.id, dr.ratings[i], ReviewComments[i % 8]));
    if !ok { return; }
    ok := s.SaveProduct(k, product.(reviews := product.reviews + [review.id]));
    if !ok { return; }
    ReviewLinked(old(s.db), review, k, s.db);
  }

  /** Phase 5: twenty reviews, review `i` by user `i mod 8` on product
      `i mod 15`, each recorded in its product's list. */
  method BuildReviews(s: Store, dr: Draws) returns (ok: bool)
    requires s.Valid() && DrawsInRange(dr)
    requires |s.db.users| == 8 && |s.db.products| == 15 && s.db.reviews == []
    requires forall k :: 0 <= k < 15 ==> s.db.products[k].reviews == []
    modifies s
    ensures s.Valid() && old(s.ops) <= s.ops
    ensures s.db == old(s.db).(products := s.db.products, reviews := s.db.reviews, nextId := s.db.nextId)
    ensures |s.db.products| == 15
    ensures forall k :: 0 <= k < 15 ==> s.db.products[k] == old(s.db.products[k]).(reviews := s.db.products[k].reviews)
    ensures ok ==> s.ClearSince(old(s.ops)) && ReviewsSeeded(s.db, dr)
    ensures !ok ==> s.FailedFirst(old(s.ops)) && ReviewsStopped(s.db, dr)
  {
    var i := 0;
    while i < ReviewCount
      invariant 0 <= i <= ReviewCount
      invariant s.Valid() && old(s.ops) <= s.ops && s.ClearSince(old(s.ops))
      invariant ReviewsFrame(s.db, old(s.db)) && ReviewsBuilt(s.db, old(s.db), i, dr.ratings)
    {
      ghost var before := s.db;
      var review;
      ok, review := AddReview(s, dr, i, old(s.ops));
      if !ok {
        ReviewsHalted(old(s.db), before, s.db, review, i, dr);
        return;
      }
      ReviewFrameRound(old(s.db), before, s.db, i % 15, review.id);
      ReviewRound(old(s.db), before, s.db, review, i, dr.ratings);
      i := i + 1;
    }
    ReviewsFinished(old(s.db), s.db, dr);
    ok := true;
  }

  /** The inner loop of phase 6: one `OrderItem.create` per drawn quantity,
      item `j` for product `(i + j) mod 15` at its current price, collecting
      the items, their ids and the running total. */
  method AddItems(s: Store, order: Id, i: nat, q: seq<int>, ghost start: nat)
    returns (ok: bool, added: seq<OrderItem>, items: seq<Id>, total: int)
    requires s.Valid() && start <= s.ops && s.ClearSince(start) && |s.db.products| == 15
    modifies s
    ensures s.Valid() && start <= s.ops
    ensures s.db == old(s.db).(orderItems := s.db.orderItems, nextId := s.db.nextId)
    ensures s.db.orderItems == old(s.db.orderItems) + added
    ensures forall t :: 0 <= t < |added| ==> added[t].order == order
    ensures |added| <= |q| && ItemsFor(added, i, q[..|added|], s.db.products)
    ensures items == ItemIds(added) && total == Total(added)
    ensures ok ==> s.ClearSince(start) && ItemsFor(added, i, q, s.db.products)
    ensures !ok ==> s.FailedFirst(start)
  {
    ok := true;
    added, items, total := [], [], 0;
    var products := s.db.products;
    var j := 0;
    while j < |q|
      invariant 0 <= j <= |q|
      invariant s.Valid() && start <= s.ops && s.ClearSince(start)
      invariant s.db == old(s.db).(orderItems := s.db.orderItems, nextId := s.db.nextId)
      invariant s.db.orderItems == old(s.db.orderItems) + added
      invariant forall t :: 0 <= t < |added| ==> added[t].order == order
      invariant ItemsFor(added, i, q[..j], products)
      invariant items == ItemIds(added) && total == Total(added)
    {
      var product := products[(i + j) % 15];
      var item;
      ok, item := s.InsertOrderItem(OrderItem(0, order, product.id, q[j], product.price));
      if !ok { return; }
      ItemsForPush(added, item, i, q, j, products);
      ItemPush(added, item, order);
      added, items, total := added + [item], items + [item.id], total + product.price * q[j];
      j := j + 1;
    }
    assert q[..j] == q;
  }

  /** One round of phase 6: order `i` for user `i mod 8` is created empty,
      its items are created, the order is saved with their ids and total,
      and the order id is pushed onto the user's list and the user saved. */
  method AddOrder(s: Store, dr: Draws, i: nat, ghost start: nat)
    returns (ok: bool, order: Order, added: seq<OrderItem>)
    requires s.Valid() && DrawsInRange(dr) && start <= s.ops && s.ClearSince(start)
    requires i < OrderCount && |s.db.users| == 8 && |s.db.products| == 15 && |s.db.orders| == i
    modifies s
    ensures s.Valid() && start <= s.ops
    ensures s.db == old(s.db).(users := s.db.users, orders := s.db.orders,
                               orderItems := s.db.orderItems, nextId := s.db.nextId)
    ensures ok ==> s.ClearSince(start) && order.id == old(s.db.nextId) &&
                   s.db.orders == old(s.db.orders) + [order] &&
                   s.db.orderItems == old(s.db.orderItems) + added &&
                   s.db.users == old(s.db.users)[i % 8 := old(s.db.users[i % 8]).(
                     orders := old(s.db.users[i % 8].orders) + [order.id])] &&
                   (forall t :: 0 <= t < |added| ==> added[t].order == order.id) &&
                   OrderHeader(order, i, old(s.db.users[i % 8])) &&
                   ItemsFor(added, i, dr.quantities[i], s.db.products) &&
                   order.items == ItemIds(added) && order.totalPrice == Total(added)
    ensures !ok ==> s.FailedFirst(start) && s.db.users == old(s.db.users) &&
                    ((s.db.orders == old(s.db.orders) && s.db.orderItems == old(s.db.orderItems)) ||
                     (s.db.orders == old(s.db.orders) + [order] &&
                      s.db.orderItems == old(s.db.orderItems) + added && order.id == old(s.db.nextId) &&
                      (forall t :: 0 <= t < |added| ==> added[t].order == order.id) &&
                      OrderHeader(order, i, old(s.db.users[i % 8])) && |added| <= |dr.quantities[i]| &&
                      ItemsFor(added, i, dr.quantities[i][..|added|], s.db.products) &&
                      ((order.items == [] && order.totalPrice == 0) ||
                       (order.items == ItemIds(added) && order.totalPrice == Total(added)))))
  {
    var user := s.db.users[i % 8];
    ok, order := s.InsertOrder(Order(0, user.id, [], 0, OrderStatuses[i % 4], user.address,
                                     PaymentMethods[i % 3], i % 3 != 0, Date(2024, i % 12, (i * 2) % 28 + 1)));
    added := [];
    if !ok { return; }
    var items, total;
    ok, added, items, total := AddItems(s, order.id, i, dr.quantities[i], start);
    if !ok { return; }
    var saved := order.(items := items, totalPrice := total);
    ok := s.SaveOrder(i, saved);
    if !ok { return; }
    order := saved;
    ok := s.SaveUser(i % 8, user.(orders := user.orders + [order.id]));
  }

  /** Phase 6: fifteen orders, each with its drawn number of items. */
  method BuildOrders(s: Store, dr: Draws) returns (ok: bool)
    requires s.Valid() && DrawsInRange(dr)
    requires |s.db.users| == 8 && |s.db.products| == 15 && s.db.orders == [] && s.db.orderItems == []
    requires forall k :: 0 <= k < 8 ==> s.db.users[k].orders == []
    modifies s
    ensures s.Valid() && old(s.ops) <= s.ops
    ensures s.db == old(s.db).(users := s.db.users, orders := s.db.orders,
                               orderItems := s.db.orderItems, nextId := s.db.nextId)
    ensures |s.db.users| == 8
    ensures forall k :: 0 <= k < 8 ==> s.db.users[k] == old(s.db.users[k]).(orders := s.db.users[k].orders)
    ensures ok ==> s.ClearSince(old(s.ops)) && OrdersSeeded(s.db, dr)
    ensures !ok ==> s.FailedFirst(old(s.ops)) && OrdersStopped(s.db, dr.quantities)
  {
    var i := 0;
    assert dr.quantities[..0] == [];
    while i < OrderCount
      invariant s.Valid() && old(s.ops) <= s.ops && s.ClearSince(old(s.ops))
      invariant OrdersFrame(s.db, old(s.db)) && OrdersBuilt(s.db, i, dr.quantities)
    {
      ghost var before := s.db;
      assert Ascending(IdsIn(before, OrderDocs), before.nextId);
      assert Ascending(IdsIn(before, UserDocs), before.nextId);
      var order, added;
      ok, order, added := AddOrder(s, dr, i, old(s.ops));
      if !ok {
        if s.db.orders == before.orders {
          OrdersHaltedBefore(before, s.db, i, dr.quantities);
        } else {
          OrdersHaltedAfter(before, s.db, order, added, i, dr.quantities);
        }
        return;
      }
      FrameRound(old(s.db), before, s.db, i % 8, order.id);
      OrderRound(before, s.db, order, added, i, dr.quantities);
      i := i + 1;
    }
    assert dr.quantities[..i] == dr.quantities;
    ok := true;
  }

  /** The inner loop of phase 7: one `Task.create` per task template for
      user `i`, completed or pending as drawn, completed ones stamped with
      the clock reading drawn for them. */
  method AddUserTasks(s: Store, dr: Draws, i: nat, ghost start: nat) returns (ok: bool, added: seq<Task>)
    requires s.Valid() && DrawsInRange(dr) && start <= s.ops && s.ClearSince(start)
    requires i < 8 && |s.db.users| == 8
    modifies s
    ensures s.Valid() && start <= s.ops
    ensures s.db == old(s.db).(tasks := s.db.tasks, nextId := s.db.nextId)
    ensures s.db.tasks == old(s.db.tasks) + added && |added| <= 5
    ensures forall j :: 0 <= j < |added| ==>
      TaskFor(added[j], s.db.users[i].id, TaskTemplates[j], dr.completed[5 * i + j], dr.clock[5 * i + j])
    ensures ok ==> s.ClearSince(start) && |added| == 5
    ensures !ok ==> s.FailedFirst(start) && |added| < 5
  {
    ok := true;
    added := [];
    var user := s.db.users[i];
    var j := 0;
    while j < |TaskTemplates|
      invariant 0 <= j <= 5
      invariant s.Valid() && start <= s.ops && s.ClearSince(start)
      invariant s.db == old(s.db).(tasks := s.db.tasks, nextId := s.db.nextId)
      invariant s.db.tasks == old(s.db.tasks) + added && |added| == j
      invariant forall k :: 0 <= k < j ==>
        TaskFor(added[k], user.id, TaskTemplates[k], dr.completed[5 * i + k], dr.clock[5 * i + k])
    {
      var t := TaskTemplates[j];
      var done := dr.completed[5 * i + j];
      var task;
      ok, task := s.InsertTask(Task(0, user.id, t.title, t.description, t.category, t.kind,
                                    t.points, t.points / 10, if done then Completed else Open,
                                    if done then Some(dr.clock[5 * i + j]) else None));
      if !ok { return; }
      added := added + [task];
      j := j + 1;
    }
  }

  /** Phase 7: five tasks for each of the eight users. */
  method BuildTasks(s: Store, dr: Draws) returns (ok: bool)
    requires s.Valid() && DrawsInRange(dr) && |s.db.users| == 8 && s.db.tasks == []
    modifies s
    ensures s.Valid() && old(s.ops) <= s.ops
    ensures s.db == old(s.db).(tasks := s.db.tasks, nextId := s.db.nextId)
    ensures ok ==> s.ClearSince(old(s.ops)) && TasksSeeded(s.db, dr)
    ensures !ok ==> s.FailedFirst(old(s.ops)) && |s.db.tasks| < 40 && TasksBuilt(s.db, |s.db.tasks|, dr)
  {
    var i := 0;
    while i < |s.db.users|
      invariant 0 <= i <= 8
      invariant s.Valid() && old(s.ops) <= s.ops && s.ClearSince(old(s.ops))
      invariant s.db == old(s.db).(tasks := s.db.tasks, nextId := s.db.nextId)
      invariant TasksBuilt(s.db, 5 * i, dr)
    {
      ghost var before := s.db;
      var added;
      ok, added := AddUserTasks(s, dr, i, old(s.ops));
      TaskRound(before, s.db, added, i, dr);
      if !ok { return; }
      i := i + 1;
    }
    ok := true;
  }

  /** One of the first three phases (catalogue and accounts) of a run that
      has had no failure since operation `start`, with every earlier phase
      complete and no later one begun: the phase either completes, or fails
      at its first failing operation with the earlier phases intact and the
      later ones still untouched. */
  method RunSetupPhase(s: Store, dr: Draws, p: Phase, ghost start: nat) returns (ok: bool)
    requires p == Categories || p == Products || p == Users
    requires s.Valid() && DrawsInRange(dr) && start <= s.ops && s.ClearSince(start)
    requires Done(s.db, Rank(p), dr) && Untouched(s.db, Rank(p))
    modifies s
    ensures s.Valid() && start <= s.ops
    ensures ok ==> s.ClearSince(start) && Done(s.db, Rank(p) + 1, dr) && Untouched(s.db, Rank(p) + 1)
    ensures !ok ==> s.FailedFirst(start) && Done(s.db, Rank(p), dr) && Untouched(s.db, Rank(p) + 1) &&
                    Stopped(s.db, p, dr)
  {
    ghost var before := s.db;
    if p == Categories {
      ok := BuildCategories(s);
      CategoriesPhase(before, s.db, dr);
    } else if p == Products {
      ok := BuildProducts(s);
      ProductsPhase(before, s.db, dr);
    } else {
      ok := BuildUsers(s);
      UsersPhase(before, s.db, dr);
    }
  }

  /** One of the last four phases (profiles, reviews, orders, tasks), with
      the same contract as `RunSetupPhase`. */
  method RunActivityPhase(s: Store, dr: Draws, p: Phase, ghost start: nat) returns (ok: bool)
    requires p == Profiles || p == Reviews || p == Orders || p == Tasks
    requires s.Valid() && DrawsInRange(dr) && start <= s.ops && s.ClearSince(start)
    requires Done(s.db, Rank(p), dr) && Untouched(s.db, Rank(p))
    modifies s
    ensures s.Valid() && start <= s.ops
    ensures ok ==> s.ClearSince(start) && Done(s.db, Rank(p) + 1, dr) && Untouched(s.db, Rank(p) + 1)
    ensures !ok ==> s.FailedFirst(start) && Done(s.db, Rank(p), dr) && Untouched(s.db, Rank(p) + 1) &&
                    Stopped(s.db, p, dr)
  {
    ghost var before := s.db;
    if p == Profiles {
      ok := BuildProfiles(s, dr);
      ProfilesPhase(before, s.db, dr);
    } else if p == Reviews {
      ok := BuildReviews(s, dr);
      ReviewsPhase(before, s.db, dr);
    } else if p == Orders {
      ok := BuildOrders(s, dr);
      OrdersPhase(before, s.db, dr);
    } else {
      ok := BuildTasks(s, dr);
      TasksPhase(before, s.db, dr);
    }
  }

  /** The counts the script reports at the end of a run. */
  datatype Summary = Summary(
    categories: nat, products: nat, users: nat, profiles: nat,
    reviews: nat, orders: nat, orderItems: nat, tasks: nat)

  /** How a run ends: with its summary, or in the phase whose store
      operation failed (the script's `catch`). */
  datatype RunOutcome = Finished(summary: Summary) | Aborted(phase: Phase)

  /** The seven phases after the reset, in order, in a run that has had no
      failure since operation `start` and starts from a truncated store:
      either all complete, or the run stops in the first phase with a
      failing operation, the phases before it complete and those after it
      not begun. */
  method RunPhases(s: Store, dr: Draws, ghost start: nat) returns (failed: Option<Phase>)
    requires s.Valid() && DrawsInRange(dr) && start <= s.ops && s.ClearSince(start)
    requires Untouched(s.db, 1)
    modifies s
    ensures s.Valid()
    ensures failed == None ==> s.ClearSince(start) && Done(s.db, 8, dr)
    ensures failed.Some? ==>
      s.FailedFirst(start) && failed.value != Reset &&
      Done(s.db, Rank(failed.value), dr) && Untouched(s.db, Rank(failed.value) + 1) &&
      Stopped(s.db, failed.value, dr)
  {
    var i := 0;
    while i < |Phases|
      invariant 0 <= i <= |Phases|
      invariant s.Valid() && start <= s.ops && s.ClearSince(start)
      invariant Done(s.db, i + 1, dr) && Untouched(s.db, i + 1)
    {
      var p := Phases[i];
      PhaseRank(i);
      var ok;
      if i < 3 {
        ok := RunSetupPhase(s, dr, p, start);
      } else {
        ok := RunActivityPhase(s, dr, p, start);
      }
      if !ok { return Some(p); }
      i := i + 1;
    }
    failed := None;
  }

  /** `seedDatabase`. A run that finishes had no failing operation after the
      `dropIndex` call and leaves a complete, consistent seeded database
      with the fixed counts; a run that aborts stops at the first failing
      operation, with the phases before it complete and those after it not
      begun. */
  method SeedDatabase(s: Store, dr: Draws) returns (outcome: RunOutcome)
    requires s.Valid() && DrawsInRange(dr)
    modifies s
    ensures s.Valid()
    ensures outcome.Finished? ==>
      s.ClearSince(old(s.ops) + 1) && Seeded(s.db, dr) &&
      outcome.summary == Summary(6, 15, 8, 8, ReviewCount, OrderCount, ItemCount(dr.quantities), 40)
    ensures outcome.Aborted? ==> s.FailedFirst(old(s.ops) + 1)
    ensures outcome == Aborted(Reset) ==>
      exists n :: 0 <= n < 8 && s.db == Cleared(old(s.db).(userIndexes := s.db.userIndexes), n)
    ensures outcome.Aborted? && outcome.phase != Reset ==>
      Done(s.db, Rank(outcome.phase), dr) && Untouched(s.db, Rank(outcome.phase) + 1) &&
      Stopped(s.db, outcome.phase, dr)
  {
    var ok := ResetPhase(s);
    if !ok { return Aborted(Reset); }
    ResetLeaves(s.db);
    var failed := RunPhases(s, dr, old(s.ops) + 1);
    if failed.Some? { return Aborted(failed.value); }
    outcome := Finished(Summary(|s.db.categories|, |s.db.products|, |s.db.users|, |s.db.profiles|,
                                |s.db.reviews|, |s.db.orders|, |s.db.orderItems|, |s.db.tasks|));
  }
}
