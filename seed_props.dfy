/** What holds of a seeded database, derived from `SeedSpec.Seeded`:
    every back-reference list is exactly the children naming the parent, in
    creation order and without repeats; users and profiles are one-to-one;
    every reference resolves; every total is the sum the templates and the
    drawn quantities determine; and every drawn or derived field lies in
    its range. */
module SeedProps {
  import opened Wrappers
  import opened Entities
  import opened SeedSpec

  // ---------------------------------------------------------------------
  // Child lists: membership and order
  // ---------------------------------------------------------------------

  /** A review is among those of `product` exactly when it is stored and
      names `product`. */
  lemma {:induction false} ReviewsOfMember(rs: seq<Review>, product: Id, r: Review)
    ensures r in ReviewsOf(rs, product) <==> r in rs && r.product == product
    decreases |rs|
  {
    if |rs| > 0 {
      var n := |rs| - 1;
      ReviewsOfMember(rs[..n], product, r);
      assert rs == rs[..n] + [rs[n]];
    }
  }

  lemma {:induction false} OrdersOfMember(os: seq<Order>, user: Id, o: Order)
    ensures o in OrdersOf(os, user) <==> o in os && o.user == user
    decreases |os|
  {
    if |os| > 0 {
      var n := |os| - 1;
      OrdersOfMember(os[..n], user, o);
      assert os == os[..n] + [os[n]];
    }
  }

  lemma {:induction false} ItemsOfMember(its: seq<OrderItem>, order: Id, it: OrderItem)
    ensures it in ItemsOf(its, order) <==> it in its && it.order == order
    decreases |its|
  {
    if |its| > 0 {
      var n := |its| - 1;
      ItemsOfMember(its[..n], order, it);
      assert its == its[..n] + [its[n]];
    }
  }

  /** Picking the reviews of one product out of an ascending collection
      keeps the ids ascending: creation order, no repeats. */
  lemma {:induction false} ReviewsOfAscending(rs: seq<Review>, product: Id, bound: Id)
    requires Ascending(ReviewIds(rs), bound)
    ensures Ascending(ReviewIds(ReviewsOf(rs, product)), bound)
    decreases |rs|
  {
    if |rs| > 0 {
      var n := |rs| - 1;
      var last := rs[n];
      assert ReviewIds(rs)[..n] == ReviewIds(rs[..n]) && ReviewIds(rs)[n] == last.id;
      ReviewsOfAscending(rs[..n], product, last.id);
      var front := ReviewsOf(rs[..n], product);
      assert ReviewsOf(rs, product) == front + (if last.product == product then [last] else []);
      if last.product == product {
        assert ReviewIds(front + [last]) == ReviewIds(front) + [last.id];
        AscendingPush(ReviewIds(front), last.id);
        AscendingRaise(ReviewIds(front) + [last.id], last.id + 1, bound);
      } else {
        assert ReviewsOf(rs, product) == front;
        AscendingRaise(ReviewIds(front), last.id, bound);
      }
    }
  }

  lemma {:induction false} OrdersOfAscending(os: seq<Order>, user: Id, bound: Id)
    requires Ascending(OrderIds(os), bound)
    ensures Ascending(OrderIds(OrdersOf(os, user)), bound)
    decreases |os|
  {
    if |os| > 0 {
      var n := |os| - 1;
      var last := os[n];
      assert OrderIds(os)[..n] == OrderIds(os[..n]) && OrderIds(os)[n] == last.id;
      OrdersOfAscending(os[..n], user, last.id);
      var front := OrdersOf(os[..n], user);
      assert OrdersOf(os, user) == front + (if last.user == user then [last] else []);
      if last.user == user {
        assert OrderIds(front + [last]) == OrderIds(front) + [last.id];
        AscendingPush(OrderIds(front), last.id);
        AscendingRaise(OrderIds(front) + [last.id], last.id + 1, bound);
      } else {
        assert OrdersOf(os, user) == front;
        AscendingRaise(OrderIds(front), last.id, bound);
      }
    }
  }

  lemma {:induction false} ItemsOfAscending(its: seq<OrderItem>, order: Id, bound: Id)
    requires Ascending(ItemIds(its), bound)
    ensures Ascending(ItemIds(ItemsOf(its, order)), bound)
    decreases |its|
  {
    if |its| > 0 {
      var n := |its| - 1;
      var last := its[n];
      assert ItemIds(its)[..n] == ItemIds(its[..n]) && ItemIds(its)[n] == last.id;
      ItemsOfAscending(its[..n], order, last.id);
      var front := ItemsOf(its[..n], order);
      assert ItemsOf(its, order) == front + (if last.order == order then [last] else []);
      if last.order == order {
        assert ItemIds(front + [last]) == ItemIds(front) + [last.id];
        AscendingPush(ItemIds(front), last.id);
        AscendingRaise(ItemIds(front) + [last.id], last.id + 1, bound);
      } else {
        assert ItemsOf(its, order) == front;
        AscendingRaise(ItemIds(front), last.id, bound);
      }
    }
  }

  /** In an ascending review collection, the id of review `t` is in the id list of
      product `product` exactly when it names `product`. */
  lemma ReviewListed(rs: seq<Review>, product: Id, bound: Id, t: nat)
    requires Ascending(ReviewIds(rs), bound) && t < |rs|
    ensures rs[t].id in ReviewIds(ReviewsOf(rs, product)) <==> rs[t].product == product
  {
    var listed := ReviewsOf(rs, product);
    ReviewsOfMember(rs, product, rs[t]);
    if rs[t].id in ReviewIds(listed) {
      var j :| 0 <= j < |listed| && ReviewIds(listed)[j] == rs[t].id;
      ReviewsOfMember(rs, product, listed[j]);
      var t' :| 0 <= t' < |rs| && rs[t'] == listed[j];
      AscendingPairs(ReviewIds(rs), bound);
      assert ReviewIds(rs)[t'] == ReviewIds(rs)[t];
    }
    if rs[t].product == product {
      var j :| 0 <= j < |listed| && listed[j] == rs[t];
      assert ReviewIds(listed)[j] == rs[t].id;
    }
  }

  /** Every id in the list of product `product` is that of a stored review
      naming it. */
  lemma ReviewListSound(rs: seq<Review>, product: Id, x: Id)
    requires x in ReviewIds(ReviewsOf(rs, product))
    ensures exists t :: 0 <= t < |rs| && rs[t].id == x && rs[t].product == product
  {
    var listed := ReviewsOf(rs, product);
    var j :| 0 <= j < |listed| && ReviewIds(listed)[j] == x;
    ReviewsOfMember(rs, product, listed[j]);
    var t :| 0 <= t < |rs| && rs[t] == listed[j];
  }

  /** In an ascending order collection, the id of order `t` is in the id list of
      user `user` exactly when it names `user`. */
  lemma OrderListed(os: seq<Order>, user: Id, bound: Id, t: nat)
    requires Ascending(OrderIds(os), bound) && t < |os|
    ensures os[t].id in OrderIds(OrdersOf(os, user)) <==> os[t].user == user
  {
    var listed := OrdersOf(os, user);
    OrdersOfMember(os, user, os[t]);
    if os[t].id in OrderIds(listed) {
      var j :| 0 <= j < |listed| && OrderIds(listed)[j] == os[t].id;
      OrdersOfMember(os, user, listed[j]);
      var t' :| 0 <= t' < |os| && os[t'] == listed[j];
      AscendingPairs(OrderIds(os), bound);
      assert OrderIds(os)[t'] == OrderIds(os)[t];
    }
    if os[t].user == user {
      var j :| 0 <= j < |listed| && listed[j] == os[t];
      assert OrderIds(listed)[j] == os[t].id;
    }
  }

  /** Every id in the list of user `user` is that of a stored order
      naming it. */
  lemma OrderListSound(os: seq<Order>, user: Id, x: Id)
    requires x in OrderIds(OrdersOf(os, user))
    ensures exists t :: 0 <= t < |os| && os[t].id == x && os[t].user == user
  {
    var listed := OrdersOf(os, user);
    var j :| 0 <= j < |listed| && OrderIds(listed)[j] == x;
    OrdersOfMember(os, user, listed[j]);
    var t :| 0 <= t < |os| && os[t] == listed[j];
  }

  /** In an ascending item collection, the id of item `t` is in the id list of
      order `order` exactly when it names `order`. */
  lemma ItemListed(its: seq<OrderItem>, order: Id, bound: Id, t: nat)
    requires Ascending(ItemIds(its), bound) && t < |its|
    ensures its[t].id in ItemIds(ItemsOf(its, order)) <==> its[t].order == order
  {
    var listed := ItemsOf(its, order);
    ItemsOfMember(its, order, its[t]);
    if its[t].id in ItemIds(listed) {
      var j :| 0 <= j < |listed| && ItemIds(listed)[j] == its[t].id;
      ItemsOfMember(its, order, listed[j]);
      var t' :| 0 <= t' < |its| && its[t'] == listed[j];
      AscendingPairs(ItemIds(its), bound);
      assert ItemIds(its)[t'] == ItemIds(its)[t];
    }
    if its[t].order == order {
      var j :| 0 <= j < |listed| && listed[j] == its[t];
      assert ItemIds(listed)[j] == its[t].id;
    }
  }

  /** Every id in the list of order `order` is that of a stored item
      naming it. */
  lemma ItemListSound(its: seq<OrderItem>, order: Id, x: Id)
    requires x in ItemIds(ItemsOf(its, order))
    ensures exists t :: 0 <= t < |its| && its[t].id == x && its[t].order == order
  {
    var listed := ItemsOf(its, order);
    var j :| 0 <= j < |listed| && ItemIds(listed)[j] == x;
    ItemsOfMember(its, order, listed[j]);
    var t :| 0 <= t < |its| && its[t] == listed[j];
  }

  // ---------------------------------------------------------------------
  // Back-reference lists of the stored parents
  // ---------------------------------------------------------------------

  /** Each product's `reviews` holds the id of a stored review exactly when
      that review names the product, holds nothing else, and lists the ids
      in strictly increasing (creation) order, so without repeats. */
  lemma ProductReviewLists(d: Db)
    requires ReviewsLinked(d) && Ascending(ReviewIds(d.reviews), d.nextId)
    ensures forall k, t :: 0 <= k < |d.products| && 0 <= t < |d.reviews| ==>
      (d.reviews[t].id in d.products[k].reviews <==> d.reviews[t].product == d.products[k].id)
    ensures forall k, x :: 0 <= k < |d.products| && x in d.products[k].reviews ==>
      exists t :: 0 <= t < |d.reviews| && d.reviews[t].id == x && d.reviews[t].product == d.products[k].id
    ensures forall k, a, b :: 0 <= k < |d.products| && 0 <= a < b < |d.products[k].reviews| ==>
      d.products[k].reviews[a] < d.products[k].reviews[b]
  {
    forall k, t | 0 <= k < |d.products| && 0 <= t < |d.reviews|
      ensures d.reviews[t].id in d.products[k].reviews <==> d.reviews[t].product == d.products[k].id
    {
      ReviewListed(d.reviews, d.products[k].id, d.nextId, t);
    }
    forall k, x | 0 <= k < |d.products| && x in d.products[k].reviews
      ensures exists t :: 0 <= t < |d.reviews| && d.reviews[t].id == x && d.reviews[t].product == d.products[k].id
    {
      ReviewListSound(d.reviews, d.products[k].id, x);
    }
    forall k | 0 <= k < |d.products|
      ensures forall a, b :: 0 <= a < b < |d.products[k].reviews| ==>
        d.products[k].reviews[a] < d.products[k].reviews[b]
    {
      ReviewsOfAscending(d.reviews, d.products[k].id, d.nextId);
      AscendingPairs(d.products[k].reviews, d.nextId);
    }
  }

  /** Each user's `orders` holds the id of a stored order exactly when that
      order names the user, holds nothing else, and lists the ids in
      strictly increasing (creation) order. */
  lemma UserOrderLists(d: Db)
    requires OrdersLinked(d) && Ascending(OrderIds(d.orders), d.nextId)
    ensures forall k, t :: 0 <= k < |d.users| && 0 <= t < |d.orders| ==>
      (d.orders[t].id in d.users[k].orders <==> d.orders[t].user == d.users[k].id)
    ensures forall k, x :: 0 <= k < |d.users| && x in d.users[k].orders ==>
      exists t :: 0 <= t < |d.orders| && d.orders[t].id == x && d.orders[t].user == d.users[k].id
    ensures forall k, a, b :: 0 <= k < |d.users| && 0 <= a < b < |d.users[k].orders| ==>
      d.users[k].orders[a] < d.users[k].orders[b]
  {
    forall k, t | 0 <= k < |d.users| && 0 <= t < |d.orders|
      ensures d.orders[t].id in d.users[k].orders <==> d.orders[t].user == d.users[k].id
    {
      OrderListed(d.orders, d.users[k].id, d.nextId, t);
    }
    forall k, x | 0 <= k < |d.users| && x in d.users[k].orders
      ensures exists t :: 0 <= t < |d.orders| && d.orders[t].id == x && d.orders[t].user == d.users[k].id
    {
      OrderListSound(d.orders, d.users[k].id, x);
    }
    forall k | 0 <= k < |d.users|
      ensures forall a, b :: 0 <= a < b < |d.users[k].orders| ==> d.users[k].orders[a] < d.users[k].orders[b]
    {
      OrdersOfAscending(d.orders, d.users[k].id, d.nextId);
      AscendingPairs(d.users[k].orders, d.nextId);
    }
  }

  /** Each order's `items` is the ids of the items naming it. */
  predicate ItemsListed(d: Db)
  {
    forall i :: 0 <= i < |d.orders| ==> d.orders[i].items == ItemIds(ItemsOf(d.orderItems, d.orders[i].id))
  }

  lemma OrdersSeededListed(d: Db, dr: Draws)
    requires DrawsInRange(dr) && OrdersSeeded(d, dr)
    ensures ItemsListed(d)
  {
    forall i | 0 <= i < |d.orders| ensures d.orders[i].items == ItemIds(ItemsOf(d.orderItems, d.orders[i].id)) {
      assert OrderFor(d, i, dr.quantities[i]);
    }
  }

  /** A seeded database meets the premises of `ProductReviewLists`,
      `UserOrderLists` and `OrderItemLists`. */
  lemma SeededLinks(d: Db, dr: Draws)
    requires DrawsInRange(dr) && Seeded(d, dr)
    ensures ReviewsLinked(d) && Ascending(ReviewIds(d.reviews), d.nextId)
    ensures OrdersLinked(d) && Ascending(OrderIds(d.orders), d.nextId)
    ensures ItemsListed(d) && Ascending(ItemIds(d.orderItems), d.nextId)
  {
    ActivityIdsAscending(d);
    OrdersSeededListed(d, dr);
  }

  /** In a consistent store the reviews, orders and items are each in
      strictly increasing id order below the counter. */
  lemma ActivityIdsAscending(d: Db)
    requires Consistent(d)
    ensures Ascending(ReviewIds(d.reviews), d.nextId)
    ensures Ascending(OrderIds(d.orders), d.nextId)
    ensures Ascending(ItemIds(d.orderItems), d.nextId)
  {
    assert Ascending(IdsIn(d, ReviewDocs), d.nextId);
    assert Ascending(IdsIn(d, OrderDocs), d.nextId);
    assert Ascending(IdsIn(d, OrderItemDocs), d.nextId);
  }

  /** Each order's `items` holds the id of a stored item exactly when that
      item names the order, holds nothing else, and lists the ids in
      strictly increasing (creation) order. */
  lemma OrderItemLists(d: Db)
    requires ItemsListed(d) && Ascending(ItemIds(d.orderItems), d.nextId)
    ensures forall i, t :: 0 <= i < |d.orders| && 0 <= t < |d.orderItems| ==>
      (d.orderItems[t].id in d.orders[i].items <==> d.orderItems[t].order == d.orders[i].id)
    ensures forall i, x :: 0 <= i < |d.orders| && x in d.orders[i].items ==>
      exists t :: 0 <= t < |d.orderItems| && d.orderItems[t].id == x && d.orderItems[t].order == d.orders[i].id
    ensures forall i, a, b :: 0 <= i < |d.orders| && 0 <= a < b < |d.orders[i].items| ==>
      d.orders[i].items[a] < d.orders[i].items[b]
  {
    forall i, t | 0 <= i < |d.orders| && 0 <= t < |d.orderItems|
      ensures d.orderItems[t].id in d.orders[i].items <==> d.orderItems[t].order == d.orders[i].id
    {
      ItemListed(d.orderItems, d.orders[i].id, d.nextId, t);
    }
    forall i, x | 0 <= i < |d.orders| && x in d.orders[i].items
      ensures exists t :: 0 <= t < |d.orderItems| && d.orderItems[t].id == x && d.orderItems[t].order == d.orders[i].id
    {
      ItemListSound(d.orderItems, d.orders[i].id, x);
    }
    forall i | 0 <= i < |d.orders|
      ensures forall a, b :: 0 <= a < b < |d.orders[i].items| ==> d.orders[i].items[a] < d.orders[i].items[b]
    {
      ItemsOfAscending(d.orderItems, d.orders[i].id, d.nextId);
      AscendingPairs(d.orders[i].items, d.nextId);
    }
  }

  // ---------------------------------------------------------------------
  // Users and profiles
  // ---------------------------------------------------------------------

  /** Users and profiles are one-to-one both ways: profile `i` names user
      `j` exactly when `i == j`, and user `j` links profile `i` exactly
      when `i == j`. */
  lemma ProfilesOneToOne(d: Db, dr: Draws)
    requires DrawsInRange(dr) && ProfilesSeeded(d, dr)
    requires Ascending(UserIds(d.users), d.nextId) && Ascending(ProfileIds(d.profiles), d.nextId)
    ensures forall i, j :: 0 <= i < 8 && 0 <= j < 8 ==> (d.profiles[i].user == d.users[j].id <==> i == j)
    ensures forall i, j :: 0 <= i < 8 && 0 <= j < 8 ==> (d.users[j].profile == Some(d.profiles[i].id) <==> i == j)
  {
    AscendingPairs(UserIds(d.users), d.nextId);
    AscendingPairs(ProfileIds(d.profiles), d.nextId);
    forall i, j | 0 <= i < 8 && 0 <= j < 8 && i != j
      ensures d.profiles[i].user != d.users[j].id && d.users[j].profile != Some(d.profiles[i].id)
    {
      assert ProfileFor(d.profiles[i], i, d.users[i], d.categories[i % 6].id, dr.loyalty[i]);
      assert UserIds(d.users)[i] != UserIds(d.users)[j];
      assert ProfileIds(d.profiles)[i] != ProfileIds(d.profiles)[j];
    }
  }

  // ---------------------------------------------------------------------
  // Order totals and sizes
  // ---------------------------------------------------------------------

  /** What order `i` with quantities `q` costs, read off the product
      templates alone: item `j` is product `(i + j) mod 15`. */
  function OrderValue(i: nat, q: seq<int>): int
    decreases |q|
  {
    if |q| == 0 then 0
    else OrderValue(i, q[..|q| - 1]) + ProductTemplates[(i + |q| - 1) % 15].price * q[|q| - 1]
  }

  /** Items made for order `i` from products carrying their template
      prices sum to the order's template value. */
  lemma {:induction false} ItemsTotal(its: seq<OrderItem>, i: nat, q: seq<int>, ps: seq<Product>)
    requires |ps| == 15 && ItemsFor(its, i, q, ps)
    requires forall k :: 0 <= k < 15 ==> ps[k].price == ProductTemplates[k].price
    ensures Total(its) == OrderValue(i, q)
    decreases |q|
  {
    if |q| > 0 {
      var n := |q| - 1;
      assert ItemsFor(its[..n], i, q[..n], ps);
      ItemsTotal(its[..n], i, q[..n], ps);
    }
  }

  /** Every template price lies between the cheapest and the dearest
      product. */
  lemma TemplatePrice(k: nat)
    requires k < 15
    ensures 799 <= ProductTemplates[k].price <= 8999
  {
  }

  /** One item line of one to three units of a template product. */
  lemma LineValueRange(price: int, units: int)
    requires 799 <= price <= 8999 && 1 <= units <= 3
    ensures 799 <= price * units <= 26997
  {
    if units == 2 {
      assert price * units == price + price;
    } else if units == 3 {
      assert price * units == price + price + price;
    }
  }

  /** An order of quantities in [1,3] costs at least the cheapest price per
      item and at most three times the dearest. */
  lemma {:induction false} OrderValueRange(i: nat, q: seq<int>)
    requires forall j :: 0 <= j < |q| ==> 1 <= q[j] <= 3
    ensures 799 * |q| <= OrderValue(i, q) <= 26997 * |q|
    decreases |q|
  {
    if |q| > 0 {
      var n := |q| - 1;
      var front := q[..n];
      var price := ProductTemplates[(i + n) % 15].price;
      OrderValueRange(i, front);
      TemplatePrice((i + n) % 15);
      LineValueRange(price, q[n]);
      var line := price * q[n];
      var before := OrderValue(i, front);
      assert OrderValue(i, q) == before + line;
      assert 799 * n <= before <= 26997 * n && 799 <= line <= 26997;
    }
  }

  /** Orders of one to four items call for between one and four items
      each. */
  lemma {:induction false} ItemCountRange(qs: seq<seq<int>>)
    requires forall i :: 0 <= i < |qs| ==> 1 <= |qs[i]| <= 4
    ensures |qs| <= ItemCount(qs) <= 4 * |qs|
    decreases |qs|
  {
    if |qs| > 0 {
      ItemCountRange(qs[..|qs| - 1]);
    }
  }

  /** Each seeded order has one to four items and costs the template value
      of its drawn quantities, which is positive; between 15 and 60 items
      are stored in all. */
  lemma OrderTotals(d: Db, dr: Draws)
    requires DrawsInRange(dr) && ProductsSeeded(d) && OrdersSeeded(d, dr)
    ensures forall i :: 0 <= i < OrderCount ==>
      1 <= |d.orders[i].items| <= 4 && d.orders[i].totalPrice == OrderValue(i, dr.quantities[i]) &&
      799 <= d.orders[i].totalPrice
    ensures OrderCount <= |d.orderItems| <= 4 * OrderCount
  {
    forall k | 0 <= k < 15 ensures d.products[k].price == ProductTemplates[k].price {
      assert ProductFromTemplate(d.products[k], ProductTemplates[k], d.categories[k % 6].id);
    }
    forall i | 0 <= i < OrderCount
      ensures 1 <= |d.orders[i].items| <= 4 && d.orders[i].totalPrice == OrderValue(i, dr.quantities[i]) &&
              799 <= d.orders[i].totalPrice
    {
      var q := dr.quantities[i];
      assert OrderFor(d, i, q);
      ItemsTotal(ItemsOf(d.orderItems, d.orders[i].id), i, q, d.products);
      OrderValueRange(i, q);
    }
    ItemCountRange(dr.quantities);
  }

  /** Where stored item `t` comes from: it is item `j` of order `i`, for
      product `(i + j) mod 15` at that product's price, in the drawn
      quantity, which is between 1 and 3. */
  lemma ItemOrigin(d: Db, dr: Draws, t: nat) returns (i: nat, j: nat)
    requires DrawsInRange(dr) && OrdersSeeded(d, dr) && t < |d.orderItems|
    ensures i < OrderCount && j < |dr.quantities[i]| && d.orderItems[t].order == d.orders[i].id
    ensures d.orderItems[t].product == d.products[(i + j) % 15].id
    ensures d.orderItems[t].price == d.products[(i + j) % 15].price
    ensures d.orderItems[t].quantity == dr.quantities[i][j] && 1 <= d.orderItems[t].quantity <= 3
  {
    var it := d.orderItems[t];
    assert it.order in OrderIds(d.orders);
    i :| 0 <= i < OrderCount && OrderIds(d.orders)[i] == it.order;
    assert OrderFor(d, i, dr.quantities[i]);
    var its := ItemsOf(d.orderItems, it.order);
    ItemsOfMember(d.orderItems, it.order, it);
    j :| 0 <= j < |its| && its[j] == it;
    assert ItemsFor(its, i, dr.quantities[i], d.products);
  }

  // ---------------------------------------------------------------------
  // Referential integrity
  // ---------------------------------------------------------------------

  /** Every reference held by a product or a review resolves. */
  predicate CatalogResolves(d: Db)
  {
    (forall k, c :: 0 <= k < |d.products| && c in d.products[k].categories ==> c in CategoryIds(d.categories)) &&
    (forall k, x :: 0 <= k < |d.products| && x in d.products[k].reviews ==> x in ReviewIds(d.reviews)) &&
    (forall t :: 0 <= t < |d.reviews| ==>
      d.reviews[t].user in UserIds(d.users) && d.reviews[t].product in ProductIds(d.products))
  }

  /** Every reference held by a user or a profile resolves. */
  predicate AccountsResolve(d: Db)
  {
    (forall k :: 0 <= k < |d.users| && d.users[k].profile.Some? ==> d.users[k].profile.value in ProfileIds(d.profiles)) &&
    (forall k, x :: 0 <= k < |d.users| && x in d.users[k].orders ==> x in OrderIds(d.orders)) &&
    (forall k :: 0 <= k < |d.profiles| ==> d.profiles[k].user in UserIds(d.users)) &&
    (forall k, c :: 0 <= k < |d.profiles| && c in d.profiles[k].favoriteCategories ==> c in CategoryIds(d.categories))
  }

  /** Every reference held by an order or an order item resolves. */
  predicate OrdersResolve(d: Db)
  {
    (forall i :: 0 <= i < |d.orders| ==> d.orders[i].user in UserIds(d.users)) &&
    (forall i, x :: 0 <= i < |d.orders| && x in d.orders[i].items ==> x in ItemIds(d.orderItems)) &&
    (forall t :: 0 <= t < |d.orderItems| ==>
      d.orderItems[t].order in OrderIds(d.orders) && d.orderItems[t].product in ProductIds(d.products))
  }

  /** Every task's user resolves. */
  predicate TasksResolve(d: Db)
  {
    forall t :: 0 <= t < |d.tasks| ==> d.tasks[t].user in UserIds(d.users)
  }

  lemma CatalogResolved(d: Db, dr: Draws)
    requires DrawsInRange(dr) && ProductsSeeded(d) && ReviewsSeeded(d, dr)
    ensures CatalogResolves(d)
  {
    forall k | 0 <= k < 15 ensures d.products[k].categories == [CategoryIds(d.categories)[k % 6]] {
      assert ProductFromTemplate(d.products[k], ProductTemplates[k], d.categories[k % 6].id);
    }
    ProductReviewsResolve(d);
    forall t | 0 <= t < ReviewCount
      ensures d.reviews[t].user == UserIds(d.users)[t % 8] && d.reviews[t].product == ProductIds(d.products)[t % 15]
    {
      assert ReviewFor(d.reviews[t], t, d.users[t % 8].id, d.products[t % 15].id, dr.ratings[t]);
    }
  }

  lemma ProductReviewsResolve(d: Db)
    requires ReviewsLinked(d)
    ensures forall k, x :: 0 <= k < |d.products| && x in d.products[k].reviews ==> x in ReviewIds(d.reviews)
  {
    forall k, x | 0 <= k < |d.products| && x in d.products[k].reviews ensures x in ReviewIds(d.reviews) {
      ReviewListSound(d.reviews, d.products[k].id, x);
      var t :| 0 <= t < |d.reviews| && d.reviews[t].id == x && d.reviews[t].product == d.products[k].id;
      assert ReviewIds(d.reviews)[t] == x;
    }
  }

  lemma AccountsResolved(d: Db, dr: Draws)
    requires DrawsInRange(dr) && ProfilesSeeded(d, dr) && OrdersLinked(d)
    ensures AccountsResolve(d)
  {
    forall k | 0 <= k < 8
      ensures d.users[k].profile == Some(ProfileIds(d.profiles)[k]) && d.profiles[k].user == UserIds(d.users)[k] &&
              d.profiles[k].favoriteCategories == [CategoryIds(d.categories)[k % 6]]
    {
      assert ProfileFor(d.profiles[k], k, d.users[k], d.categories[k % 6].id, dr.loyalty[k]);
    }
    forall k, x | 0 <= k < 8 && x in d.users[k].orders ensures x in OrderIds(d.orders) {
      OrderListSound(d.orders, d.users[k].id, x);
      var t :| 0 <= t < |d.orders| && d.orders[t].id == x && d.orders[t].user == d.users[k].id;
      assert OrderIds(d.orders)[t] == x;
    }
  }

  lemma OrdersResolved(d: Db, dr: Draws)
    requires DrawsInRange(dr) && OrdersSeeded(d, dr)
    ensures OrdersResolve(d)
  {
    forall i | 0 <= i < OrderCount ensures d.orders[i].user == UserIds(d.users)[i % 8] {
      assert OrderFor(d, i, dr.quantities[i]);
    }
    OrdersSeededListed(d, dr);
    OrderItemsResolve(d);
    ItemProductsResolve(d, dr);
  }

  lemma OrderItemsResolve(d: Db)
    requires ItemsListed(d)
    ensures forall i, x :: 0 <= i < |d.orders| && x in d.orders[i].items ==> x in ItemIds(d.orderItems)
  {
    forall i, x | 0 <= i < |d.orders| && x in d.orders[i].items ensures x in ItemIds(d.orderItems) {
      ItemListSound(d.orderItems, d.orders[i].id, x);
      var t :| 0 <= t < |d.orderItems| && d.orderItems[t].id == x && d.orderItems[t].order == d.orders[i].id;
      assert ItemIds(d.orderItems)[t] == x;
    }
  }

  lemma ItemProductsResolve(d: Db, dr: Draws)
    requires DrawsInRange(dr) && OrdersSeeded(d, dr)
    ensures forall t :: 0 <= t < |d.orderItems| ==> d.orderItems[t].product in ProductIds(d.products)
  {
    forall t | 0 <= t < |d.orderItems| ensures d.orderItems[t].product in ProductIds(d.products) {
      var i, j := ItemOrigin(d, dr, t);
      assert ProductIds(d.products)[(i + j) % 15] == d.orderItems[t].product;
    }
  }

  lemma TasksResolved(d: Db, dr: Draws)
    requires DrawsInRange(dr) && TasksSeeded(d, dr)
    ensures TasksResolve(d)
  {
    forall t | 0 <= t < 40 ensures d.tasks[t].user == UserIds(d.users)[t / 5] {
      assert TaskFor(d.tasks[t], d.users[t / 5].id, TaskTemplates[t % 5], dr.completed[t], dr.clock[t]);
    }
  }

  /** The references of a seeded database all resolve. */
  lemma SeededResolves(d: Db, dr: Draws)
    requires DrawsInRange(dr) && Seeded(d, dr)
    ensures CatalogResolves(d) && AccountsResolve(d) && OrdersResolve(d) && TasksResolve(d)
  {
    CatalogResolved(d, dr);
    AccountsResolved(d, dr);
    OrdersResolved(d, dr);
    TasksResolved(d, dr);
  }

  // ---------------------------------------------------------------------
  // Fields drawn or derived from the index
  // ---------------------------------------------------------------------

  /** Profile `i`: loyalty balance in [0,499], born on day 1 to 28 of month
      `i mod 12` of year `1990 + i`, female exactly when `i` is even. */
  lemma ProfileFields(d: Db, dr: Draws)
    requires DrawsInRange(dr) && ProfilesSeeded(d, dr)
    ensures forall i :: 0 <= i < 8 ==>
      0 <= d.profiles[i].loyaltyPoints <= 499 &&
      d.profiles[i].dateOfBirth.year == 1990 + i && d.profiles[i].dateOfBirth.month == i % 12 &&
      1 <= d.profiles[i].dateOfBirth.day <= 28 &&
      (d.profiles[i].gender == Female <==> i % 2 == 0)
  {
    forall i | 0 <= i < 8
      ensures 0 <= d.profiles[i].loyaltyPoints <= 499 && 1 <= d.profiles[i].dateOfBirth.day <= 28
    {
      assert ProfileFor(d.profiles[i], i, d.users[i], d.categories[i % 6].id, dr.loyalty[i]);
    }
  }

  /** Every rating is in [3,5]; review `t` is listed under product
      `t mod 15`, so every product has at least one review. */
  lemma EveryProductReviewed(d: Db, dr: Draws)
    requires DrawsInRange(dr) && ReviewsSeeded(d, dr) && Ascending(ReviewIds(d.reviews), d.nextId)
    ensures forall t :: 0 <= t < ReviewCount ==>
      3 <= d.reviews[t].rating <= 5 && d.reviews[t].id in d.products[t % 15].reviews
    ensures forall k :: 0 <= k < 15 ==> |d.products[k].reviews| >= 1
  {
    forall t | 0 <= t < ReviewCount
      ensures 3 <= d.reviews[t].rating <= 5 && d.reviews[t].id in d.products[t % 15].reviews
    {
      assert ReviewFor(d.reviews[t], t, d.users[t % 8].id, d.products[t % 15].id, dr.ratings[t]);
      assert d.products[t % 15].reviews == ReviewIds(ReviewsOf(d.reviews, d.products[t % 15].id));
      ReviewListed(d.reviews, d.products[t % 15].id, d.nextId, t);
    }
    forall k | 0 <= k < 15 ensures |d.products[k].reviews| >= 1 {
      assert d.reviews[k].id in d.products[k % 15].reviews;
    }
  }

  /** Order `i` is placed by user `i mod 8` and shipped to that user's
      address, is paid exactly when `i mod 3 != 0`, and is dated day 1 to
      28 of month `i mod 12` of 2024. */
  lemma OrderFields(d: Db, dr: Draws)
    requires DrawsInRange(dr) && OrdersSeeded(d, dr)
    ensures forall i :: 0 <= i < OrderCount ==>
      d.orders[i].user == d.users[i % 8].id && d.orders[i].shippingAddress == d.users[i % 8].address &&
      (d.orders[i].isPaid <==> i % 3 != 0) &&
      d.orders[i].createdAt.year == 2024 && d.orders[i].createdAt.month == i % 12 &&
      1 <= d.orders[i].createdAt.day <= 28
  {
    forall i | 0 <= i < OrderCount
      ensures d.orders[i].user == d.users[i % 8].id && d.orders[i].shippingAddress == d.users[i % 8].address &&
              (d.orders[i].isPaid <==> i % 3 != 0) &&
              d.orders[i].createdAt.year == 2024 && d.orders[i].createdAt.month == i % 12 &&
              1 <= d.orders[i].createdAt.day <= 28
    {
      assert OrderFor(d, i, dr.quantities[i]);
    }
  }

  /** Tasks `5u` to `5u + 4`, and no others, belong to user `u`; a task
      has a completion date exactly when it is completed; and its discount
      is a tenth of its points, between 2 and 10. */
  lemma TaskFields(d: Db, dr: Draws)
    requires DrawsInRange(dr) && TasksSeeded(d, dr) && Ascending(UserIds(d.users), d.nextId)
    ensures forall t, u :: 0 <= t < 40 && 0 <= u < 8 ==> (d.tasks[t].user == d.users[u].id <==> t / 5 == u)
    ensures forall t :: 0 <= t < 40 ==>
      (d.tasks[t].completedAt.Some? <==> d.tasks[t].status == Completed) &&
      d.tasks[t].discountPoints == d.tasks[t].points / 10 && 2 <= d.tasks[t].discountPoints <= 10
  {
    AscendingPairs(UserIds(d.users), d.nextId);
    forall t, u | 0 <= t < 40 && 0 <= u < 8
      ensures d.tasks[t].user == d.users[u].id <==> t / 5 == u
    {
      assert TaskFor(d.tasks[t], d.users[t / 5].id, TaskTemplates[t % 5], dr.completed[t], dr.clock[t]);
      assert UserIds(d.users)[u] == d.users[u].id && UserIds(d.users)[t / 5] == d.users[t / 5].id;
    }
    forall t | 0 <= t < 40
      ensures (d.tasks[t].completedAt.Some? <==> d.tasks[t].status == Completed) &&
              d.tasks[t].discountPoints == d.tasks[t].points / 10 && 2 <= d.tasks[t].discountPoints <= 10
    {
      assert TaskFor(d.tasks[t], d.users[t / 5].id, TaskTemplates[t % 5], dr.completed[t], dr.clock[t]);
      assert 20 <= TaskTemplates[t % 5].points <= 100;
    }
  }
}
