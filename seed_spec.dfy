/** What a run of the seed script (`seedDatabase`) establishes, stated on the
    database value: each entity as a function of its index, the templates
    and the random draws, and each back-reference list as the children that
    name the parent, in creation order. */
module SeedSpec {
  import opened Wrappers
  import opened Entities
  import Text

  /** The script's calls to `Math.random()` and `new Date()`, supplied by the
      caller: one loyalty balance per profile, one rating per review, for
      each order the quantities of its items (their number is the drawn
      item count), one completion coin per task and one clock reading per
      task. */
  datatype Draws = Draws(
    loyalty: seq<int>, ratings: seq<int>, quantities: seq<seq<int>>,
    completed: seq<bool>, clock: seq<Date>)

  /** Every draw lies in the closed interval the script draws it from. */
  predicate DrawsInRange(dr: Draws)
  {
    |dr.loyalty| == 8 && (forall i :: 0 <= i < 8 ==> 0 <= dr.loyalty[i] <= 499) &&
    |dr.ratings| == ReviewCount && (forall i :: 0 <= i < ReviewCount ==> 3 <= dr.ratings[i] <= 5) &&
    |dr.quantities| == OrderCount &&
    (forall i :: 0 <= i < OrderCount ==> 1 <= |dr.quantities[i]| <= 4) &&
    (forall i, j :: 0 <= i < OrderCount && 0 <= j < |dr.quantities[i]| ==> 1 <= dr.quantities[i][j] <= 3) &&
    |dr.completed| == 40 && |dr.clock| == 40
  }

  /** The number of order items the drawn quantities call for. */
  function ItemCount(qs: seq<seq<int>>): nat
    decreases |qs|
  {
    if |qs| == 0 then 0 else ItemCount(qs[..|qs| - 1]) + |qs[|qs| - 1]|
  }

  // ---------------------------------------------------------------------
  // Children of a parent, in creation order (the forward references)
  // ---------------------------------------------------------------------

  /** The reviews naming `product`, in creation order. */
  function ReviewsOf(rs: seq<Review>, product: Id): seq<Review>
    decreases |rs|
  {
    if |rs| == 0 then []
    else
      var last := rs[|rs| - 1];
      ReviewsOf(rs[..|rs| - 1], product) + (if last.product == product then [last] else [])
  }

  /** The orders naming `user`, in creation order. */
  function OrdersOf(os: seq<Order>, user: Id): seq<Order>
    decreases |os|
  {
    if |os| == 0 then []
    else
      var last := os[|os| - 1];
      OrdersOf(os[..|os| - 1], user) + (if last.user == user then [last] else [])
  }

  /** The order items naming `order`, in creation order. */
  function ItemsOf(its: seq<OrderItem>, order: Id): seq<OrderItem>
    decreases |its|
  {
    if |its| == 0 then []
    else
      var last := its[|its| - 1];
      ItemsOf(its[..|its| - 1], order) + (if last.order == order then [last] else [])
  }

  /** Sum of price times quantity over some order items. */
  function Total(its: seq<OrderItem>): int
    decreases |its|
  {
    if |its| == 0 then 0
    else Total(its[..|its| - 1]) + its[|its| - 1].price * its[|its| - 1].quantity
  }

  // ---------------------------------------------------------------------
  // Each entity as a function of its index
  // ---------------------------------------------------------------------

  predicate CategoryFromTemplate(c: Category, t: CategoryTemplate)
  {
    CategoryTemplate(c.name, c.description) == t
  }

  /** A product carries its template's attributes and exactly one category. */
  predicate ProductFromTemplate(p: Product, t: ProductTemplate, category: Id)
  {
    ProductTemplate(p.name, p.description, p.price, p.stock, p.brand, p.rating) == t &&
    p.categories == [category]
  }

  /** A user carries its template's attributes; the password is stored
      hashed, never as the template's clear text. */
  predicate UserFromTemplate(u: User, t: UserTemplate)
  {
    u.password.Hashed? &&
    UserTemplate(u.username, u.email, u.password.digestOf, u.phone, u.address) == t
  }

  /** Profile `i`, owned by user `u`. The names are the pieces of the
      username around '_' (the second one undefined when there is none). */
  predicate ProfileFor(p: Profile, i: nat, u: User, category: Id, points: int)
  {
    var parts := Text.Split(u.username, '_');
    p.user == u.id &&
    p.firstName == parts[0] &&
    p.lastName == (if |parts| > 1 then Some(parts[1]) else None) &&
    p.dateOfBirth == Date(1990 + i, i % 12, (i * 3) % 28 + 1) &&
    p.gender == (if i % 2 == 0 then Female else Male) &&
    p.loyaltyPoints == points &&
    p.skinType == SkinTypes[i % 4] && p.concerns == Concerns[i % 3] &&
    p.favoriteCategories == [category]
  }

  /** Review `i`: whatever its id, it is by `user` on `product` with the
      drawn rating and the comment of index `i mod 8`. */
  predicate ReviewFor(r: Review, i: nat, user: Id, product: Id, rating: int)
  {
    r == Review(r.id, user, product, rating, ReviewComments[i % 8])
  }

  /** The header fields of order `i`, placed by user `u`. */
  predicate OrderHeader(o: Order, i: nat, u: User)
  {
    o == Order(o.id, u.id, o.items, o.totalPrice, OrderStatuses[i % 4], u.address,
               PaymentMethods[i % 3], i % 3 != 0, Date(2024, i % 12, (i * 2) % 28 + 1))
  }

  /** The items of order `i`: item `j` is for product `(i + j) mod 15`, in
      the drawn quantity, at the price that product had when the item was
      created. */
  predicate ItemsFor(its: seq<OrderItem>, i: nat, q: seq<int>, products: seq<Product>)
    requires |products| == 15
  {
    |its| == |q| &&
    forall j :: 0 <= j < |q| ==>
      its[j].product == products[(i + j) % 15].id && its[j].quantity == q[j] &&
      its[j].price == products[(i + j) % 15].price
  }

  predicate TaskFor(t: Task, user: Id, tt: TaskTemplate, completed: bool, now: Date)
  {
    t.user == user &&
    TaskTemplate(t.title, t.description, t.points, t.category, t.kind) == tt &&
    t.discountPoints == tt.points / 10 &&
    t.status == (if completed then Completed else Open) &&
    t.completedAt == (if completed then Some(now) else None)
  }

  // ---------------------------------------------------------------------
  // The state after each phase
  // ---------------------------------------------------------------------

  predicate Emptied(d: Db)
  {
    d.categories == [] && d.products == [] && d.users == [] && d.profiles == [] &&
    d.orders == [] && d.orderItems == [] && d.reviews == [] && d.tasks == []
  }

  predicate CategoriesSeeded(d: Db)
  {
    |d.categories| == 6 &&
    forall i :: 0 <= i < 6 ==> CategoryFromTemplate(d.categories[i], CategoryTemplates[i])
  }

  predicate ProductsSeeded(d: Db)
  {
    |d.categories| == 6 && |d.products| == 15 &&
    forall i :: 0 <= i < 15 ==> ProductFromTemplate(d.products[i], ProductTemplates[i], d.categories[i % 6].id)
  }

  predicate UsersSeeded(d: Db)
  {
    |d.users| == 8 &&
    forall i :: 0 <= i < 8 ==> UserFromTemplate(d.users[i], UserTemplates[i])
  }

  /** Phase 3 after `i` users: user `k` is made from template `k`, with no
      profile and no orders yet. */
  predicate UsersBuilt(us: seq<User>, i: nat)
  {
    i <= |UserTemplates| && |us| == i &&
    forall k :: 0 <= k < i ==>
      UserFromTemplate(us[k], UserTemplates[k]) && us[k].profile == None && us[k].orders == []
  }

  /** The user made from template `i` extends `UsersBuilt` by one. */
  lemma UserPush(us: seq<User>, u: User, i: nat)
    requires i < |UserTemplates| && UsersBuilt(us, i)
    requires UserFromTemplate(u, UserTemplates[i]) && u.profile == None && u.orders == []
    ensures UsersBuilt(us + [u], i + 1)
  {
    forall k | 0 <= k < i + 1
      ensures UserFromTemplate((us + [u])[k], UserTemplates[k])
    {
      if k < i {
        assert (us + [u])[k] == us[k];
      }
    }
  }

  /** Profile `i` belongs to user `i`, and user `i` points back to it. */
  predicate ProfilesSeeded(d: Db, dr: Draws)
    requires DrawsInRange(dr)
  {
    |d.categories| == 6 && |d.users| == 8 && |d.profiles| == 8 &&
    forall i :: 0 <= i < 8 ==>
      ProfileFor(d.profiles[i], i, d.users[i], d.categories[i % 6].id, dr.loyalty[i]) &&
      d.users[i].profile == Some(d.profiles[i].id)
  }

  /** Profile `k` made for user `k` as it was before the phase still
      describes that user once the user's profile link is set, since the
      link is the only thing that changed. */
  lemma ProfilesRelinked(before: Db, d: Db, dr: Draws)
    requires DrawsInRange(dr)
    requires |d.categories| == 6 && |before.users| == 8 && |d.users| == 8 && |d.profiles| == 8
    requires forall k :: 0 <= k < 8 ==> d.users[k] == before.users[k].(profile := d.users[k].profile)
    requires forall k :: 0 <= k < 8 ==>
      ProfileFor(d.profiles[k], k, before.users[k], d.categories[k % 6].id, dr.loyalty[k]) &&
      d.users[k].profile == Some(d.profiles[k].id)
    ensures ProfilesSeeded(d, dr)
  {
    forall k | 0 <= k < 8
      ensures ProfileFor(d.profiles[k], k, d.users[k], d.categories[k % 6].id, dr.loyalty[k])
    {
      assert d.users[k].username == before.users[k].username;
    }
  }

  /** Each product's review list is the ids of the reviews naming it. */
  predicate ReviewsLinked(d: Db)
  {
    forall k :: 0 <= k < |d.products| ==>
      d.products[k].reviews == ReviewIds(ReviewsOf(d.reviews, d.products[k].id))
  }

  predicate ReviewsSeeded(d: Db, dr: Draws)
    requires DrawsInRange(dr)
  {
    |d.users| == 8 && |d.products| == 15 && |d.reviews| == ReviewCount &&
    (forall i :: 0 <= i < ReviewCount ==>
      ReviewFor(d.reviews[i], i, d.users[i % 8].id, d.products[i % 15].id, dr.ratings[i])) &&
    ReviewsLinked(d)
  }

  /** Order `i` with its items, their ids in the order's list and its total. */
  predicate OrderFor(d: Db, i: nat, q: seq<int>)
    requires i < |d.orders| && |d.users| == 8 && |d.products| == 15
  {
    var o := d.orders[i];
    var its := ItemsOf(d.orderItems, o.id);
    OrderHeader(o, i, d.users[i % 8]) && ItemsFor(its, i, q, d.products) &&
    o.items == ItemIds(its) && o.totalPrice == Total(its)
  }

  /** Each user's order list is the ids of the orders naming it. */
  predicate OrdersLinked(d: Db)
  {
    forall u :: 0 <= u < |d.users| ==> d.users[u].orders == OrderIds(OrdersOf(d.orders, d.users[u].id))
  }

  /** Every order item belongs to a stored order. */
  predicate ItemsOwned(d: Db)
  {
    forall t :: 0 <= t < |d.orderItems| ==> d.orderItems[t].order in OrderIds(d.orders)
  }

  predicate OrdersSeeded(d: Db, dr: Draws)
    requires DrawsInRange(dr)
  {
    |d.users| == 8 && |d.products| == 15 && |d.orders| == OrderCount &&
    (forall i :: 0 <= i < OrderCount ==> OrderFor(d, i, dr.quantities[i])) &&
    |d.orderItems| == ItemCount(dr.quantities) &&
    ItemsOwned(d) && OrdersLinked(d)
  }

  /** Task `t` is template `t mod 5` for user `t div 5`. */
  predicate TasksSeeded(d: Db, dr: Draws)
    requires DrawsInRange(dr)
  {
    |d.users| == 8 && |d.tasks| == 40 &&
    forall t :: 0 <= t < 40 ==>
      TaskFor(d.tasks[t], d.users[t / 5].id, TaskTemplates[t % 5], dr.completed[t], dr.clock[t])
  }

  /** The phases of a run, in their fixed dependency order. */
  datatype Phase = Reset | Categories | Products | Users | Profiles | Reviews | Orders | Tasks

  /** The phases after the reset, in the order the script runs them. */
  const Phases: seq<Phase> := [Categories, Products, Users, Profiles, Reviews, Orders, Tasks]

  function Rank(p: Phase): nat
  {
    match p
    case Reset => 0
    case Categories => 1
    case Products => 2
    case Users => 3
    case Profiles => 4
    case Reviews => 5
    case Orders => 6
    case Tasks => 7
  }

  /** The phase list is in rank order. */
  lemma PhaseRank(i: nat)
    requires i < |Phases|
    ensures Rank(Phases[i]) == i + 1
  {
  }

  /** Every phase of rank below `r` is complete. */
  predicate Done(d: Db, r: nat, dr: Draws)
    requires DrawsInRange(dr)
  {
    (r > 1 ==> CategoriesSeeded(d)) &&
    (r > 2 ==> ProductsSeeded(d)) &&
    (r > 3 ==> UsersSeeded(d)) &&
    (r > 4 ==> ProfilesSeeded(d, dr)) &&
    (r > 5 ==> ReviewsSeeded(d, dr)) &&
    (r > 6 ==> OrdersSeeded(d, dr)) &&
    (r > 7 ==> TasksSeeded(d, dr))
  }

  /** No phase of rank `r` or later has left a trace: its collection is
      empty and the back-reference lists it fills are still empty. */
  predicate Untouched(d: Db, r: nat)
  {
    (r <= 1 ==> d.categories == []) &&
    (r <= 2 ==> d.products == []) &&
    (r <= 3 ==> d.users == []) &&
    (r <= 4 ==> d.profiles == [] && forall k :: 0 <= k < |d.users| ==> d.users[k].profile == None) &&
    (r <= 5 ==> d.reviews == [] && forall k :: 0 <= k < |d.products| ==> d.products[k].reviews == []) &&
    (r <= 6 ==> d.orders == [] && d.orderItems == [] &&
                forall k :: 0 <= k < |d.users| ==> d.users[k].orders == []) &&
    (r <= 7 ==> d.tasks == [])
  }

  /** A complete, consistent seeded database. */
  predicate Seeded(d: Db, dr: Draws)
    requires DrawsInRange(dr)
  {
    Consistent(d) && Done(d, 8, dr)
  }

  // ---------------------------------------------------------------------
  // How the child lists grow
  // ---------------------------------------------------------------------

  lemma ReviewsOfAppend(rs: seq<Review>, r: Review, product: Id)
    ensures ReviewsOf(rs + [r], product) ==
      ReviewsOf(rs, product) + (if r.product == product then [r] else [])
  {
    assert (rs + [r])[..|rs|] == rs;
  }

  lemma OrdersOfAppend(os: seq<Order>, o: Order, user: Id)
    ensures OrdersOf(os + [o], user) == OrdersOf(os, user) + (if o.user == user then [o] else [])
  {
    assert (os + [o])[..|os|] == os;
  }

  lemma ItemsOfAppend(its: seq<OrderItem>, it: OrderItem, order: Id)
    ensures ItemsOf(its + [it], order) == ItemsOf(its, order) + (if it.order == order then [it] else [])
  {
    assert (its + [it])[..|its|] == its;
  }

  lemma TotalAppend(its: seq<OrderItem>, it: OrderItem)
    ensures Total(its + [it]) == Total(its) + it.price * it.quantity
  {
    assert (its + [it])[..|its|] == its;
  }

  /** Item `j` of order `i`, for product `(i + j) mod 15` at its price,
      extends the items of order `i` by one. */
  lemma ItemsForPush(added: seq<OrderItem>, it: OrderItem, i: nat, q: seq<int>, j: nat, ps: seq<Product>)
    requires |ps| == 15 && j < |q| && ItemsFor(added, i, q[..j], ps)
    requires it.product == ps[(i + j) % 15].id && it.quantity == q[j] && it.price == ps[(i + j) % 15].price
    ensures ItemsFor(added + [it], i, q[..j + 1], ps)
  {
    var a := added + [it];
    forall t | 0 <= t < j + 1
      ensures a[t].product == ps[(i + t) % 15].id && a[t].quantity == q[..j + 1][t] &&
              a[t].price == ps[(i + t) % 15].price
    {
      if t < j {
        assert a[t] == added[t] && q[..j + 1][t] == q[..j][t];
      }
    }
  }

  /** One more item of the same order extends the items' ids and their
      total by that item. */
  lemma ItemPush(added: seq<OrderItem>, it: OrderItem, order: Id)
    requires forall t :: 0 <= t < |added| ==> added[t].order == order
    requires it.order == order
    ensures forall t :: 0 <= t < |added| + 1 ==> (added + [it])[t].order == order
    ensures ItemIds(added + [it]) == ItemIds(added) + [it.id]
    ensures Total(added + [it]) == Total(added) + it.price * it.quantity
  {
    TotalAppend(added, it);
    var a := added + [it];
    assert forall t :: 0 <= t < |added| ==> a[t] == added[t];
    assert ItemIds(a) == ItemIds(added) + [it.id] by {
      assert forall t :: 0 <= t < |added| ==> ItemIds(a)[t] == ItemIds(added)[t];
    }
  }

  lemma ItemCountAppend(qs: seq<seq<int>>, q: seq<int>)
    ensures ItemCount(qs + [q]) == ItemCount(qs) + |q|
  {
    assert (qs + [q])[..|qs|] == qs;
  }

  /** An order that no item names yet has no items. */
  lemma {:induction false} ItemsOfUnnamed(its: seq<OrderItem>, order: Id)
    requires forall t :: 0 <= t < |its| ==> its[t].order != order
    ensures ItemsOf(its, order) == []
    decreases |its|
  {
    if |its| > 0 {
      ItemsOfUnnamed(its[..|its| - 1], order);
    }
  }

  /** Recording a new review in the list of the product it names keeps
      every product's list equal to the reviews naming it. Product ids are
      distinct, so no other product's list is concerned. */
  lemma ReviewLinked(d: Db, r: Review, k: nat, d': Db)
    requires k < |d.products| && r.product == d.products[k].id
    requires Ascending(ProductIds(d.products), d.nextId)
    requires ReviewsLinked(d)
    requires d'.products == d.products[k := d.products[k].(reviews := d.products[k].reviews + [r.id])]
    requires d'.reviews == d.reviews + [r]
    ensures ReviewsLinked(d')
  {
    AscendingPairs(ProductIds(d.products), d.nextId);
    forall m | 0 <= m < |d'.products|
      ensures d'.products[m].reviews == ReviewIds(ReviewsOf(d'.reviews, d'.products[m].id))
    {
      var id := d.products[m].id;
      ReviewsOfAppend(d.reviews, r, id);
      if m == k {
        assert ReviewIds(ReviewsOf(d.reviews, id) + [r]) == ReviewIds(ReviewsOf(d.reviews, id)) + [r.id];
      } else {
        assert ProductIds(d.products)[m] != ProductIds(d.products)[k];
      }
    }
  }

  lemma {:induction false} ItemsOfConcat(its: seq<OrderItem>, more: seq<OrderItem>, order: Id)
    ensures ItemsOf(its + more, order) == ItemsOf(its, order) + ItemsOf(more, order)
    decreases |more|
  {
    if |more| == 0 {
      assert its + more == its;
    } else {
      var n := |more| - 1;
      ItemsOfConcat(its, more[..n], order);
      assert its + more == (its + more[..n]) + [more[n]];
      ItemsOfAppend(its + more[..n], more[n], order);
      assert more == more[..n] + [more[n]];
      ItemsOfAppend(more[..n], more[n], order);
    }
  }

  /** Items that all name `order` are all of its items. */
  lemma {:induction false} ItemsOfAllNamed(its: seq<OrderItem>, order: Id)
    requires forall t :: 0 <= t < |its| ==> its[t].order == order
    ensures ItemsOf(its, order) == its
    decreases |its|
  {
    if |its| > 0 {
      var n := |its| - 1;
      ItemsOfAllNamed(its[..n], order);
      assert its == its[..n] + [its[n]];
    }
  }

  /** An earlier order keeps its items, list and total when a new order
      with a different id gets its items. */
  lemma EarlierOrderKept(d: Db, d': Db, o: Order, added: seq<OrderItem>, k: nat, q: seq<int>)
    requires |d.users| == 8 && |d.products| == 15 && k < |d.orders| && d.orders[k].id != o.id
    requires OrderFor(d, k, q)
    requires |d'.users| == 8 && d'.users[k % 8].id == d.users[k % 8].id &&
             d'.users[k % 8].address == d.users[k % 8].address
    requires d'.products == d.products && d'.orders == d.orders + [o] && d'.orderItems == d.orderItems + added
    requires forall t :: 0 <= t < |added| ==> added[t].order == o.id
    ensures OrderFor(d', k, q)
  {
    var id := d.orders[k].id;
    assert d'.orders[k] == d.orders[k];
    ItemsOfConcat(d.orderItems, added, id);
    ItemsOfUnnamed(added, id);
    assert ItemsOf(d'.orderItems, id) == ItemsOf(d.orderItems, id);
  }

  /** An order id above every stored one is named by no stored item, when
      every item belongs to a stored order. */
  lemma FreshOrderUnnamed(d: Db, id: Id)
    requires Ascending(OrderIds(d.orders), id) && ItemsOwned(d)
    ensures ItemsOf(d.orderItems, id) == []
  {
    AscendingPairs(OrderIds(d.orders), id);
    forall t | 0 <= t < |d.orderItems| ensures d.orderItems[t].order != id {
      assert d.orderItems[t].order in OrderIds(d.orders);
    }
    ItemsOfUnnamed(d.orderItems, id);
  }

  /** The new order, whose id no stored item names yet, gets exactly the
      added items. */
  lemma NewOrderFor(d: Db, d': Db, o: Order, added: seq<OrderItem>, i: nat, q: seq<int>)
    requires |d.users| == 8 && |d.products| == 15 && |d.orders| == i
    requires Ascending(OrderIds(d.orders), o.id) && ItemsOwned(d)
    requires |d'.users| == 8 && d'.users[i % 8].id == d.users[i % 8].id &&
             d'.users[i % 8].address == d.users[i % 8].address
    requires d'.products == d.products && d'.orders == d.orders + [o] && d'.orderItems == d.orderItems + added
    requires forall t :: 0 <= t < |added| ==> added[t].order == o.id
    requires OrderHeader(o, i, d.users[i % 8]) && ItemsFor(added, i, q, d.products)
    requires o.items == ItemIds(added) && o.totalPrice == Total(added)
    ensures OrderFor(d', i, q)
  {
    FreshOrderUnnamed(d, o.id);
    ItemsOfAllNamed(added, o.id);
    ItemsOfConcat(d.orderItems, added, o.id);
    assert d'.orders[i] == o;
    assert ItemsOf(d'.orderItems, o.id) == added;
    assert OrderHeader(o, i, d'.users[i % 8]);
    assert ItemsFor(added, i, q, d'.products);
  }

  /** Items of stored orders and items of the new order all belong to a
      stored order. */
  lemma ItemsStillOwned(d: Db, d': Db, o: Order, added: seq<OrderItem>)
    requires ItemsOwned(d)
    requires d'.orders == d.orders + [o] && d'.orderItems == d.orderItems + added
    requires forall t :: 0 <= t < |added| ==> added[t].order == o.id
    ensures ItemsOwned(d')
  {
    assert OrderIds(d'.orders) == OrderIds(d.orders) + [o.id];
    forall t | 0 <= t < |d'.orderItems| ensures d'.orderItems[t].order in OrderIds(d'.orders) {
      if t < |d.orderItems| {
        assert d'.orderItems[t] == d.orderItems[t];
      } else {
        assert d'.orderItems[t] == added[t - |d.orderItems|];
      }
    }
  }

  /** Adding order `i` (fresh id) with its items keeps every earlier order's
      items, list and total, gives order `i` exactly the added items, and
      keeps every item owned by a stored order. */
  lemma OrderStep(d: Db, d': Db, o: Order, added: seq<OrderItem>, i: nat, qs: seq<seq<int>>)
    requires |d.users| == 8 && |d.products| == 15 && |d.orders| == i && i < |qs|
    requires Ascending(OrderIds(d.orders), o.id)
    requires ItemsOwned(d)
    requires forall k :: 0 <= k < i ==> OrderFor(d, k, qs[k])
    requires |d'.users| == 8
    requires forall k :: 0 <= k < 8 ==> d'.users[k].id == d.users[k].id && d'.users[k].address == d.users[k].address
    requires d'.products == d.products && d'.orders == d.orders + [o] && d'.orderItems == d.orderItems + added
    requires forall t :: 0 <= t < |added| ==> added[t].order == o.id
    requires OrderHeader(o, i, d.users[i % 8]) && ItemsFor(added, i, qs[i], d.products)
    requires o.items == ItemIds(added) && o.totalPrice == Total(added)
    ensures ItemsOwned(d')
    ensures forall k :: 0 <= k <= i ==> OrderFor(d', k, qs[k])
  {
    AscendingPairs(OrderIds(d.orders), o.id);
    forall k | 0 <= k < i ensures OrderFor(d', k, qs[k]) {
      assert d.orders[k].id == OrderIds(d.orders)[k];
      EarlierOrderKept(d, d', o, added, k, qs[k]);
    }
    NewOrderFor(d, d', o, added, i, qs[i]);
    ItemsStillOwned(d, d', o, added);
  }

  /** Recording a new order in the list of the user it names keeps every
      user's list equal to the orders naming it. */
  lemma OrderLinked(d: Db, o: Order, u: nat, d': Db)
    requires u < |d.users| && o.user == d.users[u].id
    requires Ascending(UserIds(d.users), d.nextId)
    requires OrdersLinked(d)
    requires d'.users == d.users[u := d.users[u].(orders := d.users[u].orders + [o.id])]
    requires d'.orders == d.orders + [o]
    ensures OrdersLinked(d')
  {
    AscendingPairs(UserIds(d.users), d.nextId);
    forall m | 0 <= m < |d'.users|
      ensures d'.users[m].orders == OrderIds(OrdersOf(d'.orders, d'.users[m].id))
    {
      var id := d.users[m].id;
      OrdersOfAppend(d.orders, o, id);
      if m == u {
        assert OrderIds(OrdersOf(d.orders, id) + [o]) == OrderIds(OrdersOf(d.orders, id)) + [o.id];
      } else {
        assert UserIds(d.users)[m] != UserIds(d.users)[u];
      }
    }
  }

  /** Since `base`, only users' order lists, orders, items and the id
      counter moved. */
  predicate OrdersFrame(d: Db, base: Db)
  {
    d == base.(users := d.users, orders := d.orders, orderItems := d.orderItems, nextId := d.nextId) &&
    |base.users| == 8 && |d.users| == 8 &&
    (forall k :: 0 <= k < 8 ==> d.users[k] == base.users[k].(orders := d.users[k].orders))
  }

  /** Phase 6 after `i` rounds: the first `i` orders are the ones drawn in
      `qs`, every item has its order, and every user's order list is the
      orders naming it. */
  predicate OrdersBuilt(d: Db, i: nat, qs: seq<seq<int>>)
  {
    |d.users| == 8 && |d.products| == 15 &&
    i <= |qs| && |d.orders| == i && |d.orderItems| == ItemCount(qs[..i]) &&
    (forall k :: 0 <= k < i ==> OrderFor(d, k, qs[k])) && ItemsOwned(d) && OrdersLinked(d)
  }

  /** Adding order `i` with its items, and recording it with its user,
      extends the drawn orders by one and keeps both directions of the
      order links. */
  lemma OrderAdvanced(d: Db, d': Db, o: Order, added: seq<OrderItem>, i: nat, qs: seq<seq<int>>)
    requires |d.users| == 8 && |d.products| == 15 && |d.orders| == i && i < |qs|
    requires Ascending(OrderIds(d.orders), o.id) && Ascending(UserIds(d.users), d.nextId)
    requires (forall k :: 0 <= k < i ==> OrderFor(d, k, qs[k])) && ItemsOwned(d) && OrdersLinked(d)
    requires d'.products == d.products
    requires d'.orders == d.orders + [o] && d'.orderItems == d.orderItems + added
    requires d'.users == d.users[i % 8 := d.users[i % 8].(orders := d.users[i % 8].orders + [o.id])]
    requires forall t :: 0 <= t < |added| ==> added[t].order == o.id
    requires OrderHeader(o, i, d.users[i % 8]) && ItemsFor(added, i, qs[i], d.products)
    requires o.items == ItemIds(added) && o.totalPrice == Total(added)
    ensures (forall k :: 0 <= k < i + 1 ==> OrderFor(d', k, qs[k])) && ItemsOwned(d') && OrdersLinked(d')
  {
    OrderStep(d, d', o, added, i, qs);
    OrderLinked(d, o, i % 8, d');
  }

  /** The items of one more order add its number of quantities. */
  lemma ItemCountStep(qs: seq<seq<int>>, i: nat, n: nat, m: nat)
    requires i < |qs| && n == ItemCount(qs[..i]) && m == |qs[i]|
    ensures n + m == ItemCount(qs[..i + 1])
  {
    assert qs[..i + 1] == qs[..i] + [qs[i]];
    ItemCountAppend(qs[..i], qs[i]);
  }

  /** Appending to one user's order list keeps `OrdersFrame`. */
  lemma FrameRound(base: Db, d: Db, d': Db, u: nat, id: Id)
    requires OrdersFrame(d, base) && u < 8
    requires d' == d.(users := d'.users, orders := d'.orders, orderItems := d'.orderItems, nextId := d'.nextId)
    requires d'.users == d.users[u := d.users[u].(orders := d.users[u].orders + [id])]
    ensures OrdersFrame(d', base)
  {
    forall k | 0 <= k < 8 ensures d'.users[k] == base.users[k].(orders := d'.users[k].orders) {
      assert d.users[k] == base.users[k].(orders := d.users[k].orders);
    }
  }

  /** One round of phase 6 keeps `OrdersBuilt`. */
  lemma OrderRound(d: Db, d': Db, o: Order, added: seq<OrderItem>, i: nat, qs: seq<seq<int>>)
    requires i < |qs| && OrdersBuilt(d, i, qs)
    requires Ascending(OrderIds(d.orders), o.id) && Ascending(UserIds(d.users), d.nextId)
    requires d'.products == d.products
    requires d'.orders == d.orders + [o] && d'.orderItems == d.orderItems + added
    requires d'.users == d.users[i % 8 := d.users[i % 8].(orders := d.users[i % 8].orders + [o.id])]
    requires forall t :: 0 <= t < |added| ==> added[t].order == o.id
    requires OrderHeader(o, i, d.users[i % 8]) && ItemsFor(added, i, qs[i], d.products)
    requires o.items == ItemIds(added) && o.totalPrice == Total(added)
    ensures OrdersBuilt(d', i + 1, qs)
  {
    OrderAdvanced(d, d', o, added, i, qs);
    ItemCountStep(qs, i, |d.orderItems|, |added|);
  }

  /** Phase 7 after the tasks of `n` users-times-templates: task `t` is
      template `t mod 5` for user `t div 5`. */
  predicate TasksBuilt(d: Db, n: nat, dr: Draws)
  {
    |d.users| == 8 && n <= 40 && |dr.completed| == 40 && |dr.clock| == 40 && |d.tasks| == n &&
    forall t :: 0 <= t < n ==>
      TaskFor(d.tasks[t], d.users[t / 5].id, TaskTemplates[t % 5], dr.completed[t], dr.clock[t])
  }

  /** Tasks of user `i` (its five, or the first of them), appended after
      those of the users before it, extend `TasksBuilt` by as many. */
  lemma TaskRound(d: Db, d': Db, added: seq<Task>, i: nat, dr: Draws)
    requires i < 8 && TasksBuilt(d, 5 * i, dr)
    requires d'.users == d.users && d'.tasks == d.tasks + added && |added| <= 5
    requires forall j :: 0 <= j < |added| ==>
      TaskFor(added[j], d.users[i].id, TaskTemplates[j], dr.completed[5 * i + j], dr.clock[5 * i + j])
    ensures TasksBuilt(d', 5 * i + |added|, dr)
  {
    forall t | 0 <= t < 5 * i + |added|
      ensures TaskFor(d'.tasks[t], d'.users[t / 5].id, TaskTemplates[t % 5], dr.completed[t], dr.clock[t])
    {
      if t >= 5 * i {
        var j := t - 5 * i;
        assert t / 5 == i && t % 5 == j;
        assert d'.tasks[t] == added[j];
      } else {
        assert d'.tasks[t] == d.tasks[t];
      }
    }
  }

  // ---------------------------------------------------------------------
  // What each phase keeps and adds
  // ---------------------------------------------------------------------

  /** A truncated store has every phase still to run. */
  lemma ResetLeaves(d: Db)
    requires Emptied(d)
    ensures Untouched(d, 1)
  {
  }

  /** Phase 1 writes only categories: completed, it reaches rank 2. */
  lemma CategoriesPhase(d: Db, d': Db, dr: Draws)
    requires DrawsInRange(dr) && Untouched(d, 1)
    requires d' == d.(categories := d'.categories, nextId := d'.nextId)
    ensures Done(d', 1, dr) && Untouched(d', 2)
    ensures CategoriesSeeded(d') ==> Done(d', 2, dr)
  {
  }

  /** Phase 2 writes only products, none with reviews. */
  lemma ProductsPhase(d: Db, d': Db, dr: Draws)
    requires DrawsInRange(dr) && Done(d, 2, dr) && Untouched(d, 2)
    requires d' == d.(products := d'.products, nextId := d'.nextId)
    requires forall k :: 0 <= k < |d'.products| ==> d'.products[k].reviews == []
    ensures Done(d', 2, dr) && Untouched(d', 3)
    ensures ProductsSeeded(d') ==> Done(d', 3, dr)
  {
  }

  /** Phase 3 writes only users, none linked to a profile or an order. */
  lemma UsersPhase(d: Db, d': Db, dr: Draws)
    requires DrawsInRange(dr) && Done(d, 3, dr) && Untouched(d, 3)
    requires d' == d.(users := d'.users, nextId := d'.nextId)
    requires forall k :: 0 <= k < |d'.users| ==> d'.users[k].profile == None && d'.users[k].orders == []
    ensures Done(d', 3, dr) && Untouched(d', 4)
    ensures UsersSeeded(d') ==> Done(d', 4, dr)
  {
  }

  /** Phase 4 writes profiles and sets only the users' profile links. */
  lemma ProfilesPhase(d: Db, d': Db, dr: Draws)
    requires DrawsInRange(dr) && Done(d, 4, dr) && Untouched(d, 4)
    requires d' == d.(users := d'.users, profiles := d'.profiles, nextId := d'.nextId)
    requires |d'.users| == |d.users|
    requires forall k :: 0 <= k < |d.users| ==> d'.users[k] == d.users[k].(profile := d'.users[k].profile)
    ensures Done(d', 4, dr) && Untouched(d', 5)
    ensures ProfilesSeeded(d', dr) ==> Done(d', 5, dr)
  {
    assert forall k :: 0 <= k < |d.users| ==> d'.users[k].orders == d.users[k].orders;
    forall k | 0 <= k < 8 ensures UserFromTemplate(d'.users[k], UserTemplates[k]) {
      assert UserFromTemplate(d.users[k], UserTemplates[k]);
    }
  }

  /** Phase 5 writes reviews and sets only the products' review lists. */
  lemma ReviewsPhase(d: Db, d': Db, dr: Draws)
    requires DrawsInRange(dr) && Done(d, 5, dr) && Untouched(d, 5)
    requires d' == d.(products := d'.products, reviews := d'.reviews, nextId := d'.nextId)
    requires |d'.products| == |d.products|
    requires forall k :: 0 <= k < |d.products| ==> d'.products[k] == d.products[k].(reviews := d'.products[k].reviews)
    ensures Done(d', 5, dr) && Untouched(d', 6)
    ensures ReviewsSeeded(d', dr) ==> Done(d', 6, dr)
  {
    forall k | 0 <= k < 15 ensures ProductFromTemplate(d'.products[k], ProductTemplates[k], d'.categories[k % 6].id) {
      assert ProductFromTemplate(d.products[k], ProductTemplates[k], d.categories[k % 6].id);
    }
  }

  /** Phase 6 writes orders and their items and sets only the users' order
      lists. */
  lemma OrdersPhase(d: Db, d': Db, dr: Draws)
    requires DrawsInRange(dr) && Done(d, 6, dr) && Untouched(d, 6)
    requires d' == d.(users := d'.users, orders := d'.orders, orderItems := d'.orderItems, nextId := d'.nextId)
    requires |d'.users| == |d.users|
    requires forall k :: 0 <= k < |d.users| ==> d'.users[k] == d.users[k].(orders := d'.users[k].orders)
    ensures Done(d', 6, dr) && Untouched(d', 7)
    ensures OrdersSeeded(d', dr) ==> Done(d', 7, dr)
  {
    forall k | 0 <= k < 8 ensures UserFromTemplate(d'.users[k], UserTemplates[k]) {
      assert UserFromTemplate(d.users[k], UserTemplates[k]);
    }
    forall k | 0 <= k < 8
      ensures ProfileFor(d'.profiles[k], k, d'.users[k], d'.categories[k % 6].id, dr.loyalty[k]) &&
              d'.users[k].profile == Some(d'.profiles[k].id)
    {
      assert d'.users[k].username == d.users[k].username;
    }
    forall k | 0 <= k < ReviewCount
      ensures ReviewFor(d'.reviews[k], k, d'.users[k % 8].id, d'.products[k % 15].id, dr.ratings[k])
    {
      assert ReviewFor(d.reviews[k], k, d.users[k % 8].id, d.products[k % 15].id, dr.ratings[k]);
    }
  }

  /** Phase 7 writes only tasks. */
  lemma TasksPhase(d: Db, d': Db, dr: Draws)
    requires DrawsInRange(dr) && Done(d, 7, dr) && Untouched(d, 7)
    requires d' == d.(tasks := d'.tasks, nextId := d'.nextId)
    ensures Done(d', 7, dr)
    ensures TasksSeeded(d', dr) ==> Done(d', 8, dr)
  {
    assert d'.(tasks := d.tasks, nextId := d.nextId) == d;
    forall k | 0 <= k < OrderCount ensures OrderFor(d', k, dr.quantities[k]) {
      assert OrderFor(d, k, dr.quantities[k]);
    }
  }

  // ---------------------------------------------------------------------
  // Phase 5 round by round
  // ---------------------------------------------------------------------

  /** Since `base`, only the products' review lists, the reviews and the
      id counter moved. */
  predicate ReviewsFrame(d: Db, base: Db)
  {
    d == base.(products := d.products, reviews := d.reviews, nextId := d.nextId) &&
    |base.products| == 15 && |d.products| == 15 &&
    (forall k :: 0 <= k < 15 ==> d.products[k] == base.products[k].(reviews := d.products[k].reviews))
  }

  /** Phase 5 after `i` rounds: the first `i` reviews are the drawn ones and
      every product's review list is the reviews naming it. */
  predicate ReviewsBuilt(d: Db, base: Db, i: nat, ratings: seq<int>)
  {
    |d.users| == 8 && |base.products| == 15 && i <= |ratings| && |d.reviews| == i &&
    (forall k :: 0 <= k < i ==>
      ReviewFor(d.reviews[k], k, d.users[k % 8].id, base.products[k % 15].id, ratings[k])) &&
    ReviewsLinked(d)
  }

  /** Appending to one product's review list keeps `ReviewsFrame`. */
  lemma ReviewFrameRound(base: Db, d: Db, d': Db, k: nat, id: Id)
    requires ReviewsFrame(d, base) && k < 15
    requires d' == d.(products := d'.products, reviews := d'.reviews, nextId := d'.nextId)
    requires d'.products == d.products[k := d.products[k].(reviews := d.products[k].reviews + [id])]
    ensures ReviewsFrame(d', base)
  {
    forall m | 0 <= m < 15 ensures d'.products[m] == base.products[m].(reviews := d'.products[m].reviews) {
      assert d.products[m] == base.products[m].(reviews := d.products[m].reviews);
    }
  }

  /** One round of phase 5 keeps `ReviewsBuilt`. */
  lemma ReviewRound(base: Db, d: Db, d': Db, r: Review, i: nat, ratings: seq<int>)
    requires i < |ratings| && ReviewsFrame(d, base) && ReviewsBuilt(d, base, i, ratings)
    requires d'.users == d.users && d'.reviews == d.reviews + [r] && ReviewsLinked(d')
    requires ReviewFor(r, i, d.users[i % 8].id, d.products[i % 15].id, ratings[i])
    ensures ReviewsBuilt(d', base, i + 1, ratings)
  {
    assert d.products[i % 15].id == base.products[i % 15].id;
    forall k | 0 <= k < i + 1
      ensures ReviewFor(d'.reviews[k], k, d'.users[k % 8].id, base.products[k % 15].id, ratings[k])
    {
      if k < i {
        assert d'.reviews[k] == d.reviews[k];
      }
    }
  }

  /** After the twentieth round the reviews are seeded. */
  lemma ReviewsFinished(base: Db, d: Db, dr: Draws)
    requires DrawsInRange(dr) && ReviewsFrame(d, base) && ReviewsBuilt(d, base, ReviewCount, dr.ratings)
    ensures ReviewsSeeded(d, dr)
  {
    forall k | 0 <= k < ReviewCount
      ensures ReviewFor(d.reviews[k], k, d.users[k % 8].id, d.products[k % 15].id, dr.ratings[k])
    {
      assert d.products[k % 15].id == base.products[k % 15].id;
    }
  }

  // ---------------------------------------------------------------------
  // What a phase that fails part-way leaves behind
  // ---------------------------------------------------------------------

  /** Phase 4 stopped by a failure: the profiles made so far belong to the
      first users, each of them linked to its profile except perhaps the
      last, whose link was not saved yet; later users have no profile. */
  predicate ProfilesStopped(d: Db, dr: Draws)
    requires DrawsInRange(dr)
  {
    |d.categories| == 6 && |d.users| == 8 && |d.profiles| <= 8 &&
    (forall k :: 0 <= k < |d.profiles| ==>
      ProfileFor(d.profiles[k], k, d.users[k], d.categories[k % 6].id, dr.loyalty[k])) &&
    forall k :: 0 <= k < 8 ==>
      d.users[k].profile == (if k < |d.profiles| then Some(d.profiles[k].id) else None) ||
      (k == |d.profiles| - 1 && d.users[k].profile == None)
  }

  /** Phase 5 stopped by a failure: the reviews made so far are the first
      drawn ones, and every product's list holds the reviews naming it,
      except perhaps the last review, not yet recorded with its product. */
  predicate ReviewsStopped(d: Db, dr: Draws)
    requires DrawsInRange(dr)
  {
    |d.users| == 8 && |d.products| == 15 && |d.reviews| <= ReviewCount &&
    (forall k :: 0 <= k < |d.reviews| ==>
      ReviewFor(d.reviews[k], k, d.users[k % 8].id, d.products[k % 15].id, dr.ratings[k])) &&
    (ReviewsLinked(d) || (|d.reviews| > 0 && ReviewsLinked(d.(reviews := d.reviews[..|d.reviews| - 1]))))
  }

  /** Order `i` as far as its round got: its header, the first of its drawn
      items, and an item list and total either not saved yet (empty and
      zero) or saved with those items. */
  predicate OrderInProgress(d: Db, i: nat, q: seq<int>)
    requires i < |d.orders| && |d.users| == 8 && |d.products| == 15
  {
    var o := d.orders[i];
    var its := ItemsOf(d.orderItems, o.id);
    OrderHeader(o, i, d.users[i % 8]) && |its| <= |q| && ItemsFor(its, i, q[..|its|], d.products) &&
    ((o.items == [] && o.totalPrice == 0) || (o.items == ItemIds(its) && o.totalPrice == Total(its)))
  }

  /** Phase 6 stopped by a failure: every order but the last is complete,
      the last is in progress, every item belongs to a stored order, and
      every user's list holds the orders naming it, except perhaps the last
      order, not yet recorded with its user. */
  predicate OrdersStopped(d: Db, qs: seq<seq<int>>)
  {
    |d.users| == 8 && |d.products| == 15 && |d.orders| <= |qs| &&
    (forall k :: 0 <= k < |d.orders| - 1 ==> OrderFor(d, k, qs[k])) &&
    (|d.orders| > 0 ==> OrderInProgress(d, |d.orders| - 1, qs[|d.orders| - 1])) &&
    ItemsOwned(d) &&
    (OrdersLinked(d) || (|d.orders| > 0 && OrdersLinked(d.(orders := d.orders[..|d.orders| - 1]))))
  }

  /** What the phase `p`, stopped by a failing operation, leaves behind.
      Nothing is undone: the rounds it finished are all stored, and the
      round that failed keeps the writes it made before the failure. A
      failing `insertMany` stores nothing. */
  predicate Stopped(d: Db, p: Phase, dr: Draws)
    requires DrawsInRange(dr)
  {
    (p == Categories ==> d.categories == []) &&
    (p == Products ==> d.products == []) &&
    (p == Users ==> |d.users| < 8 && UsersBuilt(d.users, |d.users|)) &&
    (p == Profiles ==> ProfilesStopped(d, dr)) &&
    (p == Reviews ==> ReviewsStopped(d, dr)) &&
    (p == Orders ==> OrdersStopped(d, dr.quantities)) &&
    (p == Tasks ==> |d.tasks| < 40 && TasksBuilt(d, |d.tasks|, dr))
  }

  /** Phase 4 failing in round `i`: the profiles of the finished rounds,
      and perhaps profile `i` with its user not linked yet. */
  lemma ProfilesHalted(base: Db, d: Db, dr: Draws, i: nat)
    requires DrawsInRange(dr) && i < 8
    requires |d.categories| == 6 && |base.users| == 8 && |d.users| == 8
    requires |d.profiles| == i || |d.profiles| == i + 1
    requires forall k :: 0 <= k < 8 ==> d.users[k] == base.users[k].(profile := d.users[k].profile)
    requires forall k :: 0 <= k < |d.profiles| ==>
      ProfileFor(d.profiles[k], k, base.users[k], d.categories[k % 6].id, dr.loyalty[k])
    requires forall k :: 0 <= k < i ==> d.users[k].profile == Some(d.profiles[k].id)
    requires forall k :: i <= k < 8 ==> d.users[k].profile == None
    ensures ProfilesStopped(d, dr)
  {
    forall k | 0 <= k < |d.profiles|
      ensures ProfileFor(d.profiles[k], k, d.users[k], d.categories[k % 6].id, dr.loyalty[k])
    {
      assert d.users[k].username == base.users[k].username;
    }
  }

  /** Phase 5 failing in round `i`: the reviews of the finished rounds, and
      perhaps review `i` not yet recorded with its product. */
  lemma ReviewsHalted(base: Db, before: Db, d: Db, r: Review, i: nat, dr: Draws)
    requires DrawsInRange(dr) && i < ReviewCount
    requires ReviewsFrame(before, base) && ReviewsBuilt(before, base, i, dr.ratings)
    requires d.users == before.users && d.products == before.products
    requires d.reviews == before.reviews ||
             (d.reviews == before.reviews + [r] &&
              ReviewFor(r, i, before.users[i % 8].id, before.products[i % 15].id, dr.ratings[i]))
    ensures ReviewsStopped(d, dr)
  {
    forall k | 0 <= k < |d.reviews|
      ensures ReviewFor(d.reviews[k], k, d.users[k % 8].id, d.products[k % 15].id, dr.ratings[k])
    {
      assert before.products[k % 15].id == base.products[k % 15].id;
      if k < i {
        assert d.reviews[k] == before.reviews[k];
      }
    }
    if d.reviews != before.reviews {
      assert d.reviews[..i] == before.reviews;
      assert ReviewsLinked(d.(reviews := before.reviews));
    }
  }

  /** A complete order is one in progress that got all its items. */
  lemma CompleteInProgress(d: Db, i: nat, q: seq<int>)
    requires i < |d.orders| && |d.users| == 8 && |d.products| == 15
    requires OrderFor(d, i, q)
    ensures OrderInProgress(d, i, q)
  {
    assert q[..|q|] == q;
  }

  /** Phase 6 failing in round `i` before order `i` was created: the
      orders of the finished rounds, the last of them complete. */
  lemma OrdersHaltedBefore(d: Db, d': Db, i: nat, qs: seq<seq<int>>)
    requires i < |qs| && OrdersBuilt(d, i, qs)
    requires d'.users == d.users && d'.products == d.products
    requires d'.orders == d.orders && d'.orderItems == d.orderItems
    ensures OrdersStopped(d', qs)
  {
    forall k | 0 <= k < i ensures OrderFor(d', k, qs[k]) {
      assert OrderFor(d, k, qs[k]);
    }
    if i > 0 {
      CompleteInProgress(d', i - 1, qs[i - 1]);
    }
    assert ItemsOwned(d') && OrdersLinked(d');
  }

  /** Phase 6 failing in round `i` after order `i` was created: the orders
      of the finished rounds, and order `i` with its first items, not yet
      saved with them or not yet recorded with its user. */
  lemma OrdersHaltedAfter(d: Db, d': Db, o: Order, added: seq<OrderItem>, i: nat, qs: seq<seq<int>>)
    requires i < |qs| && OrdersBuilt(d, i, qs) && Ascending(OrderIds(d.orders), o.id)
    requires d'.users == d.users && d'.products == d.products
    requires d'.orders == d.orders + [o] && d'.orderItems == d.orderItems + added
    requires forall t :: 0 <= t < |added| ==> added[t].order == o.id
    requires OrderHeader(o, i, d.users[i % 8])
    requires |added| <= |qs[i]| && ItemsFor(added, i, qs[i][..|added|], d.products)
    requires (o.items == [] && o.totalPrice == 0) || (o.items == ItemIds(added) && o.totalPrice == Total(added))
    ensures OrdersStopped(d', qs)
  {
    AscendingPairs(OrderIds(d.orders), o.id);
    forall k | 0 <= k < i ensures OrderFor(d', k, qs[k]) {
      assert d.orders[k].id == OrderIds(d.orders)[k];
      EarlierOrderKept(d, d', o, added, k, qs[k]);
    }
    FreshOrderUnnamed(d, o.id);
    ItemsOfAllNamed(added, o.id);
    ItemsOfConcat(d.orderItems, added, o.id);
    assert d'.orders[i] == o;
    assert ItemsOf(d'.orderItems, o.id) == added;
    assert OrderInProgress(d', i, qs[i]);
    ItemsStillOwned(d, d', o, added);
    assert d'.orders[..i] == d.orders;
    assert OrdersLinked(d'.(orders := d.orders));
  }
}
