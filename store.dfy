/** The in-memory entity store that stands in for MongoDB. Each call is one
    store operation; operations are numbered from 0 and operation `n` fails
    exactly when `n` is in `faults`, the environment's choice. A failing
    operation changes nothing; a successful insert hands out identifiers
    from the counter. */
module Storage {
  import opened Wrappers
  import opened Entities

  /** `docs` numbered from `first`, as `insertMany` stores them. */
  function NumberCategories(docs: seq<Category>, first: Id): (r: seq<Category>)
    ensures |r| == |docs|
    ensures CategoryIds(r) == seq(|docs|, k requires 0 <= k < |docs| => first + k)
  {
    seq(|docs|, k requires 0 <= k < |docs| => docs[k].(id := first + k))
  }

  function NumberProducts(docs: seq<Product>, first: Id): (r: seq<Product>)
    ensures |r| == |docs|
    ensures ProductIds(r) == seq(|docs|, k requires 0 <= k < |docs| => first + k)
  {
    seq(|docs|, k requires 0 <= k < |docs| => docs[k].(id := first + k))
  }

  /** The user model's save hook: a clear password is replaced by its digest. */
  function HashPassword(u: User): (r: User)
    ensures r.password.Hashed?
  {
    match u.password
    case Clear(t) => u.(password := Hashed(t))
    case Hashed(_) => u
  }

  /** The database after truncating one collection. */
  function Truncated(d: Db, c: Collection): Db
  {
    match c
    case CategoryDocs => d.(categories := [])
    case ProductDocs => d.(products := [])
    case UserDocs => d.(users := [])
    case ProfileDocs => d.(profiles := [])
    case OrderDocs => d.(orders := [])
    case OrderItemDocs => d.(orderItems := [])
    case ReviewDocs => d.(reviews := [])
    case TaskDocs => d.(tasks := [])
  }

  class Store {
    var db: Db
    var ops: nat
    const faults: set<nat>

    ghost predicate Valid()
      reads this
    {
      Consistent(db)
    }

    /** No operation numbered from `start` up to the current one failed. */
    ghost predicate ClearSince(start: nat)
      reads this
    {
      forall n :: start <= n < ops ==> n !in faults
    }

    /** The last operation failed, and it was the first failure since
        `start`: where a run that stops at its first error stops. */
    ghost predicate FailedFirst(start: nat)
      reads this
    {
      start < ops && ops - 1 in faults &&
      forall n :: start <= n < ops - 1 ==> n !in faults
    }

    constructor (initial: Db, faults: set<nat>)
      requires Consistent(initial)
      ensures Valid() && db == initial && ops == 0 && this.faults == faults
    {
      db := initial;
      ops := 0;
      this.faults := faults;
    }

    /** `collection.dropIndex(name)`: fails when the index does not exist. */
    method DropUserIndex(name: string) returns (ok: bool)
      requires Valid()
      modifies this
      ensures Valid() && ops == old(ops) + 1
      ensures ok == (old(ops) !in faults && name in old(db.userIndexes))
      ensures db == if ok then old(db).(userIndexes := old(db.userIndexes) - {name}) else old(db)
    {
      ok := ops !in faults && name in db.userIndexes;
      ops := ops + 1;
      if ok {
        var next := db.(userIndexes := db.userIndexes - {name});
        assert IdsIn(next, UserDocs) == IdsIn(db, UserDocs);
        Replaced(db, UserDocs, next);
        db := next;
      }
    }

    /** `Model.deleteMany({})`. */
    method DeleteAll(c: Collection) returns (ok: bool)
      requires Valid()
      modifies this
      ensures Valid() && ops == old(ops) + 1
      ensures ok == (old(ops) !in faults)
      ensures db == if ok then Truncated(old(db), c) else old(db)
    {
      ok := ops !in faults;
      ops := ops + 1;
      if ok {
        Replaced(db, c, Truncated(db, c));
        db := Truncated(db, c);
      }
    }

    /** `Category.insertMany(docs)`, as one operation. */
    method InsertCategories(docs: seq<Category>) returns (ok: bool, saved: seq<Category>)
      requires Valid()
      modifies this
      ensures Valid() && ops == old(ops) + 1
      ensures ok == (old(ops) !in faults)
      ensures saved == NumberCategories(docs, old(db.nextId))
      ensures db == if ok then old(db).(categories := old(db.categories) + saved,
                                        nextId := old(db.nextId) + |docs|)
                    else old(db)
    {
      ok := ops !in faults;
      ops := ops + 1;
      saved := NumberCategories(docs, db.nextId);
      if ok {
        var first := db.nextId;
        var next := db.(categories := db.categories + saved, nextId := first + |docs|);
        assert IdsIn(next, CategoryDocs) == CategoryIds(db.categories) + CategoryIds(saved);
        assert Ascending(IdsIn(db, CategoryDocs), db.nextId);
        AscendingRun(CategoryIds(db.categories), first, |docs|);
        Replaced(db, CategoryDocs, next);
        db := next;
      }
    }

    /** `Product.insertMany(docs)`, as one operation. */
    method InsertProducts(docs: seq<Product>) returns (ok: bool, saved: seq<Product>)
      requires Valid()
      modifies this
      ensures Valid() && ops == old(ops) + 1
      ensures ok == (old(ops) !in faults)
      ensures saved == NumberProducts(docs, old(db.nextId))
      ensures db == if ok then old(db).(products := old(db.products) + saved,
                                        nextId := old(db.nextId) + |docs|)
                    else old(db)
    {
      ok := ops !in faults;
      ops := ops + 1;
      saved := NumberProducts(docs, db.nextId);
      if ok {
        var first := db.nextId;
        var next := db.(products := db.products + saved, nextId := first + |docs|);
        assert IdsIn(next, ProductDocs) == ProductIds(db.products) + ProductIds(saved);
        assert Ascending(IdsIn(db, ProductDocs), db.nextId);
        AscendingRun(ProductIds(db.products), first, |docs|);
        Replaced(db, ProductDocs, next);
        db := next;
      }
    }

    /** `new User(doc).save()`: the save hook hashes the password. */
    method InsertUser(doc: User) returns (ok: bool, saved: User)
      requires Valid()
      modifies this
      ensures Valid() && ops == old(ops) + 1
      ensures ok == (old(ops) !in faults)
      ensures saved == HashPassword(doc).(id := old(db.nextId))
      ensures db == if ok then old(db).(users := old(db.users) + [saved], nextId := old(db.nextId) + 1)
                    else old(db)
    {
      ok := ops !in faults;
      ops := ops + 1;
      saved := HashPassword(doc).(id := db.nextId);
      if ok {
        var next := db.(users := db.users + [saved], nextId := db.nextId + 1);
        assert IdsIn(next, UserDocs) == UserIds(db.users) + [saved.id];
        assert Ascending(IdsIn(db, UserDocs), db.nextId);
        AscendingPush(UserIds(db.users), db.nextId);
        Replaced(db, UserDocs, next);
        db := next;
      }
    }

    /** `user.save()` of the `k`-th stored user. */
    method SaveUser(k: nat, doc: User) returns (ok: bool)
      requires Valid()
      requires k < |db.users| && doc.id == db.users[k].id
      modifies this
      ensures Valid() && ops == old(ops) + 1
      ensures ok == (old(ops) !in faults)
      ensures db == if ok then old(db).(users := old(db.users)[k := doc]) else old(db)
    {
      ok := ops !in faults;
      ops := ops + 1;
      if ok {
        var next := db.(users := db.users[k := doc]);
        assert IdsIn(next, UserDocs) == IdsIn(db, UserDocs);
        Replaced(db, UserDocs, next);
        db := next;
      }
    }

    /** `Profile.create(doc)`. */
    method InsertProfile(doc: Profile) returns (ok: bool, saved: Profile)
      requires Valid()
      modifies this
      ensures Valid() && ops == old(ops) + 1
      ensures ok == (old(ops) !in faults)
      ensures saved == doc.(id := old(db.nextId))
      ensures db == if ok then old(db).(profiles := old(db.profiles) + [saved], nextId := old(db.nextId) + 1)
                    else old(db)
    {
      ok := ops !in faults;
      ops := ops + 1;
      saved := doc.(id := db.nextId);
      if ok {
        var next := db.(profiles := db.profiles + [saved], nextId := db.nextId + 1);
        assert IdsIn(next, ProfileDocs) == ProfileIds(db.profiles) + [saved.id];
        assert Ascending(IdsIn(db, ProfileDocs), db.nextId);
        AscendingPush(ProfileIds(db.profiles), db.nextId);
        Replaced(db, ProfileDocs, next);
        db := next;
      }
    }

    /** `Review.create(doc)`. */
    method InsertReview(doc: Review) returns (ok: bool, saved: Review)
      requires Valid()
      modifies this
      ensures Valid() && ops == old(ops) + 1
      ensures ok == (old(ops) !in faults)
      ensures saved == doc.(id := old(db.nextId))
      ensures db == if ok then old(db).(reviews := old(db.reviews) + [saved], nextId := old(db.nextId) + 1)
                    else old(db)
    {
      ok := ops !in faults;
      ops := ops + 1;
      saved := doc.(id := db.nextId);
      if ok {
        var next := db.(reviews := db.reviews + [saved], nextId := db.nextId + 1);
        assert IdsIn(next, ReviewDocs) == ReviewIds(db.reviews) + [saved.id];
        assert Ascending(IdsIn(db, ReviewDocs), db.nextId);
        AscendingPush(ReviewIds(db.reviews), db.nextId);
        Replaced(db, ReviewDocs, next);
        db := next;
      }
    }

    /** `product.save()` of the `k`-th stored product. */
    method SaveProduct(k: nat, doc: Product) returns (ok: bool)
      requires Valid()
      requires k < |db.products| && doc.id == db.products[k].id
      modifies this
      ensures Valid() && ops == old(ops) + 1
      ensures ok == (old(ops) !in faults)
      ensures db == if ok then old(db).(products := old(db.products)[k := doc]) else old(db)
    {
      ok := ops !in faults;
      ops := ops + 1;
      if ok {
        var next := db.(products := db.products[k := doc]);
        assert IdsIn(next, ProductDocs) == IdsIn(db, ProductDocs);
        Replaced(db, ProductDocs, next);
        db := next;
      }
    }

    /** `Order.create(doc)`. */
    method InsertOrder(doc: Order) returns (ok: bool, saved: Order)
      requires Valid()
      modifies this
      ensures Valid() && ops == old(ops) + 1
      ensures ok == (old(ops) !in faults)
      ensures saved == doc.(id := old(db.nextId))
      ensures db == if ok then old(db).(orders := old(db.orders) + [saved], nextId := old(db.nextId) + 1)
                    else old(db)
    {
      ok := ops !in faults;
      ops := ops + 1;
      saved := doc.(id := db.nextId);
      if ok {
        var next := db.(orders := db.orders + [saved], nextId := db.nextId + 1);
        assert IdsIn(next, OrderDocs) == OrderIds(db.orders) + [saved.id];
        assert Ascending(IdsIn(db, OrderDocs), db.nextId);
        AscendingPush(OrderIds(db.orders), db.nextId);
        Replaced(db, OrderDocs, next);
        db := next;
      }
    }

    /** `order.save()` of the `k`-th stored order. */
    method SaveOrder(k: nat, doc: Order) returns (ok: bool)
      requires Valid()
      requires k < |db.orders| && doc.id == db.orders[k].id
      modifies this
      ensures Valid() && ops == old(ops) + 1
      ensures ok == (old(ops) !in faults)
      ensures db == if ok then old(db).(orders := old(db.orders)[k := doc]) else old(db)
    {
      ok := ops !in faults;
      ops := ops + 1;
      if ok {
        var next := db.(orders := db.orders[k := doc]);
        assert IdsIn(next, OrderDocs) == IdsIn(db, OrderDocs);
        Replaced(db, OrderDocs, next);
        db := next;
      }
    }

    /** `OrderItem.create(doc)`. */
    method InsertOrderItem(doc: OrderItem) returns (ok: bool, saved: OrderItem)
      requires Valid()
      modifies this
      ensures Valid() && ops == old(ops) + 1
      ensures ok == (old(ops) !in faults)
      ensures saved == doc.(id := old(db.nextId))
      ensures db == if ok then old(db).(orderItems := old(db.orderItems) + [saved], nextId := old(db.nextId) + 1)
                    else old(db)
    {
      ok := ops !in faults;
      ops := ops + 1;
      saved := doc.(id := db.nextId);
      if ok {
        var next := db.(orderItems := db.orderItems + [saved], nextId := db.nextId + 1);
        assert IdsIn(next, OrderItemDocs) == ItemIds(db.orderItems) + [saved.id];
        assert Ascending(IdsIn(db, OrderItemDocs), db.nextId);
        AscendingPush(ItemIds(db.orderItems), db.nextId);
        Replaced(db, OrderItemDocs, next);
        db := next;
      }
    }

    /** `Task.create(doc)`. */
    method InsertTask(doc: Task) returns (ok: bool, saved: Task)
      requires Valid()
      modifies this
      ensures Valid() && ops == old(ops) + 1
      ensures ok == (old(ops) !in faults)
      ensures saved == doc.(id := old(db.nextId))
      ensures db == if ok then old(db).(tasks := old(db.tasks) + [saved], nextId := old(db.nextId) + 1)
                    else old(db)
    {
      ok := ops !in faults;
      ops := ops + 1;
      saved := doc.(id := db.nextId);
      if ok {
        var next := db.(tasks := db.tasks + [saved], nextId := db.nextId + 1);
        assert IdsIn(next, TaskDocs) == TaskIds(db.tasks) + [saved.id];
        assert Ascending(IdsIn(db, TaskDocs), db.nextId);
        AscendingPush(TaskIds(db.tasks), db.nextId);
        Replaced(db, TaskDocs, next);
        db := next;
      }
    }
  }
}
