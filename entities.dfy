/** The documents of the cosmetics store's database, the template tables the
    seed script builds them from, and the whole database as one value.
    Prices are integer cents and product ratings integer tenths, so that
    every total is exact. */
module Entities {
  import opened Wrappers

  /** A document identifier. The store hands them out from one counter, so
      they are unique and grow with creation order. */
  type Id = nat

  /** A calendar date as given to JavaScript's `new Date(year, month, day)`:
      the month counts from 0. */
  datatype Date = Date(year: int, month: int, day: int)

  /** A stored password. The user model's save hook (not part of this model)
      replaces the clear text with a digest before anything is stored. */
  datatype Credential = Clear(text: string) | Hashed(digestOf: string)

  datatype Category = Category(id: Id, name: string, description: string)

  datatype Product = Product(
    id: Id, name: string, description: string, price: nat, stock: nat,
    brand: string, rating: nat, categories: seq<Id>, reviews: seq<Id>)

  datatype User = User(
    id: Id, username: string, email: string, password: Credential,
    phone: string, address: string, profile: Option<Id>, orders: seq<Id>)

  /** The enumerated string fields. Each value is one of the strings the
      script stores, given by `Name()`. */
  datatype Gender = Female | Male
  {
    function Name(): string
    {
      match this
      case Female => "female"
      case Male => "male"
    }
  }

  datatype SkinType = Normal | Dry | Oily | Combination
  {
    function Name(): string
    {
      match this
      case Normal => "normal"
      case Dry => "dry"
      case Oily => "oily"
      case Combination => "combination"
    }
  }

  datatype Concern = Hydration | AntiAging | Acne
  {
    function Name(): string
    {
      match this
      case Hydration => "hydration"
      case AntiAging => "anti-aging"
      case Acne => "acne"
    }
  }

  datatype OrderStatus = Pending | Processing | Shipped | Delivered
  {
    function Name(): string
    {
      match this
      case Pending => "pending"
      case Processing => "processing"
      case Shipped => "shipped"
      case Delivered => "delivered"
    }
  }

  datatype PaymentMethod = CreditCard | PayPal | BankTransfer
  {
    function Name(): string
    {
      match this
      case CreditCard => "credit_card"
      case PayPal => "paypal"
      case BankTransfer => "bank_transfer"
    }
  }

  datatype TaskCategory = Skincare | Shopping | ReviewTask | Social | Haircare
  {
    function Name(): string
    {
      match this
      case Skincare => "skincare"
      case Shopping => "shopping"
      case ReviewTask => "review"
      case Social => "social"
      case Haircare => "haircare"
    }
  }

  datatype TaskKind = Daily | Onboarding | Weekly | Challenge
  {
    function Name(): string
    {
      match this
      case Daily => "daily"
      case Onboarding => "onboarding"
      case Weekly => "weekly"
      case Challenge => "challenge"
    }
  }

  datatype TaskStatus = Open | Completed
  {
    function Name(): string
    {
      match this
      case Open => "pending"
      case Completed => "completed"
    }
  }

  datatype Profile = Profile(
    id: Id, user: Id, firstName: string, lastName: Option<string>,
    dateOfBirth: Date, gender: Gender, loyaltyPoints: int,
    skinType: SkinType, concerns: Concern, favoriteCategories: seq<Id>)

  datatype Review = Review(id: Id, user: Id, product: Id, rating: int, comment: string)

  datatype Order = Order(
    id: Id, user: Id, items: seq<Id>, totalPrice: int, status: OrderStatus,
    shippingAddress: string, paymentMethod: PaymentMethod, isPaid: bool, createdAt: Date)

  datatype OrderItem = OrderItem(id: Id, order: Id, product: Id, quantity: int, price: int)

  datatype Task = Task(
    id: Id, user: Id, title: string, description: string, category: TaskCategory,
    kind: TaskKind, points: nat, discountPoints: nat, status: TaskStatus,
    completedAt: Option<Date>)

  /** The eight collections the seed script manages. */
  datatype Collection =
    | CategoryDocs | ProductDocs | UserDocs | ProfileDocs
    | OrderDocs | OrderItemDocs | ReviewDocs | TaskDocs

  /** The whole database: every collection in insertion order, the names of
      the indexes on the users collection, and the next identifier. */
  datatype Db = Db(
    categories: seq<Category>, products: seq<Product>, users: seq<User>,
    profiles: seq<Profile>, reviews: seq<Review>, orders: seq<Order>,
    orderItems: seq<OrderItem>, tasks: seq<Task>,
    userIndexes: set<string>, nextId: Id)

  // ---------------------------------------------------------------------
  // Identifier discipline
  // ---------------------------------------------------------------------

  /** Identifiers strictly increasing along a collection and all below the
      counter: so pairwise distinct, and a fresh one is never among them.
      Stated one element at a time from the end (the last one is below the
      bound, the others below the last); `AscendingPairs` gives the pairwise
      reading. */
  predicate Ascending(ids: seq<Id>, bound: Id)
    decreases |ids|
  {
    |ids| == 0 ||
    (ids[|ids| - 1] < bound && Ascending(ids[..|ids| - 1], ids[|ids| - 1]))
  }

  /** The pairwise reading of `Ascending`, both ways. */
  lemma {:induction false} AscendingPairs(ids: seq<Id>, bound: Id)
    ensures Ascending(ids, bound) <==>
      (forall i, j :: 0 <= i < j < |ids| ==> ids[i] < ids[j]) &&
      (forall i :: 0 <= i < |ids| ==> ids[i] < bound)
    decreases |ids|
  {
    if |ids| > 0 {
      var n := |ids| - 1;
      var front := ids[..n];
      AscendingPairs(front, ids[n]);
      assert forall i :: 0 <= i < n ==> front[i] == ids[i];
    }
  }

  /** A larger bound keeps a collection ascending. */
  lemma AscendingRaise(ids: seq<Id>, bound: Id, bound': Id)
    requires Ascending(ids, bound) && bound <= bound'
    ensures Ascending(ids, bound')
  {
  }

  /** Appending a fresh identifier at the bound keeps a collection ascending
      below the next bound. */
  lemma AscendingPush(ids: seq<Id>, bound: Id)
    requires Ascending(ids, bound)
    ensures Ascending(ids + [bound], bound + 1)
  {
    assert (ids + [bound])[..|ids|] == ids;
  }

  /** Appending a run of `n` consecutive fresh identifiers starting at the
      bound keeps a collection ascending below the bound moved past them. */
  lemma {:induction false} AscendingRun(ids: seq<Id>, bound: Id, n: nat)
    requires Ascending(ids, bound)
    ensures Ascending(ids + seq(n, k requires 0 <= k < n => bound + k), bound + n)
    decreases n
  {
    var run := seq(n, k requires 0 <= k < n => bound + k);
    if n == 0 {
      assert ids + run == ids;
    } else {
      var shorter := seq(n - 1, k requires 0 <= k < n - 1 => bound + k);
      AscendingRun(ids, bound, n - 1);
      assert forall k :: 0 <= k < n - 1 ==> run[k] == shorter[k];
      assert run == shorter + [bound + n - 1];
      assert ids + run == (ids + shorter) + [bound + n - 1];
      AscendingPush(ids + shorter, bound + n - 1);
    }
  }

  function CategoryIds(xs: seq<Category>): seq<Id> { seq(|xs|, k requires 0 <= k < |xs| => xs[k].id) }
  function ProductIds(xs: seq<Product>): seq<Id> { seq(|xs|, k requires 0 <= k < |xs| => xs[k].id) }
  function UserIds(xs: seq<User>): seq<Id> { seq(|xs|, k requires 0 <= k < |xs| => xs[k].id) }
  function ProfileIds(xs: seq<Profile>): seq<Id> { seq(|xs|, k requires 0 <= k < |xs| => xs[k].id) }
  function ReviewIds(xs: seq<Review>): seq<Id> { seq(|xs|, k requires 0 <= k < |xs| => xs[k].id) }
  function OrderIds(xs: seq<Order>): seq<Id> { seq(|xs|, k requires 0 <= k < |xs| => xs[k].id) }
  function ItemIds(xs: seq<OrderItem>): seq<Id> { seq(|xs|, k requires 0 <= k < |xs| => xs[k].id) }
  function TaskIds(xs: seq<Task>): seq<Id> { seq(|xs|, k requires 0 <= k < |xs| => xs[k].id) }

  /** The identifiers of one collection, in stored order. */
  function IdsIn(d: Db, c: Collection): seq<Id>
  {
    match c
    case CategoryDocs => CategoryIds(d.categories)
    case ProductDocs => ProductIds(d.products)
    case UserDocs => UserIds(d.users)
    case ProfileDocs => ProfileIds(d.profiles)
    case ReviewDocs => ReviewIds(d.reviews)
    case OrderDocs => OrderIds(d.orders)
    case OrderItemDocs => ItemIds(d.orderItems)
    case TaskDocs => TaskIds(d.tasks)
  }

  /** The store's own invariant: every collection is ascending below the
      counter. */
  predicate Consistent(d: Db)
  {
    forall c :: Ascending(IdsIn(d, c), d.nextId)
  }

  /** Moving the counter forward keeps the store consistent. */
  lemma Bumped(d: Db, n: nat)
    requires Consistent(d)
    ensures Consistent(d.(nextId := d.nextId + n))
  {
    var d' := d.(nextId := d.nextId + n);
    forall c ensures Ascending(IdsIn(d', c), d'.nextId) {
      assert IdsIn(d', c) == IdsIn(d, c);
      AscendingRaise(IdsIn(d, c), d.nextId, d'.nextId);
    }
  }

  /** Replacing the documents of one collection by an ascending sequence
      (the counter possibly moved forward) keeps the store consistent. */
  lemma Replaced(d: Db, c: Collection, d': Db)
    requires Consistent(d) && d.nextId <= d'.nextId
    requires Ascending(IdsIn(d', c), d'.nextId)
    requires forall c' :: c' != c ==> IdsIn(d', c') == IdsIn(d, c')
    ensures Consistent(d')
  {
    forall c' ensures Ascending(IdsIn(d', c'), d'.nextId) {
      if c' != c {
        AscendingRaise(IdsIn(d, c'), d.nextId, d'.nextId);
      }
    }
  }

  // ---------------------------------------------------------------------
  // Template tables of the seed script
  // ---------------------------------------------------------------------

  datatype CategoryTemplate = CategoryTemplate(name: string, description: string)

  /** `price` in cents, `rating` in tenths. */
  datatype ProductTemplate = ProductTemplate(
    name: string, description: string, price: nat, stock: nat, brand: string, rating: nat)

  datatype UserTemplate = UserTemplate(
    username: string, email: string, password: string, phone: string, address: string)

  datatype TaskTemplate = TaskTemplate(
    title: string, description: string, points: nat, category: TaskCategory, kind: TaskKind)

  const CategoryTemplates: seq<CategoryTemplate> := [
    CategoryTemplate("Soins du visage", "Crèmes, sérums et masques pour le visage"),
    CategoryTemplate("Maquillage", "Produits de maquillage pour tous les styles"),
    CategoryTemplate("Parfums", "Fragrances pour hommes et femmes"),
    CategoryTemplate("Soins du corps", "Lotions, gels douche et soins corporels"),
    CategoryTemplate("Soins des cheveux", "Shampoings, après-shampoings et masques capillaires"),
    CategoryTemplate("Soins des ongles", "Vernis et soins pour les ongles")
  ]

  const ProductTemplates: seq<ProductTemplate> := [
    ProductTemplate("Sérum Vitamine C", "Sérum éclaircissant à la vitamine C pure", 4599, 50, "GlowLab", 45),
    ProductTemplate("Crème Hydratante Bio", "Crème hydratante certifiée bio", 3250, 75, "NatureSkin", 48),
    ProductTemplate("Mascara Volume XXL", "Mascara effet volume intense", 1890, 100, "BeautyPro", 42),
    ProductTemplate("Rouge à Lèvres Mat", "Rouge à lèvres longue tenue effet mat", 2200, 80, "ColorMe", 46),
    ProductTemplate("Parfum Floral Élégance", "Eau de parfum aux notes florales", 8999, 30, "Essence", 49),
    ProductTemplate("Gel Douche Relaxant", "Gel douche à la lavande", 1250, 120, "PureSpa", 43),
    ProductTemplate("Shampooing Réparateur", "Shampooing pour cheveux abîmés", 1590, 90, "HairCare", 44),
    ProductTemplate("Masque Capillaire Intense", "Masque nourrissant profond", 2800, 60, "HairCare", 47),
    ProductTemplate("Vernis à Ongles Rose", "Vernis longue tenue rose poudré", 999, 150, "NailArt", 41),
    ProductTemplate("Fond de Teint Fluide", "Fond de teint couvrance moyenne", 3500, 70, "BeautyPro", 45),
    ProductTemplate("Palette Ombres à Paupières", "12 teintes pour tous les looks", 4200, 55, "ColorMe", 48),
    ProductTemplate("Crème Anti-Âge Premium", "Crème anti-rides haute performance", 7850, 40, "GlowLab", 49),
    ProductTemplate("Lotion Corps Hydratante", "Lotion hydratation 24h", 1990, 85, "PureSpa", 44),
    ProductTemplate("Eau Micellaire Douce", "Démaquillant tout-en-un", 1450, 110, "NatureSkin", 46),
    ProductTemplate("Baume à Lèvres Réparateur", "Baume nourrissant pour lèvres sèches", 799, 200, "NatureSkin", 43)
  ]

  const UserTemplates: seq<UserTemplate> := [
    UserTemplate("alice_martin", "alice.martin@email.com", "password123", "0612345678", "12 Rue de Paris, Tunis"),
    UserTemplate("bob_dupont", "bob.dupont@email.com", "password123", "0623456789", "45 Avenue Habib Bourguiba, Sfax"),
    UserTemplate("claire_bernard", "claire.bernard@email.com", "password123", "0634567890", "78 Rue de la Liberté, Sousse"),
    UserTemplate("david_rousseau", "david.rousseau@email.com", "password123", "0645678901", "23 Boulevard Mohamed V, Bizerte"),
    UserTemplate("emma_petit", "emma.petit@email.com", "password123", "0656789012", "56 Rue de Carthage, Tunis"),
    UserTemplate("felix_moreau", "felix.moreau@email.com", "password123", "0667890123", "89 Avenue de France, Monastir"),
    UserTemplate("gabrielle_simon", "gabrielle.simon@email.com", "password123", "0678901234", "34 Rue Ibn Khaldoun, Tunis"),
    UserTemplate("hugo_laurent", "hugo.laurent@email.com", "password123", "0689012345", "67 Avenue Farhat Hached, Nabeul")
  ]

  const ReviewComments: seq<string> := [
    "Excellent produit, je recommande !",
    "Très satisfait de mon achat",
    "Bon rapport qualité-prix",
    "Produit conforme à mes attentes",
    "Je rachèterai certainement",
    "Efficace et agréable à utiliser",
    "Un peu cher mais de qualité",
    "Résultats visibles rapidement"
  ]

  const TaskTemplates: seq<TaskTemplate> := [
    TaskTemplate("Routine matinale", "Appliquez votre routine de soins du matin", 50, Skincare, Daily),
    TaskTemplate("Premier achat", "Effectuez votre première commande", 100, Shopping, Onboarding),
    TaskTemplate("Laisser un avis", "Donnez votre avis sur un produit", 30, ReviewTask, Weekly),
    TaskTemplate("Partager sur les réseaux", "Partagez vos produits préférés", 20, Social, Challenge),
    TaskTemplate("Soin capillaire", "Faites un masque pour vos cheveux", 40, Haircare, Weekly)
  ]

  const SkinTypes: seq<SkinType> := [Normal, Dry, Oily, Combination]
  const Concerns: seq<Concern> := [Hydration, AntiAging, Acne]
  const OrderStatuses: seq<OrderStatus> := [Pending, Processing, Shipped, Delivered]
  const PaymentMethods: seq<PaymentMethod> := [CreditCard, PayPal, BankTransfer]

  /** The number of reviews and of orders the script creates. */
  const ReviewCount: nat := 20
  const OrderCount: nat := 15
}
