/** The records and enumerations of the shop (src/types/index.ts), shared by every
    other module.

    Conventions used throughout:
    - Prices and bid amounts are integers (whole lira); times are integer milliseconds.
    - The optional numeric auction fields (startingBid, minimumBidIncrement, buyNowPrice,
      currentHighestBid) hold 0 when absent: the code only ever tests them by truthiness
      or reads them with `|| 0`, and for both an absent field and 0 behave the same.
    - An optional time is an `Option<int>`; `TimeOrEpoch` reads a missing one as 0, as
      the code's `new Date(x || 0)` and `parseDate` do. */
module Types {

  datatype Option<T> = None | Some(value: T)

  datatype Result<T, E> = Ok(value: T) | Err(error: E)

  /** A time field read as milliseconds; a missing one is the epoch. */
  function TimeOrEpoch(t: Option<int>): int
  {
    if t.Some? then t.value else 0
  }

  datatype SaleType = Fixed | Auction

  datatype Category =
    | Mobilya | Seramik | Mucevherat | HaliKilim | SanatEserleri | Aydinlatma
    | Saatler | NadirKitaplar | DekorasyonAksesuar | Ayna | Koleksiyon | Diger

  /** The category as it is stored and shown. */
  function CategoryLabel(c: Category): string
  {
    match c
    case Mobilya => "Mobilya"
    case Seramik => "Seramik"
    case Mucevherat => "Mücevherat"
    case HaliKilim => "Halı & Kilim"
    case SanatEserleri => "Sanat Eserleri"
    case Aydinlatma => "Aydınlatma"
    case Saatler => "Saatler"
    case NadirKitaplar => "Nadir Kitaplar"
    case DekorasyonAksesuar => "Dekorasyon & Aksesuar"
    case Ayna => "Ayna"
    case Koleksiyon => "Koleksiyon"
    case Diger => "Diğer"
  }

  const CATEGORIES: seq<Category> := [
    Mobilya, Seramik, Mucevherat, HaliKilim, SanatEserleri, Aydinlatma,
    Saatler, NadirKitaplar, DekorasyonAksesuar, Ayna, Koleksiyon, Diger
  ]

  datatype OrderStatus =
    | AwaitingPayment   // 'Ödeme Bekleniyor'
    | Paid              // 'Ödendi'
    | Preparing         // 'Hazırlanıyor'
    | Shipped           // 'Kargolandı'
    | Delivered         // 'Teslim Edildi'
    | Cancelled         // 'İptal Edildi'

  function StatusLabel(s: OrderStatus): string
  {
    match s
    case AwaitingPayment => "Ödeme Bekleniyor"
    case Paid => "Ödendi"
    case Preparing => "Hazırlanıyor"
    case Shipped => "Kargolandı"
    case Delivered => "Teslim Edildi"
    case Cancelled => "İptal Edildi"
  }

  const ORDER_STATUSES: seq<OrderStatus> := [
    AwaitingPayment, Paid, Preparing, Shipped, Delivered, Cancelled
  ]

  datatype BlogCategory =
    | AntikaHikayeleri | Koleksiyonerlik | Restorasyon | DonemRehberi
    | DukkanHikayeleri | Etkinlikler | BlogDiger

  function BlogCategoryLabel(c: BlogCategory): string
  {
    match c
    case AntikaHikayeleri => "Antika Hikayeleri"
    case Koleksiyonerlik => "Koleksiyonerlik"
    case Restorasyon => "Restorasyon"
    case DonemRehberi => "Dönem Rehberi"
    case DukkanHikayeleri => "Dükkan Hikayeleri"
    case Etkinlikler => "Etkinlikler"
    case BlogDiger => "Diğer"
  }

  const BLOG_CATEGORIES: seq<BlogCategory> := [
    AntikaHikayeleri, Koleksiyonerlik, Restorasyon, DonemRehberi,
    DukkanHikayeleri, Etkinlikler, BlogDiger
  ]

  /** No element occurs twice. */
  predicate Distinct<T(==)>(s: seq<T>)
  {
    forall i, j :: 0 <= i < j < |s| ==> s[i] != s[j]
  }

  /** CATEGORIES lists every category, each exactly once, and their labels differ. */
  lemma CategoriesComplete()
    ensures forall c: Category :: c in CATEGORIES
    ensures Distinct(CATEGORIES)
    ensures forall c, d: Category :: CategoryLabel(c) == CategoryLabel(d) ==> c == d
  {
    forall c: Category ensures c in CATEGORIES {
      match c
      case Mobilya => assert CATEGORIES[0] == c;
      case Seramik => assert CATEGORIES[1] == c;
      case Mucevherat => assert CATEGORIES[2] == c;
      case HaliKilim => assert CATEGORIES[3] == c;
      case SanatEserleri => assert CATEGORIES[4] == c;
      case Aydinlatma => assert CATEGORIES[5] == c;
      case Saatler => assert CATEGORIES[6] == c;
      case NadirKitaplar => assert CATEGORIES[7] == c;
      case DekorasyonAksesuar => assert CATEGORIES[8] == c;
      case Ayna => assert CATEGORIES[9] == c;
      case Koleksiyon => assert CATEGORIES[10] == c;
      case Diger => assert CATEGORIES[11] == c;
    }
  }

  /** ORDER_STATUSES lists every order status, each exactly once, and their labels differ. */
  lemma OrderStatusesComplete()
    ensures forall s: OrderStatus :: s in ORDER_STATUSES
    ensures Distinct(ORDER_STATUSES)
    ensures forall s, t: OrderStatus :: StatusLabel(s) == StatusLabel(t) ==> s == t
  {
    forall s: OrderStatus ensures s in ORDER_STATUSES {
      match s
      case AwaitingPayment => assert ORDER_STATUSES[0] == s;
      case Paid => assert ORDER_STATUSES[1] == s;
      case Preparing => assert ORDER_STATUSES[2] == s;
      case Shipped => assert ORDER_STATUSES[3] == s;
      case Delivered => assert ORDER_STATUSES[4] == s;
      case Cancelled => assert ORDER_STATUSES[5] == s;
    }
  }

  /** BLOG_CATEGORIES lists every blog category, each exactly once, and their labels differ. */
  lemma BlogCategoriesComplete()
    ensures forall c: BlogCategory :: c in BLOG_CATEGORIES
    ensures Distinct(BLOG_CATEGORIES)
    ensures forall c, d: BlogCategory :: BlogCategoryLabel(c) == BlogCategoryLabel(d) ==> c == d
  {
    forall c: BlogCategory ensures c in BLOG_CATEGORIES {
      match c
      case AntikaHikayeleri => assert BLOG_CATEGORIES[0] == c;
      case Koleksiyonerlik => assert BLOG_CATEGORIES[1] == c;
      case Restorasyon => assert BLOG_CATEGORIES[2] == c;
      case DonemRehberi => assert BLOG_CATEGORIES[3] == c;
      case DukkanHikayeleri => assert BLOG_CATEGORIES[4] == c;
      case Etkinlikler => assert BLOG_CATEGORIES[5] == c;
      case BlogDiger => assert BLOG_CATEGORIES[6] == c;
    }
  }

  datatype Product = Product(
    id: string,
    shopId: string,
    name: string,                 // "" when missing
    description: string,          // "" when missing
    price: int,
    category: Category,
    images: seq<string>,
    stock: int,
    isActive: bool,
    createdAt: int,               // 0 when missing
    updatedAt: int,
    saleType: SaleType,
    auctionStartTime: Option<int>,
    auctionEndTime: Option<int>,
    startingBid: int,             // 0 when absent
    minimumBidIncrement: int,     // 0 when absent
    buyNowPrice: int,             // 0 when absent
    currentHighestBid: int,       // 0 when absent
    currentHighestBidderId: Option<string>)

  datatype User = User(uid: string, name: string, email: string,
                       phone: Option<string>, address: Option<string>)

  /** One document of a product's `bids` sub-collection. */
  datatype BidRecord = BidRecord(
    productId: string,
    userId: string,
    userName: string,
    amount: int,
    timestamp: int,
    isBuyNow: bool)

  datatype OrderItem = OrderItem(
    productId: string,
    productName: string,
    productImage: string,
    shopId: string,
    shopName: string,
    quantity: int,
    price: int)

  datatype Order = Order(
    userId: string,
    userEmail: string,
    userName: string,
    userPhone: Option<string>,
    userAddress: Option<string>,
    items: seq<OrderItem>,
    totalPrice: int,
    status: OrderStatus)

  datatype SortBy = Newest | PriceAsc | PriceDesc

  /** The catalogue filter. `shopId` and `search` are strings whose empty value is falsy. */
  datatype FilterState = FilterState(
    minPrice: Option<int>,
    maxPrice: Option<int>,
    category: Option<Category>,
    shopId: Option<string>,
    search: Option<string>,
    sortBy: SortBy,
    saleType: Option<SaleType>)

  /** JavaScript truthiness of an optional string. */
  predicate TruthyString(s: Option<string>)
  {
    s.Some? && s.value != ""
  }

  datatype BlogPostType = Video | RichText

  datatype BlogPost = BlogPost(
    id: string,
    postType: BlogPostType,
    title: string,
    slug: string,
    category: BlogCategory,
    videoUrl: string,             // meaningful for video posts
    galleryImages: seq<string>)   // meaningful for rich-text posts

  predicate IsVideoBlogPost(post: BlogPost) { post.postType == Video }

  predicate IsRichTextBlogPost(post: BlogPost) { post.postType == RichText }

  /** The two type guards partition the posts. */
  lemma BlogGuardsPartition(post: BlogPost)
    ensures IsVideoBlogPost(post) != IsRichTextBlogPost(post)
  {
  }
}
